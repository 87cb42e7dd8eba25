/**
 * A peer's files as seen through an unreliable transport.
 *
 * `plan(k)` decides the fate of the k-th remote operation: it may not happen,
 * it may happen and still report failure, `dd` may stop at a prefix and exit
 * zero, and `chmod` may be ignored and exit zero. A script that was cut short may
 * still speak or exit zero without a word. Renames are atomic and `stat` tells
 * the truth. Statements hold for every plan.
 *
 * `trace` lists every state the peer has been in, including one in the middle
 * of each write, so a property of all of `trace` survives a crash at any point.
 */
module RemotePeer {
  import opened Wrappers

  datatype RemotePath = RemotePath(dir: string, name: string)

  /** Modes are written as their octal digits. */
  datatype Entry = Entry(content: Bytes, mode: nat)

  type Files = map<RemotePath, Entry>

  datatype Fault = Fault(happens: bool, reports: bool, obeyed: bool, busy: bool, speaks: bool, cut: Option<nat>, partway: nat, umaskMode: nat)

  const FILE_MODE: nat := 600
  const STAGED_SUFFIX := ".sac-push-tmp"

  function Staged(remote: RemotePath): RemotePath {
    remote.(name := remote.name + STAGED_SUFFIX)
  }

  function Lookup(files: Files, p: RemotePath): Option<Entry> {
    if p in files then Some(files[p]) else None
  }

  /** Nothing outside `touched` differs. */
  ghost predicate SameExcept(before: Files, after: Files, touched: set<RemotePath>) {
    forall p :: p !in touched ==> Lookup(after, p) == Lookup(before, p)
  }

  function Prefix(payload: Bytes, n: nat): (prefix: Bytes)
    ensures prefix <= payload
    ensures |prefix| == |payload| ==> prefix == payload
  {
    if n <= |payload| then payload[..n] else payload
  }

  predicate Faultless(f: Fault) {
    f.happens && f.reports && f.obeyed && f.cut.None?
  }

  /** `dd` keeps an existing file's mode; a new file gets whatever the umask leaves. */
  function Written(files: Files, p: RemotePath, content: Bytes, f: Fault): (after: Files)
    ensures SameExcept(files, after, {p})
  {
    files[p := Entry(content, if p in files then files[p].mode else f.umaskMode)]
  }

  function AfterDd(files: Files, p: RemotePath, payload: Bytes, f: Fault): (after: Files)
    ensures SameExcept(files, after, {p})
  {
    if !f.happens then files
    else Written(files, p, if f.cut.Some? then Prefix(payload, f.cut.value) else payload, f)
  }

  function AfterChmod(files: Files, p: RemotePath, mode: nat, f: Fault): (after: Files)
    ensures SameExcept(files, after, {p})
  {
    if f.happens && f.obeyed && p in files then files[p := files[p].(mode := mode)] else files
  }

  function AfterMv(files: Files, from: RemotePath, to: RemotePath, f: Fault): (after: Files)
    ensures SameExcept(files, after, {from, to})
  {
    if f.happens && from in files then files[to := files[from]] - {from} else files
  }

  /** `cp -p`: a copy that exits zero is complete, one that does not may be partial. */
  function AfterCp(files: Files, from: RemotePath, to: RemotePath, f: Fault): (after: Files)
    ensures SameExcept(files, after, {to})
  {
    if !f.happens || from !in files then files
    else if f.reports then files[to := files[from]]
    else files[to := Entry(Prefix(files[from].content, f.partway), files[from].mode)]
  }

  class Peer {
    var files: Files
    var clock: nat
    const plan: nat -> Fault
    ghost var trace: seq<Files>

    constructor (files: Files, plan: nat -> Fault)
      ensures Valid() && this.files == files && this.plan == plan && clock == 0 && trace == [files]
    {
      this.files, this.plan, clock, trace := files, plan, 0, [files];
    }

    ghost predicate Valid()
      reads this
    {
      trace != [] && trace[|trace| - 1] == files
    }

    /** An operation without effect on any file: `mkdir`, hardening the directory, `test`. */
    method Command() returns (ok: bool)
      requires Valid()
      modifies this
      ensures Valid() && clock == old(clock) + 1 && files == old(files) && trace == old(trace) + [files]
      ensures ok == (plan(old(clock)).happens && plan(old(clock)).reports)
    {
      ok := plan(clock).happens && plan(clock).reports;
      clock, trace := clock + 1, trace + [files];
    }

    method Dd(p: RemotePath, payload: Bytes) returns (ok: bool)
      requires Valid()
      modifies this
      ensures Valid() && clock == old(clock) + 1
      ensures var f := plan(old(clock));
              && ok == (f.happens && f.reports)
              && files == AfterDd(old(files), p, payload, f)
              && trace == old(trace) + [if f.happens then Written(old(files), p, Prefix(payload, f.partway), f) else files, files]
    {
      var f := plan(clock);
      ok := f.happens && f.reports;
      ghost var midway := if f.happens then Written(files, p, Prefix(payload, f.partway), f) else files;
      files := AfterDd(files, p, payload, f);
      clock, trace := clock + 1, trace + [midway, files];
    }

    method Chmod(p: RemotePath, mode: nat) returns (ok: bool)
      requires Valid()
      modifies this
      ensures Valid() && clock == old(clock) + 1 && trace == old(trace) + [files]
      ensures var f := plan(old(clock));
              ok == (f.happens && f.reports && p in old(files)) && files == AfterChmod(old(files), p, mode, f)
    {
      var f := plan(clock);
      ok := f.happens && f.reports && p in files;
      files := AfterChmod(files, p, mode, f);
      clock, trace := clock + 1, trace + [files];
    }

    /** One `stat`: the truth about the file, or nothing readable. */
    method Stat(p: RemotePath) returns (r: Option<(nat, nat)>)
      requires Valid()
      modifies this
      ensures Valid() && clock == old(clock) + 1 && files == old(files) && trace == old(trace) + [files]
      ensures r == if plan(old(clock)).happens && plan(old(clock)).reports && p in files
                   then Some((files[p].mode, |files[p].content|)) else None
    {
      var f := plan(clock);
      r := if f.happens && f.reports && p in files then Some((files[p].mode, |files[p].content|)) else None;
      clock, trace := clock + 1, trace + [files];
    }

    /** `mv -f`: a failure may or may not be described as the target being busy. */
    method Mv(from: RemotePath, to: RemotePath) returns (ok: bool, busy: bool)
      requires Valid()
      modifies this
      ensures Valid() && clock == old(clock) + 1 && trace == old(trace) + [files]
      ensures var f := plan(old(clock));
              ok == (f.happens && f.reports && from in old(files)) && busy == f.busy && files == AfterMv(old(files), from, to, f)
    {
      var f := plan(clock);
      ok, busy := f.happens && f.reports && from in files, f.busy;
      files := AfterMv(files, from, to, f);
      clock, trace := clock + 1, trace + [files];
    }

    /** `rm -f`, whose result nobody looks at. */
    method Discard(p: RemotePath)
      requires Valid()
      modifies this
      ensures Valid() && clock == old(clock) + 1 && trace == old(trace) + [files]
      ensures files == if plan(old(clock)).happens then old(files) - {p} else old(files)
    {
      files := if plan(clock).happens then files - {p} else files;
      clock, trace := clock + 1, trace + [files];
    }

    method Exists(p: RemotePath) returns (ok: bool)
      requires Valid()
      modifies this
      ensures Valid() && clock == old(clock) + 1 && files == old(files) && trace == old(trace) + [files]
      ensures ok == (plan(old(clock)).happens && plan(old(clock)).reports && p in files)
    {
      ok := plan(clock).happens && plan(clock).reports && p in files;
      clock, trace := clock + 1, trace + [files];
    }

    method Cp(from: RemotePath, to: RemotePath) returns (ok: bool)
      requires Valid()
      modifies this
      ensures Valid() && clock == old(clock) + 1 && trace == old(trace) + [files]
      ensures var f := plan(old(clock));
              ok == (f.happens && f.reports && from in old(files)) && files == AfterCp(old(files), from, to, f)
    {
      var f := plan(clock);
      ok := f.happens && f.reports && from in files;
      files := AfterCp(files, from, to, f);
      clock, trace := clock + 1, trace + [files];
    }
  }
}
