/**
 * Rewriting the operator's live login: back up, replace atomically, verify what
 * was written, and restore the original when it does not verify.
 */
module ActiveLogin {
  import opened Wrappers
  import opened Json

  /** The decoder, and whichever serializer the run was given. */
  datatype Codec = Codec(parse: string -> Option<Json>, serialize: Json -> string)

  const WRAPPER := "claudeAiOauth"
  const ACCESS := "accessToken"
  const REFRESH := "refreshToken"
  const EXPIRES := "expiresAt"

  predicate Wrapped(fields: Fields) {
    Get(fields, WRAPPER).Some? && Get(fields, WRAPPER).value.Obj?
  }

  /** The object that holds the tokens: the wrapped block, or a root that carries an access token. */
  function OauthBlock(doc: Option<Json>): Option<Fields> {
    if doc.None? || !doc.value.Obj? then None
    else if Wrapped(doc.value.fields) then Some(Get(doc.value.fields, WRAPPER).value.fields)
    else if Get(doc.value.fields, ACCESS).Some? then Some(doc.value.fields)
    else None
  }

  datatype Tokens = Tokens(access: string, refresh: string, expires: Option<int>)

  function TextAt(block: Fields, key: string): string {
    var v := Get(block, key);
    if v.Some? && v.value.Str? then v.value.text else ""
  }

  /** The snapshot's tokens, when both are there; an expiry counts only when it is a whole number. */
  function SnapshotTokens(snapshot: Option<Json>): Option<Tokens> {
    var block := OauthBlock(snapshot);
    if block.None? || TextAt(block.value, ACCESS) == "" || TextAt(block.value, REFRESH) == "" then None
    else
      var e := Get(block.value, EXPIRES);
      Some(Tokens(TextAt(block.value, ACCESS), TextAt(block.value, REFRESH), if e.Some? && e.value.Int? then Some(e.value.n) else None))
  }

  predicate Positive(j: Option<Json>) {
    && j.Some?
    && ((j.value.Int? && j.value.n > 0) || (j.value.Float? && j.value.r > 0.0) || (j.value.NonFinite? && j.value.positive))
  }

  predicate BlockIsValid(block: Option<Fields>) {
    && block.Some?
    && Strip(TextAt(block.value, ACCESS)) != ""
    && Strip(TextAt(block.value, REFRESH)) != ""
    && Positive(Get(block.value, EXPIRES))
  }

  function SetTokens(block: Fields, t: Tokens): Fields {
    var both := Put(Put(block, ACCESS, Str(t.access)), REFRESH, Str(t.refresh));
    if t.expires.Some? then Put(both, EXPIRES, Int(t.expires.value)) else both
  }

  /** The live document with its three token fields replaced, wherever its block is. */
  function Rewritten(doc: Json, t: Tokens): Json
    requires OauthBlock(Some(doc)).Some?
  {
    var block := SetTokens(OauthBlock(Some(doc)).value, t);
    if Wrapped(doc.fields) then Obj(Put(doc.fields, WRAPPER, Obj(block))) else Obj(block)
  }

  predicate IsTokenKey(key: string) { key == ACCESS || key == REFRESH || key == EXPIRES }

  lemma SetTokensTouchesThree(block: Fields, t: Tokens, key: string)
    ensures !IsTokenKey(key) ==> Get(SetTokens(block, t), key) == Get(block, key)
    ensures Get(SetTokens(block, t), ACCESS) == Some(Str(t.access))
    ensures Get(SetTokens(block, t), REFRESH) == Some(Str(t.refresh))
    ensures Get(SetTokens(block, t), EXPIRES) == if t.expires.Some? then Some(Int(t.expires.value)) else Get(block, EXPIRES)
  {
    var one := Put(block, ACCESS, Str(t.access));
    var two := Put(one, REFRESH, Str(t.refresh));
    forall k | k == key || IsTokenKey(k) ensures Get(SetTokens(block, t), k) ==
        if k == EXPIRES && t.expires.Some? then Some(Int(t.expires.value))
        else if k == REFRESH then Some(Str(t.refresh)) else if k == ACCESS then Some(Str(t.access)) else Get(block, k) {
      PutThenGet(block, ACCESS, Str(t.access), k);
      PutThenGet(one, REFRESH, Str(t.refresh), k);
      if t.expires.Some? { PutThenGet(two, EXPIRES, Int(t.expires.value), k); }
    }
  }

  /**
   * The rewritten document has its block in the same place; outside the block
   * every key reads as before, and inside it every key but the three does.
   */
  lemma OnlyTokensChange(doc: Json, t: Tokens, key: string)
    requires OauthBlock(Some(doc)).Some?
    ensures var after := Rewritten(doc, t);
            && after.Obj? && (Wrapped(after.fields) <==> Wrapped(doc.fields))
            && OauthBlock(Some(after)) == Some(SetTokens(OauthBlock(Some(doc)).value, t))
            && (Wrapped(doc.fields) && key != WRAPPER ==> Get(after.fields, key) == Get(doc.fields, key))
            && (!IsTokenKey(key) ==>
                  Get(OauthBlock(Some(after)).value, key) == Get(OauthBlock(Some(doc)).value, key))
  {
    var block := OauthBlock(Some(doc)).value;
    SetTokensTouchesThree(block, t, key);
    SetTokensTouchesThree(block, t, WRAPPER);
    if Wrapped(doc.fields) {
      PutThenGet(doc.fields, WRAPPER, Obj(SetTokens(block, t)), key);
      PutThenGet(doc.fields, WRAPPER, Obj(SetTokens(block, t)), WRAPPER);
    }
  }

  /** What a faithful serializer writes verifies exactly when both tokens are more than blanks and the expiry it ends up with is positive. */
  predicate Acceptable(doc: Json, t: Tokens)
    requires OauthBlock(Some(doc)).Some?
  {
    && Strip(t.access) != "" && Strip(t.refresh) != ""
    && (if t.expires.Some? then t.expires.value > 0 else Positive(Get(OauthBlock(Some(doc)).value, EXPIRES)))
  }

  lemma AcceptableMeansValid(doc: Json, t: Tokens)
    requires OauthBlock(Some(doc)).Some?
    ensures BlockIsValid(OauthBlock(Some(Rewritten(doc, t)))) <==> Acceptable(doc, t)
  {
    OnlyTokensChange(doc, t, ACCESS);
    SetTokensTouchesThree(OauthBlock(Some(doc)).value, t, ACCESS);
  }

  // ---- The rewrite ------------------------------------------------------------------

  datatype Refusal = NoFreshTokens | NoLiveFile | NotJson | NoTokenBlock | FailedVerification

  /** `Refused` is the module's own error; `SystemError` is whatever an operation on a file raised. */
  datatype Outcome = Synced | Refused(why: Refusal) | SystemError

  type File = Option<string>

  /** The two files that matter after a crash. */
  datatype Stored = Stored(live: File, backup: File)

  class LoginFiles {
    var live: File
    var backup: File
    var temporary: File
    ghost var trace: seq<Stored>

    constructor (live: File)
      ensures this.live == live && trace == [Stored(live, None)]
    {
      this.live, backup, temporary, trace := live, None, None, [Stored(live, None)];
    }

    /** Atomic replacement of the live file: it happens, or it raises and does not. */
    method Replace(works: bool) returns (ok: bool)
      requires temporary.Some?
      modifies this`live, this`temporary, this`trace
      ensures ok == works
      ensures live == (if works then old(temporary) else old(live)) && trace == old(trace) + [Stored(live, backup)]
    {
      ok := works;
      if works {
        live, temporary := temporary, None;
      }
      trace := trace + [Stored(live, backup)];
    }

    /** Copy the live file aside; it happens, or it raises and does not. */
    method BackUp(works: bool) returns (ok: bool)
      modifies this`backup, this`trace
      ensures ok == works
      ensures backup == (if works then live else old(backup)) && trace == old(trace) + [Stored(live, backup)]
    {
      ok := works;
      if works { backup := live; }
      trace := trace + [Stored(live, backup)];
    }

    /**
     * `works(k)` says whether the k-th file operation does. At every moment the
     * live file is the original or the whole new text, and the backup holds the
     * original whenever it is not live; a refusal leaves the original; success
     * means what is live verifies.
     */
    method SyncActiveLogin(snapshot: Option<Json>, codec: Codec, works: nat -> bool) returns (out: Outcome)
      modifies this
      ensures old(trace) <= trace && |old(trace)| < |trace| && trace[|trace| - 1] == Stored(live, backup)
      ensures forall k :: |old(trace)| <= k < |trace| ==>
                && (trace[k].live == old(live) || trace[k].live == NewText(old(live), snapshot, codec))
                && (trace[k].live != old(live) ==> trace[k].backup == old(live))
      ensures out.Refused? ==> live == old(live)
      ensures out == Synced ==>
                && live == NewText(old(live), snapshot, codec) && live.Some?
                && BlockIsValid(OauthBlock(codec.parse(live.value)))
      ensures (forall k :: works(k)) ==> (out == Synced <==> Verifies(old(live), snapshot, codec))
      ensures (forall k :: works(k)) && WritesFaithfully(old(live), snapshot, codec) ==> (out == Synced <==> CanSync(old(live), snapshot, codec))
    {
      hide OauthBlock, Rewritten, Acceptable, BlockIsValid, SnapshotTokens;
      trace := trace + [Stored(live, backup)];
      var t := SnapshotTokens(snapshot);
      if t.None? { return Refused(NoFreshTokens); }
      if live.None? { return Refused(NoLiveFile); }
      var original := live.value;
      var doc := codec.parse(original);
      if doc.None? { return Refused(NotJson); }
      if OauthBlock(doc).None? { return Refused(NoTokenBlock); }
      AcceptableMeansValid(doc.value, t.value);
      var ok := BackUp(works(0));
      if !ok { return SystemError; }
      if !works(1) { return SystemError; }
      temporary := Some(codec.serialize(Rewritten(doc.value, t.value)));
      ok := Replace(works(2));
      if !ok { return SystemError; }
      var verified := works(3) && BlockIsValid(OauthBlock(codec.parse(live.value)));
      if !verified {
        if !works(4) { return SystemError; }
        temporary := backup;
        ok := Replace(works(5));
        if !ok { return SystemError; }
        return Refused(FailedVerification);
      }
      out := Synced;
    }
  }

  /** What a run may rewrite at all: fresh tokens, and a live document with a token block. */
  predicate Ready(live: File, snapshot: Option<Json>, codec: Codec) {
    SnapshotTokens(snapshot).Some? && live.Some? && codec.parse(live.value).Some? && OauthBlock(codec.parse(live.value)).Some?
  }

  /** The one text a run may put in place of the original. */
  function NewText(live: File, snapshot: Option<Json>, codec: Codec): File {
    if Ready(live, snapshot, codec) then Some(codec.serialize(Rewritten(codec.parse(live.value).value, SnapshotTokens(snapshot).value))) else live
  }

  /** Whatever the serializer made of it, the new text reads as a document with a valid block. */
  predicate Verifies(live: File, snapshot: Option<Json>, codec: Codec) {
    Ready(live, snapshot, codec) && BlockIsValid(OauthBlock(codec.parse(NewText(live, snapshot, codec).value)))
  }

  /** The one document this run would write reads back as itself. */
  predicate WritesFaithfully(live: File, snapshot: Option<Json>, codec: Codec) {
    Ready(live, snapshot, codec) ==>
      codec.parse(NewText(live, snapshot, codec).value) == Some(Rewritten(codec.parse(live.value).value, SnapshotTokens(snapshot).value))
  }

  predicate CanSync(live: File, snapshot: Option<Json>, codec: Codec) {
    Ready(live, snapshot, codec) && Acceptable(codec.parse(live.value).value, SnapshotTokens(snapshot).value)
  }
}
