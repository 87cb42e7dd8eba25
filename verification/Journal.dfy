/**
 * The state journal: captures cut to a byte budget and marked, one line a
 * record, one rotated generation, and a reader that drops nothing.
 */
module Journal {
  import opened Wrappers
  import opened Json
  import opened Utf8

  // ---- The cut and its marker --------------------------------------------------

  function Decimal(n: nat): (r: string)
    ensures r != []
  {
    if n < 10 then ['0' + n as char] else Decimal(n / 10) + ['0' + (n % 10) as char]
  }

  function DecimalValue(s: string): int {
    if s == [] then 0 else DecimalValue(s[..|s| - 1]) * 10 + (s[|s| - 1] as int - '0' as int)
  }

  lemma {:induction false} DecimalReadsBack(n: nat)
    ensures DecimalValue(Decimal(n)) == n
  {
    if n >= 10 {
      DecimalReadsBack(n / 10);
      assert Decimal(n)[..|Decimal(n)| - 1] == Decimal(n / 10);
    } else {
      assert Decimal(n)[..0] == [];
    }
  }

  function Marker(kept: nat, total: nat): string {
    "\n<<<SAC-AGENTSTATE-TRUNCATED kept=" + Decimal(kept) + "B of " + Decimal(total) + "B>>>"
  }

  /** Slicing from the front in the source's language: a negative bound counts from the end. */
  function SliceEnd(total: nat, limit: int): (n: nat)
    ensures n <= total
  {
    if limit >= 0 then (if limit <= total then limit else total)
    else if total + limit >= 0 then total + limit else 0
  }

  function MarkTruncated(text: string, limit: int): (string, bool, nat) {
    var encoded := Encode(text);
    var total := |encoded|;
    if total <= limit then (text, false, total)
    else
      var kept := DecodeIgnore(encoded[..SliceEnd(total, limit)]);
      (kept + Marker(|Encode(kept)|, total), true, total)
  }

  /**
   * A cut capture is the longest prefix whose encoding fits, followed by a
   * marker that states that prefix's true length and the true total; at most
   * three bytes of the budget go unused. A capture within budget is untouched.
   */
  lemma CutIsLongestFittingPrefix(text: string, limit: nat)
    ensures var (cut, was, total) := MarkTruncated(text, limit);
            var kept := text[..Fitting(text, limit)];
            && total == |Encode(text)|
            && (was <==> total > limit)
            && (!was ==> cut == text)
            && (was ==> cut == kept + Marker(|Encode(kept)|, total) && limit - 4 < |Encode(kept)| <= limit)
            && (forall m: nat :: m <= |text| ==> (|Encode(text[..m])| <= limit <==> m <= |kept|))
  {
    forall m: nat | m <= |text| ensures |Encode(text[..m])| <= limit <==> m <= Fitting(text, limit) {
      FittingIsExact(text, limit, m);
    }
    if |Encode(text)| > limit {
      DecodeOfCut(text, limit);
      LittleIsWasted(text, limit);
    }
  }

  /** With a negative limit the same holds of the bytes that slicing leaves. */
  lemma NegativeLimitCutsFromTheEnd(text: string, limit: int)
    requires limit < 0
    ensures var (cut, was, total) := MarkTruncated(text, limit);
            var kept := text[..Fitting(text, SliceEnd(|Encode(text)|, limit))];
            was && total == |Encode(text)| && cut == kept + Marker(|Encode(kept)|, total)
  {
    DecodeOfCut(text, SliceEnd(|Encode(text)|, limit));
  }

  // ---- Captures of one state -----------------------------------------------------

  datatype Capture = Capture(key: string, text: string)

  const CUT_SUFFIX := "__truncated"

  function Signed(n: int): string { if n < 0 then "-" + Decimal(-n) else Decimal(n) }

  /** The record kept beside a cut, itself rendered as text: the limit, and how many bytes there were. */
  function CutRecord(limit: int, total: nat): Json {
    Str("{\"kept_bytes\": " + Signed(limit) + ", \"original_bytes\": " + Decimal(total) + "}")
  }

  /** Some prefix fills the limit to the byte. */
  ghost predicate FillsExactly(text: string, limit: nat) { exists m: nat :: m <= |text| && |Encode(text[..m])| == limit }

  lemma KeptIsLimitIff(text: string, limit: nat)
    requires |Encode(text)| > limit
    ensures |Encode(text[..Fitting(text, limit)])| == limit <==> FillsExactly(text, limit)
  {
    var k := Fitting(text, limit);
    LittleIsWasted(text, limit);
    if m: nat :| m <= |text| && |Encode(text[..m])| == limit {
      FittingIsExact(text, limit, m);
      assert text[..k] == text[..m] + text[m..k];
      EncodeAppend(text[..m], text[m..k]);
    }
  }

  lemma CutRecordsDiffer(a: nat, b: nat, total: nat)
    ensures CutRecord(a, total) == CutRecord(b, total) ==> a == b
  {
    if CutRecord(a, total) == CutRecord(b, total) {
      var head, tail := "{\"kept_bytes\": ", ", \"original_bytes\": " + Decimal(total) + "}";
      var x, y := CutRecord(a, total).text, CutRecord(b, total).text;
      assert x == head + Decimal(a) + tail && y == head + Decimal(b) + tail;
      assert |Decimal(a)| == |Decimal(b)|;
      assert Decimal(a) == x[|head|..|head| + |Decimal(a)|] && Decimal(b) == y[|head|..|head| + |Decimal(b)|];
      DecimalReadsBack(a);
      DecimalReadsBack(b);
    }
  }

  /**
   * Beside the marker a cut is recorded as data, and that record gives the limit
   * for the number of bytes kept. It is the record of what was kept exactly when
   * some prefix of the capture fills the limit to the byte.
   */
  lemma RecordedKeptBytesIsTheLimit(c: Capture, limit: nat)
    requires |Encode(c.text)| > limit
    ensures var kept, total := |Encode(c.text[..Fitting(c.text, limit)])|, |Encode(c.text)|;
            && Get(StoreCapture([], c, limit), c.key + CUT_SUFFIX) == Some(CutRecord(limit, total))
            && (Get(StoreCapture([], c, limit), c.key + CUT_SUFFIX) == Some(CutRecord(kept, total)) <==> FillsExactly(c.text, limit))
  {
    var kept := |Encode(c.text[..Fitting(c.text, limit)])|;
    StoringTouchesTwoKeys([], c, limit, "");
    KeptIsLimitIff(c.text, limit);
    CutRecordsDiffer(limit, kept, |Encode(c.text)|);
  }

  /** One two-byte letter and a limit of one: nothing is kept, and the record says one byte was. */
  lemma RecordCanBeWrong(key: string)
    ensures var c := Capture(key, "\U{E9}");
            && |Encode(c.text)| == 2 && Fitting(c.text, 1) == 0 && |Encode(c.text[..0])| == 0
            && Get(StoreCapture([], c, 1), key + CUT_SUFFIX) == Some(CutRecord(1, 2)) != Some(CutRecord(0, 2))
  {
    var c := Capture(key, "\U{E9}");
    assert c.text[1..] == "" && Encode(c.text) == EncodeChar('\U{E9}') + Encode("");
    StoringTouchesTwoKeys([], c, 1, "");
    CutRecordsDiffer(1, 0, 2);
  }

  predicate OverBudget(c: Capture, limit: int) { |Encode(c.text)| > limit }

  function CutKeys(raw: seq<Capture>, limit: int): seq<string> {
    if raw == [] then []
    else CutKeys(raw[..|raw| - 1], limit) + (if OverBudget(raw[|raw| - 1], limit) then [raw[|raw| - 1].key] else [])
  }

  function StoreCapture(out: Fields, c: Capture, limit: int): Fields {
    var (text, wasCut, total) := MarkTruncated(c.text, limit);
    var stored := Put(out, c.key, Str(text));
    if wasCut then Put(stored, c.key + CUT_SUFFIX, CutRecord(limit, total)) else stored
  }

  function StoreAll(raw: seq<Capture>, limit: int): Fields {
    if raw == [] then [] else StoreCapture(StoreAll(raw[..|raw| - 1], limit), raw[|raw| - 1], limit)
  }

  /** The loop that fills the record's captures and its list of cut keys; `NoCaptureIsOverwritten` and `CutIsLongestFittingPrefix` say what is stored. */
  method CutCaptures(raw: seq<Capture>, limit: int) returns (out: Fields, truncated: seq<string>)
    ensures out == StoreAll(raw, limit) && truncated == CutKeys(raw, limit)
  {
    out, truncated := [], [];
    for n := 0 to |raw|
      invariant out == StoreAll(raw[..n], limit) && truncated == CutKeys(raw[..n], limit)
    {
      var (text, wasCut, total) := MarkTruncated(raw[n].text, limit);
      out := Put(out, raw[n].key, Str(text));
      if wasCut {
        truncated := truncated + [raw[n].key];
        out := Put(out, raw[n].key + CUT_SUFFIX, CutRecord(limit, total));
      }
      assert raw[..n + 1][..n] == raw[..n];
    }
    assert raw[..|raw|] == raw;
  }

  /** Mapping keys are distinct, and no key is another's with the suffix of a cut record. */
  predicate KeysApart(raw: seq<Capture>) {
    && (forall i, j :: 0 <= i < j < |raw| ==> raw[i].key != raw[j].key)
    && (forall i, j :: 0 <= i < |raw| && 0 <= j < |raw| ==> raw[i].key != raw[j].key + CUT_SUFFIX)
  }

  lemma SuffixIsInjective(a: string, b: string)
    ensures a + CUT_SUFFIX == b + CUT_SUFFIX ==> a == b
  {
    if a + CUT_SUFFIX == b + CUT_SUFFIX {
      assert |a| == |b|;
      assert a == (a + CUT_SUFFIX)[..|a|] && b == (b + CUT_SUFFIX)[..|b|];
    }
  }

  lemma StoringTouchesTwoKeys(out: Fields, c: Capture, limit: int, other: string)
    ensures other != c.key && other != c.key + CUT_SUFFIX ==> Get(StoreCapture(out, c, limit), other) == Get(out, other)
    ensures Get(StoreCapture(out, c, limit), c.key) == Some(Str(MarkTruncated(c.text, limit).0))
    ensures OverBudget(c, limit) ==> Get(StoreCapture(out, c, limit), c.key + CUT_SUFFIX) == Some(CutRecord(limit, |Encode(c.text)|))
  {
    var (text, wasCut, total) := MarkTruncated(c.text, limit);
    var stored := Put(out, c.key, Str(text));
    assert |c.key + CUT_SUFFIX| > |c.key|;
    PutThenGet(out, c.key, Str(text), other);
    PutThenGet(out, c.key, Str(text), c.key);
    PutThenGet(stored, c.key + CUT_SUFFIX, CutRecord(limit, total), other);
    PutThenGet(stored, c.key + CUT_SUFFIX, CutRecord(limit, total), c.key);
    PutThenGet(stored, c.key + CUT_SUFFIX, CutRecord(limit, total), c.key + CUT_SUFFIX);
  }

  /** Every capture is stored cut to budget, and every cut leaves its record, however many captures follow. */
  lemma {:induction false} NoCaptureIsOverwritten(raw: seq<Capture>, limit: int, i: nat)
    requires KeysApart(raw) && i < |raw|
    ensures Get(StoreAll(raw, limit), raw[i].key) == Some(Str(MarkTruncated(raw[i].text, limit).0))
    ensures OverBudget(raw[i], limit) ==>
              Get(StoreAll(raw, limit), raw[i].key + CUT_SUFFIX) == Some(CutRecord(limit, |Encode(raw[i].text)|))
  {
    var n := |raw| - 1;
    var before := StoreAll(raw[..n], limit);
    StoringTouchesTwoKeys(before, raw[n], limit, raw[i].key);
    StoringTouchesTwoKeys(before, raw[n], limit, raw[i].key + CUT_SUFFIX);
    SuffixIsInjective(raw[i].key, raw[n].key);
    if i < n {
      NoCaptureIsOverwritten(raw[..n], limit, i);
    }
  }

  // ---- The rotating file -----------------------------------------------------------

  /** The journal and its one kept generation; an absent file is None. */
  datatype Files = Files(previous: Option<string>, current: Option<string>)

  /** One append: the record's line, and whether renaming and writing work. */
  datatype Append = Append(line: string, renameWorks: bool, writeWorks: bool)

  function Content(file: Option<string>): string { if file.Some? then file.value else "" }

  function Size(file: Option<string>): nat { |Encode(Content(file))| }

  function Rotate(f: Files, maxBytes: int, works: bool): (Files, bool) {
    if f.current.Some? && Size(f.current) >= maxBytes && works then (Files(f.current, None), true) else (f, false)
  }

  function AfterAppend(f: Files, a: Append, maxBytes: int): Files {
    var rotated := Rotate(f, maxBytes, a.renameWorks).0;
    if a.writeWorks then rotated.(current := Some(Content(rotated.current) + a.line + "\n")) else rotated
  }

  function AppendAll(f: Files, appends: seq<Append>, maxBytes: int): Files {
    if appends == [] then f else AfterAppend(AppendAll(f, appends[..|appends| - 1], maxBytes), appends[|appends| - 1], maxBytes)
  }

  /** The lines that were written, in order. */
  function Accepted(appends: seq<Append>): seq<string> {
    if appends == [] then []
    else
      var last := appends[|appends| - 1];
      Accepted(appends[..|appends| - 1]) + (if last.writeWorks then [last.line] else [])
  }

  function Text(lines: seq<string>): string {
    if lines == [] then "" else Text(lines[..|lines| - 1]) + lines[|lines| - 1] + "\n"
  }

  const EMPTY := Files(None, None)

  /** The two files hold the lines from `oldest` on, split at `cut`. */
  ghost predicate SuffixOf(f: Files, lines: seq<string>, oldest: nat, cut: nat) {
    && oldest <= cut <= |lines|
    && Content(f.previous) == Text(lines[oldest..cut])
    && Content(f.current) == Text(lines[cut..])
  }

  lemma RotateKeepsSuffix(f: Files, maxBytes: int, works: bool, lines: seq<string>, oldest: nat, cut: nat)
    requires SuffixOf(f, lines, oldest, cut)
    ensures var (after, rotated) := Rotate(f, maxBytes, works);
            SuffixOf(after, lines, if rotated then cut else oldest, if rotated then |lines| else cut)
  {
    assert lines[cut..] == lines[cut..|lines|] && lines[|lines|..] == [];
  }

  lemma WriteKeepsSuffix(f: Files, line: string, lines: seq<string>, oldest: nat, cut: nat)
    requires SuffixOf(f, lines, oldest, cut)
    ensures SuffixOf(f.(current := Some(Content(f.current) + line + "\n")), lines + [line], oldest, cut)
  {
    var all := lines + [line];
    assert all[oldest..cut] == lines[oldest..cut];
    assert all[cut..] == lines[cut..] + [line];
    assert all[cut..][..|all[cut..]| - 1] == lines[cut..];
  }

  /** Where the accepted history is cut: before `oldest` it is gone, from `cut` on it is in the current file, between them in the kept generation. */
  datatype Marks = Marks(oldest: nat, cut: nat, rotations: nat)

  /** Each successful rotation moves both marks: the kept generation starts where the current file did, and the current file starts anew. */
  function MarksAfter(appends: seq<Append>, maxBytes: int): (m: Marks)
    ensures m.oldest <= m.cut <= |Accepted(appends)|
    ensures m.rotations < 2 ==> m.oldest == 0
    ensures m.rotations < 1 ==> m.cut == 0
  {
    if appends == [] then Marks(0, 0, 0)
    else
      var before, last := appends[..|appends| - 1], appends[|appends| - 1];
      var m := MarksAfter(before, maxBytes);
      if Rotate(AppendAll(EMPTY, before, maxBytes), maxBytes, last.renameWorks).1
      then Marks(m.cut, |Accepted(before)|, m.rotations + 1)
      else m
  }

  /**
   * Whatever fails, the kept generation followed by the journal is the end of
   * the accepted history, in order and without a gap: all that was accepted
   * since the last successful rotation but one.
   */
  lemma {:induction false} FilesHoldASuffix(appends: seq<Append>, maxBytes: int)
    ensures var m := MarksAfter(appends, maxBytes);
            SuffixOf(AppendAll(EMPTY, appends, maxBytes), Accepted(appends), m.oldest, m.cut)
  {
    if appends != [] {
      var n := |appends| - 1;
      var a, m := appends[n], MarksAfter(appends[..n], maxBytes);
      var before, lines := AppendAll(EMPTY, appends[..n], maxBytes), Accepted(appends[..n]);
      FilesHoldASuffix(appends[..n], maxBytes);
      RotateKeepsSuffix(before, maxBytes, a.renameWorks, lines, m.oldest, m.cut);
      var (after, rotated) := Rotate(before, maxBytes, a.renameWorks);
      var moved := MarksAfter(appends, maxBytes);
      WriteKeepsSuffix(after, a.line, lines, moved.oldest, moved.cut);
      assert Accepted(appends) == if a.writeWorks then lines + [a.line] else lines;
    }
  }

  /** Before the second successful rotation nothing accepted is missing. */
  lemma NothingMissingBeforeTwoRotations(appends: seq<Append>, maxBytes: int)
    requires MarksAfter(appends, maxBytes).rotations < 2
    ensures var f := AppendAll(EMPTY, appends, maxBytes);
            exists cut: nat :: cut <= |Accepted(appends)|
              && Content(f.previous) == Text(Accepted(appends)[..cut]) && Content(f.current) == Text(Accepted(appends)[cut..])
  {
    var m, lines := MarksAfter(appends, maxBytes), Accepted(appends);
    FilesHoldASuffix(appends, maxBytes);
    assert lines[m.oldest..m.cut] == lines[..m.cut];
  }

  /** The line an append has just written is the last line of the current file. */
  lemma AcceptedLineIsLast(appends: seq<Append>, maxBytes: int)
    requires appends != [] && appends[|appends| - 1].writeWorks
    ensures var m, lines, line := MarksAfter(appends, maxBytes), Accepted(appends), appends[|appends| - 1].line;
            && m.cut < |lines| && lines[|lines| - 1] == line
            && Content(AppendAll(EMPTY, appends, maxBytes).current) == Text(lines[m.cut..|lines| - 1]) + line + "\n"
  {
    var m, lines := MarksAfter(appends, maxBytes), Accepted(appends);
    FilesHoldASuffix(appends, maxBytes);
    var rest := lines[m.cut..];
    assert rest[..|rest| - 1] == lines[m.cut..|lines| - 1];
  }

  /** While renames work the journal stays below the cap plus the record just written. */
  lemma {:induction false} JournalStaysBounded(f: Files, a: Append, maxBytes: int)
    requires a.renameWorks && a.writeWorks
    ensures var after := AfterAppend(f, a, maxBytes);
            Size(after.current) < (if maxBytes < 1 then 1 else maxBytes) + |Encode(a.line)| + 1
  {
    var rotated := Rotate(f, maxBytes, a.renameWorks).0;
    EncodeAppend(Content(rotated.current) + a.line, "\n");
    EncodeAppend(Content(rotated.current), a.line);
    assert Encode("\n") == EncodeChar('\n') + Encode("\n"[1..]);
  }

  /** The journal as an object whose appends change the two files. */
  class StateJournal {
    var files: Files
    const maxBytes: int

    constructor (maxBytes: int)
      ensures files == EMPTY && this.maxBytes == maxBytes
    {
      files, this.maxBytes := EMPTY, maxBytes;
    }

    /** Move a full file aside; `RotateKeepsSuffix` and `FilesHoldASuffix` say what that keeps. */
    method RotateFile(works: bool) returns (rotated: bool)
      modifies this
      ensures (files, rotated) == Rotate(old(files), maxBytes, works)
    {
      rotated := false;
      if files.current.Some? && Size(files.current) >= maxBytes {
        if works {
          files := Files(files.current, None);
          rotated := true;
        }
      }
    }

    /** Append one line; a failed write is reported, never raised. `FilesHoldASuffix` and `AcceptedLineIsLast` say where the line is then. */
    method AppendState(a: Append) returns (ok: bool, rotated: bool)
      modifies this
      ensures files == AfterAppend(old(files), a, maxBytes)
      ensures ok == a.writeWorks && rotated == Rotate(old(files), maxBytes, a.renameWorks).1
    {
      rotated := RotateFile(a.renameWorks);
      ok := a.writeWorks;
      if ok {
        files := files.(current := Some(Content(files.current) + a.line + "\n"));
      }
    }

    /** Oldest first: one item for every non-blank line, parsed where it parses; `ReadingYieldsTheNewestRecords` says which records these are. */
    method ReadJournal(parse: string -> Option<Json>) returns (items: seq<Item>)
      ensures items == Items(Lines(Content(files.current)), parse)
    {
      var lines := Lines(Content(files.current));
      items := [];
      for n := 0 to |lines|
        invariant items == Items(lines[..n], parse)
      {
        var line := Strip(lines[n]);
        assert lines[..n + 1][..n] == lines[..n];
        if line == "" {
          continue;
        }
        items := items + [if parse(line).Some? then Record(parse(line).value) else Unparseable(line)];
      }
      assert lines[..|lines|] == lines;
    }
  }

  // ---- Reading back ------------------------------------------------------------------

  datatype Item = Record(value: Json) | Unparseable(line: string)

  /** What iterating over a text file yields; a last line need not end in a newline. */
  function Lines(text: string): seq<string> {
    LinesFrom(text, "")
  }

  function LinesFrom(text: string, line: string): seq<string> {
    if text == "" then (if line == "" then [] else [line])
    else if text[0] == '\n' then [line + "\n"] + LinesFrom(text[1..], "")
    else LinesFrom(text[1..], line + [text[0]])
  }

  function ItemOf(line: string, parse: string -> Option<Json>): Item {
    if parse(Strip(line)).Some? then Record(parse(Strip(line)).value) else Unparseable(Strip(line))
  }

  function Items(lines: seq<string>, parse: string -> Option<Json>): seq<Item> {
    if lines == [] then []
    else
      var last := lines[|lines| - 1];
      Items(lines[..|lines| - 1], parse) + (if Strip(last) == "" then [] else [ItemOf(last, parse)])
  }

  /** A record as the writer renders it: no line break inside, nothing blank at either end. */
  predicate OneLine(line: string) { '\n' !in line && line != "" && Strip(line) == line }

  lemma {:induction false} OneLineIsRead(line: string, acc: string, rest: string)
    requires '\n' !in line
    ensures LinesFrom(line + "\n" + rest, acc) == [acc + line + "\n"] + LinesFrom(rest, "")
  {
    var text := line + "\n" + rest;
    if line == "" {
      assert text[0] == '\n' && text[1..] == rest;
      assert acc + line + "\n" == acc + "\n";
    } else {
      assert text[0] == line[0] && text[1..] == line[1..] + "\n" + rest;
      OneLineIsRead(line[1..], acc + [line[0]], rest);
      assert acc + [line[0]] + line[1..] + "\n" == acc + line + "\n";
    }
  }

  function Terminated(lines: seq<string>): (r: seq<string>)
    ensures |r| == |lines|
  {
    if lines == [] then [] else Terminated(lines[..|lines| - 1]) + [lines[|lines| - 1] + "\n"]
  }

  lemma {:induction false} WrittenLinesAreRead(lines: seq<string>, tail: string)
    requires forall line :: line in lines ==> '\n' !in line
    ensures Lines(Text(lines) + tail) == Terminated(lines) + Lines(tail)
  {
    if lines == [] {
      assert Text(lines) + tail == tail;
    } else {
      var n := |lines| - 1;
      WrittenLinesAreRead(lines[..n], lines[n] + "\n" + tail);
      OneLineIsRead(lines[n], "", tail);
      assert Text(lines) + tail == Text(lines[..n]) + (lines[n] + "\n" + tail);
      assert "" + lines[n] + "\n" == lines[n] + "\n";
    }
  }

  lemma OneLineStrips(line: string)
    requires OneLine(line)
    ensures Strip(line + "\n") == line
  {
    var t := line + "\n";
    if Blank(line[0]) {
      LStripShortens(line[1..]);
      RStripShortens(LStrip(line));
    }
    assert t[0] == line[0];
    assert LStrip(t) == t;
    assert t[..|t| - 1] == line;
    assert RStrip(t) == RStrip(line);
  }

  lemma {:induction false} LStripShortens(s: string)
    ensures |LStrip(s)| <= |s|
  {
    if s != [] && Blank(s[0]) { LStripShortens(s[1..]); }
  }

  lemma {:induction false} RStripShortens(s: string)
    ensures |RStrip(s)| <= |s|
  {
    if s != [] && Blank(s[|s| - 1]) { RStripShortens(s[..|s| - 1]); }
  }

  function ParsedOne(line: string, parse: string -> Option<Json>): Item {
    if parse(line).Some? then Record(parse(line).value) else Unparseable(line)
  }

  function Parsed(lines: seq<string>, parse: string -> Option<Json>): (r: seq<Item>)
    ensures |r| == |lines|
  {
    if lines == [] then [] else Parsed(lines[..|lines| - 1], parse) + [ParsedOne(lines[|lines| - 1], parse)]
  }

  lemma {:induction false} TerminatedItems(lines: seq<string>, parse: string -> Option<Json>)
    requires forall line :: line in lines ==> OneLine(line)
    ensures Items(Terminated(lines), parse) == Parsed(lines, parse)
  {
    if lines != [] {
      var n := |lines| - 1;
      var init, last := Terminated(lines[..n]), lines[n] + "\n";
      TerminatedItems(lines[..n], parse);
      OneLineStrips(lines[n]);
      ItemsOfOneMore(init, last, parse);
      assert lines[n] in lines;
    }
  }

  lemma ItemsOfOneMore(lines: seq<string>, last: string, parse: string -> Option<Json>)
    ensures Items(lines + [last], parse) == Items(lines, parse) + (if Strip(last) == "" then [] else [ItemOf(last, parse)])
  {
    var all := lines + [last];
    assert all[..|all| - 1] == lines && all[|all| - 1] == last;
  }

  /** Reading a journal of whole records yields exactly one item a record, in order; a torn line after them yields one more, as data. */
  lemma EveryRecordReadsBack(lines: seq<string>, torn: string, parse: string -> Option<Json>)
    requires forall line :: line in lines ==> OneLine(line)
    requires torn == "" || OneLine(torn)
    ensures Items(Lines(Text(lines) + torn), parse) ==
            Parsed(lines, parse) + (if torn == "" then [] else [ParsedOne(torn, parse)])
  {
    WrittenLinesAreRead(lines, torn);
    TerminatedItems(lines, parse);
    if torn == "" {
      assert Terminated(lines) + [] == Terminated(lines);
    } else {
      WholeTail(torn, "");
      assert "" + torn == torn;
      assert (Terminated(lines) + [torn])[..|lines|] == Terminated(lines);
    }
  }

  /** After any run of appends, whatever failed, reading yields exactly the records accepted since the last successful rotation, in order, one item each. */
  lemma ReadingYieldsTheNewestRecords(appends: seq<Append>, maxBytes: int, parse: string -> Option<Json>)
    requires forall line :: line in Accepted(appends) ==> OneLine(line)
    ensures var f := AppendAll(EMPTY, appends, maxBytes);
            Items(Lines(Content(f.current)), parse) == Parsed(Accepted(appends)[MarksAfter(appends, maxBytes).cut..], parse)
  {
    var f, accepted := AppendAll(EMPTY, appends, maxBytes), Accepted(appends);
    var newest := accepted[MarksAfter(appends, maxBytes).cut..];
    FilesHoldASuffix(appends, maxBytes);
    EveryRecordReadsBack(newest, "", parse);
    assert Text(newest) + "" == Content(f.current);
  }

  lemma {:induction false} WholeTail(torn: string, acc: string)
    requires '\n' !in torn && acc + torn != ""
    ensures LinesFrom(torn, acc) == [acc + torn]
  {
    if torn == "" {
      assert acc + torn == acc;
    } else {
      WholeTail(torn[1..], acc + [torn[0]]);
      assert acc + [torn[0]] + torn[1..] == acc + torn;
    }
  }
}
