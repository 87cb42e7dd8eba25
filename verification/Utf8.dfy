/**
 * UTF-8 (section 3 of RFC 3629): the encoder, and the decoder that drops what
 * it cannot decode. A `char` is a Unicode scalar value.
 */
module Utf8 {
  import opened Wrappers

  function EncodeChar(c: char): (r: Bytes)
    ensures 1 <= |r| <= 4
  {
    var n := c as int;
    if n < 0x80 then [n]
    else if n < 0x800 then [0xC0 + n / 64, 0x80 + n % 64]
    else if n < 0x10000 then [0xE0 + n / 64 / 64, 0x80 + n / 64 % 64, 0x80 + n % 64]
    else [0xF0 + n / 64 / 64 / 64, 0x80 + n / 64 / 64 % 64, 0x80 + n / 64 % 64, 0x80 + n % 64]
  }

  function Encode(text: string): Bytes {
    if text == [] then [] else EncodeChar(text[0]) + Encode(text[1..])
  }

  predicate Continuation(b: byte) { 0x80 <= b < 0xC0 }

  /** The bits a byte contributes once its marker is taken off. */
  function Payload(b: byte, marker: int): int { (b as int) - marker }

  /** The character a well-formed sequence at the front stands for, and its length. */
  function DecodeOne(bs: Bytes): (r: Option<(char, nat)>)
    ensures r.Some? ==> 1 <= r.value.1 <= |bs|
  {
    if bs == [] then None
    else if bs[0] < 0x80 then Some((bs[0] as char, 1))
    else if 0xC2 <= bs[0] < 0xE0 && |bs| >= 2 && Continuation(bs[1]) then
      Some(((Payload(bs[0], 0xC0) * 64 + Payload(bs[1], 0x80)) as char, 2))
    else if 0xE0 <= bs[0] < 0xF0 && |bs| >= 3 && SecondFits(bs[0], bs[1]) && Continuation(bs[2]) then
      var n := (Payload(bs[0], 0xE0) * 64 + Payload(bs[1], 0x80)) * 64 + Payload(bs[2], 0x80);
      Some((n as char, 3))
    else if 0xF0 <= bs[0] < 0xF5 && |bs| >= 4 && SecondFits(bs[0], bs[1]) && Continuation(bs[2]) && Continuation(bs[3]) then
      var n := ((Payload(bs[0], 0xF0) * 64 + Payload(bs[1], 0x80)) * 64 + Payload(bs[2], 0x80)) * 64 + Payload(bs[3], 0x80);
      Some((n as char, 4))
    else None
  }

  /** Second bytes that rule out overlong forms, surrogates and values past U+10FFFF. */
  predicate SecondFits(first: byte, second: byte) {
    && Continuation(second)
    && (first == 0xE0 ==> 0xA0 <= second)
    && (first == 0xED ==> second < 0xA0)
    && (first == 0xF0 ==> 0x90 <= second)
    && (first == 0xF4 ==> second < 0x90)
  }

  /** How many bytes an error at the front swallows: the longest start of some well-formed sequence. */
  function ErrorLength(bs: Bytes): (n: nat)
    requires bs != []
    ensures 1 <= n <= |bs|
  {
    if |bs| >= 2 && 0xE0 <= bs[0] < 0xF5 && SecondFits(bs[0], bs[1]) then
      if |bs| >= 3 && 0xF0 <= bs[0] && Continuation(bs[2]) then 3 else 2
    else 1
  }

  function DecodeIgnore(bs: Bytes): string
    decreases |bs|
  {
    if bs == [] then ""
    else
      var one := DecodeOne(bs);
      if one.Some? then [one.value.0] + DecodeIgnore(bs[one.value.1..])
      else DecodeIgnore(bs[ErrorLength(bs)..])
  }

  lemma DecodeEncoded(c: char, rest: Bytes)
    ensures DecodeOne(EncodeChar(c) + rest) == Some((c, |EncodeChar(c)|))
  {
    var n, bs := c as int, EncodeChar(c) + rest;
    assert bs[0] == EncodeChar(c)[0];
    if n >= 0x80 { assert bs[1] == EncodeChar(c)[1]; }
    if n >= 0x800 { assert bs[2] == EncodeChar(c)[2]; }
    if n >= 0x10000 { assert bs[3] == EncodeChar(c)[3]; }
    if n < 0x80 {
    } else if n < 0x800 {
    } else if n < 0x10000 {
      ThreeBytes(n, bs);
    } else {
      FourBytes(n, bs);
    }
  }

  lemma ThreeBytes(n: int, bs: Bytes)
    requires 0x800 <= n < 0xD800 || 0xE000 <= n < 0x10000
    requires |bs| >= 3 && bs[0] == 0xE0 + n / 64 / 64 && bs[1] == 0x80 + n / 64 % 64 && bs[2] == 0x80 + n % 64
    ensures DecodeOne(bs) == Some((n as char, 3))
  {
  }

  lemma FourBytes(n: int, bs: Bytes)
    requires 0x10000 <= n < 0x110000
    requires |bs| >= 4 && bs[0] == 0xF0 + n / 64 / 64 / 64 && bs[1] == 0x80 + n / 64 / 64 % 64
    requires bs[2] == 0x80 + n / 64 % 64 && bs[3] == 0x80 + n % 64
    ensures DecodeOne(bs) == Some((n as char, 4))
  {
  }

  /** A character cut short decodes to nothing, and swallows nothing else. */
  lemma CutCharacterVanishes(c: char, n: nat)
    requires n < |EncodeChar(c)|
    ensures DecodeIgnore(EncodeChar(c)[..n]) == ""
  {
    var cut := EncodeChar(c)[..n];
    if n > 0 {
      assert DecodeOne(cut) == None;
      assert ErrorLength(cut) == n;
      assert cut[n..] == [];
    }
  }

  lemma {:induction false} EncodeAppend(a: string, b: string)
    ensures Encode(a + b) == Encode(a) + Encode(b)
  {
    if a == [] {
      assert a + b == b;
    } else {
      EncodeAppend(a[1..], b);
      assert (a + b)[1..] == a[1..] + b;
    }
  }

  /** How many characters of `text` fit into `budget` bytes. */
  function Fitting(text: string, budget: nat): (k: nat)
    ensures k <= |text|
  {
    if text == [] || |EncodeChar(text[0])| > budget then 0
    else 1 + Fitting(text[1..], budget - |EncodeChar(text[0])|)
  }

  /** A prefix fits exactly when it is no longer than that. */
  lemma {:induction false} FittingIsExact(text: string, budget: nat, m: nat)
    requires m <= |text|
    ensures |Encode(text[..m])| <= budget <==> m <= Fitting(text, budget)
  {
    if m > 0 {
      assert text[..m][1..] == text[1..][..m - 1];
      if |EncodeChar(text[0])| <= budget {
        FittingIsExact(text[1..], budget - |EncodeChar(text[0])|, m - 1);
      }
    }
  }

  /** Cutting an encoding at any byte and decoding what is left yields exactly the characters that fit whole. */
  lemma {:induction false} DecodeOfCut(text: string, n: nat)
    requires n <= |Encode(text)|
    ensures DecodeIgnore(Encode(text)[..n]) == text[..Fitting(text, n)]
  {
    if text != [] {
      var e := EncodeChar(text[0]);
      if |e| <= n {
        var rest := Encode(text[1..])[..n - |e|];
        assert Encode(text)[..n] == e + rest;
        DecodeEncoded(text[0], rest);
        assert (e + rest)[|e|..] == rest;
        DecodeOfCut(text[1..], n - |e|);
        assert text[..Fitting(text, n)] == [text[0]] + text[1..][..Fitting(text[1..], n - |e|)];
      } else {
        assert Encode(text)[..n] == e[..n];
        CutCharacterVanishes(text[0], n);
      }
    }
  }

  /** Decoding an encoding returns the text. */
  lemma RoundTrip(text: string)
    ensures DecodeIgnore(Encode(text)) == text
  {
    DecodeOfCut(text, |Encode(text)|);
    FittingIsExact(text, |Encode(text)|, |text|);
    assert Encode(text)[..|Encode(text)|] == Encode(text);
    assert text[..|text|] == text;
  }

  /** What is left over of the budget is less than one character. */
  lemma LittleIsWasted(text: string, budget: nat)
    requires budget < |Encode(text)|
    ensures budget - 4 < |Encode(text[..Fitting(text, budget)])| <= budget
  {
    var k := Fitting(text, budget);
    FittingIsExact(text, budget, k);
    FittingIsExact(text, budget, |text|);
    assert text[..|text|] == text;
    FittingIsExact(text, budget, k + 1);
    assert text[..k + 1] == text[..k] + [text[k]];
    EncodeAppend(text[..k], [text[k]]);
    assert Encode([text[k]]) == EncodeChar(text[k]) + Encode([text[k]][1..]);
  }
}
