/**
  The external server identifier: a MongoDB ObjectId, 12 bytes, exchanged with
  callers as its 24-character hexadecimal string. `ParseId` stands for
  `ObjectId(server_id)` and `Render` for `str(ObjectId)`; every operation that
  takes an id string goes through `ParseId`, so they all share one notion of a
  malformed id.
 */
module ObjectIds {
  import opened Wrappers

  type Byte = b: int | 0 <= b < 256

  /** Number of bytes in an ObjectId. */
  const IdBytes := 12

  /** Number of characters in the string form of an ObjectId. */
  const IdChars := 24

  type ObjectId = s: seq<Byte> | |s| == IdBytes witness [0, 0, 0, 0, 0, 0, 0, 0, 0, 0, 0, 0]

  predicate IsHexDigit(c: char) {
    '0' <= c <= '9' || 'a' <= c <= 'f' || 'A' <= c <= 'F'
  }

  predicate IsLowerHexDigit(c: char) {
    '0' <= c <= '9' || 'a' <= c <= 'f'
  }

  function ToLower(c: char): char {
    if 'A' <= c <= 'Z' then (c as int + 32) as char else c
  }

  function LowerCase(s: string): (t: string)
    ensures |t| == |s|
    ensures forall i :: 0 <= i < |s| ==> t[i] == ToLower(s[i])
  {
    if s == [] then [] else [ToLower(s[0])] + LowerCase(s[1..])
  }

  /** The lower-case hexadecimal digit for a value below 16. */
  function HexDigit(v: int): (c: char)
    requires 0 <= v < 16
    ensures IsLowerHexDigit(c)
  {
    if v < 10 then ('0' as int + v) as char else ('a' as int + v - 10) as char
  }

  /** The value of a hexadecimal digit of either case. */
  function DigitValue(c: char): (v: int)
    requires IsHexDigit(c)
    ensures 0 <= v < 16
    ensures HexDigit(v) == ToLower(c)
  {
    if '0' <= c <= '9' then c as int - '0' as int
    else if 'a' <= c <= 'f' then c as int - 'a' as int + 10
    else c as int - 'A' as int + 10
  }

  /** Two lower-case hexadecimal digits per byte, high nibble first. */
  function RenderBytes(bs: seq<Byte>): (s: string)
    ensures |s| == 2 * |bs|
    ensures forall i :: 0 <= i < |s| ==> IsLowerHexDigit(s[i])
  {
    if bs == [] then []
    else [HexDigit(bs[0] / 16), HexDigit(bs[0] % 16)] + RenderBytes(bs[1..])
  }

  /** Hexadecimal text to bytes; fails on an odd length or a non-hex character. */
  function ParseBytes(s: string): (r: Option<seq<Byte>>)
    ensures r.Some? <==> |s| % 2 == 0 && forall i :: 0 <= i < |s| ==> IsHexDigit(s[i])
    ensures r.Some? ==> 2 * |r.value| == |s|
  {
    if |s| == 0 then Some([])
    else if |s| == 1 || !IsHexDigit(s[0]) || !IsHexDigit(s[1]) then None
    else
      var rest := ParseBytes(s[2..]);
      assert forall i :: 2 <= i < |s| ==> s[i] == s[2..][i - 2];
      if rest.None? then None
      else Some([DigitValue(s[0]) * 16 + DigitValue(s[1])] + rest.value)
  }

  /** `ObjectId(s)`: exactly 24 hexadecimal digits, either case; anything else is malformed. */
  function ParseId(s: string): (r: Option<ObjectId>)
    ensures r.Some? <==> |s| == IdChars && forall i :: 0 <= i < |s| ==> IsHexDigit(s[i])
  {
    if |s| != IdChars then None
    else
      var bytes := ParseBytes(s);
      if bytes.None? then None else Some(bytes.value)
  }

  /** `str(ObjectId)`: 24 lower-case hexadecimal digits. */
  function Render(id: ObjectId): (s: string)
    ensures |s| == IdChars
    ensures forall i :: 0 <= i < |s| ==> IsLowerHexDigit(s[i])
  {
    RenderBytes(id)
  }

  lemma {:induction false} ParseRenderBytes(bs: seq<Byte>)
    ensures ParseBytes(RenderBytes(bs)) == Some(bs)
  {
    if bs != [] {
      var s := RenderBytes(bs);
      ParseRenderBytes(bs[1..]);
      assert s[2..] == RenderBytes(bs[1..]);
      assert DigitValue(s[0]) == bs[0] / 16;
      assert DigitValue(s[1]) == bs[0] % 16;
      assert [bs[0]] + bs[1..] == bs;
    }
  }

  lemma {:induction false} RenderParsedBytes(s: string, bs: seq<Byte>)
    requires ParseBytes(s) == Some(bs)
    ensures RenderBytes(bs) == LowerCase(s)
  {
    if s != [] {
      var rest := ParseBytes(s[2..]).value;
      RenderParsedBytes(s[2..], rest);
      var b := DigitValue(s[0]) * 16 + DigitValue(s[1]);
      assert bs == [b] + rest;
      assert b / 16 == DigitValue(s[0]) && b % 16 == DigitValue(s[1]);
      assert LowerCase(s) == [ToLower(s[0])] + ([ToLower(s[1])] + LowerCase(s[2..]));
    }
  }

  /** Every rendered id parses back to itself. */
  lemma RenderThenParse(id: ObjectId)
    ensures ParseId(Render(id)) == Some(id)
  {
    ParseRenderBytes(id);
  }

  /** Parsing then rendering normalises the letters to lower case and changes nothing else. */
  lemma ParseThenRender(s: string, id: ObjectId)
    requires ParseId(s) == Some(id)
    ensures Render(id) == LowerCase(s)
  {
    RenderParsedBytes(s, id);
  }

  /** Distinct ids have distinct string forms. */
  lemma RenderInjective(a: ObjectId, b: ObjectId)
    requires Render(a) == Render(b)
    ensures a == b
  {
    RenderThenParse(a);
    RenderThenParse(b);
  }
}
