/** Tokens for activities that complete asynchronously: `lib/cadence/activity/async_token.rb`. A token is the URL-safe
    Base64 form, with padding, of section 5 of RFC 4648. */
module AsyncTokens {
  import opened Base

  type Byte = b: int | 0 <= b < 256

  type Sextet = v: int | 0 <= v < 64

  // ----- Base64 -----

  function Letter(v: Sextet): char {
    if v < 26 then 'A' + v as char
    else if v < 52 then 'a' + (v - 26) as char
    else if v < 62 then '0' + (v - 52) as char
    else if v == 62 then '-' else '_'
  }

  /** Decoding maps the two URL-safe letters to the standard ones first, so it takes either. */
  function ValueOf(c: char): Option<Sextet> {
    if 'A' <= c <= 'Z' then Some((c - 'A') as int)
    else if 'a' <= c <= 'z' then Some((c - 'a') as int + 26)
    else if '0' <= c <= '9' then Some((c - '0') as int + 52)
    else if c == '-' || c == '+' then Some(62)
    else if c == '_' || c == '/' then Some(63)
    else None
  }

  /** The four letters of three bytes, and back. */
  function Sextet0(x: Byte): Sextet { x / 4 }

  function Sextet1(x: Byte, y: Byte): Sextet { x % 4 * 16 + y / 16 }

  function Sextet2(y: Byte, z: Byte): Sextet { y % 16 * 4 + z / 64 }

  function Sextet3(z: Byte): Sextet { z % 64 }

  function Byte0(a: Sextet, b: Sextet): Byte { a * 4 + b / 16 }

  function Byte1(b: Sextet, c: Sextet): Byte { b % 16 * 16 + c / 4 }

  function Byte2(c: Sextet, d: Sextet): Byte { c % 4 * 64 + d }

  /** `urlsafe_encode64`. */
  function Encode64(bs: seq<Byte>): string {
    if bs == [] then ""
    else if |bs| == 1 then [Letter(Sextet0(bs[0])), Letter(Sextet1(bs[0], 0)), '=', '=']
    else if |bs| == 2 then
      [Letter(Sextet0(bs[0])), Letter(Sextet1(bs[0], bs[1])), Letter(Sextet2(bs[1], 0)), '=']
    else
      [Letter(Sextet0(bs[0])), Letter(Sextet1(bs[0], bs[1])), Letter(Sextet2(bs[1], bs[2])), Letter(Sextet3(bs[2]))]
      + Encode64(bs[3..])
  }

  /** `strict_decode64`: whole groups of four, padding only at the end, no stray bits. */
  function StrictDecode64(s: string): Option<seq<Byte>> {
    if s == "" then Some([])
    else if |s| < 4 then None
    else
      match (ValueOf(s[0]), ValueOf(s[1]), ValueOf(s[2]), ValueOf(s[3]))
      case (Some(a), Some(b), Some(c), Some(d)) =>
        var rest := StrictDecode64(s[4..]);
        if rest.None? then None else Some([Byte0(a, b), Byte1(b, c), Byte2(c, d)] + rest.value)
      case (Some(a), Some(b), Some(c), None) =>
        if |s| == 4 && s[3] == '=' && c % 4 == 0 then Some([Byte0(a, b), Byte1(b, c)]) else None
      case (Some(a), Some(b), None, None) =>
        if |s| == 4 && s[2] == '=' && s[3] == '=' && b % 16 == 0 then Some([Byte0(a, b)]) else None
      case _ => None
  }

  function Padding(n: nat): string { seq(n, _ => '=') }

  /** `urlsafe_decode64`: missing padding is supplied. */
  function Decode64(s: string): Option<seq<Byte>> {
    if |s| % 4 != 0 && s[|s| - 1] != '=' then StrictDecode64(s + Padding(4 - |s| % 4)) else StrictDecode64(s)
  }

  // ----- Tokens -----

  /** The byte of the character `|`. */
  const SEPARATOR: Byte := 124

  datatype Token = Token(domain: seq<Byte>, activityId: seq<Byte>, workflowId: seq<Byte>, runId: seq<Byte>)

  /** What decoding yields; a part is missing where Ruby would leave a nil. */
  datatype Decoded = Decoded(
    domain: Option<seq<Byte>>,
    activityId: Option<seq<Byte>>,
    workflowId: Option<seq<Byte>>,
    runId: Option<seq<Byte>>)

  function Join(parts: seq<seq<Byte>>): seq<Byte> {
    if parts == [] then []
    else if |parts| == 1 then parts[0]
    else parts[0] + [SEPARATOR] + Join(parts[1..])
  }

  /** The stretches between separators. */
  function Fields(s: seq<Byte>): (fs: seq<seq<Byte>>)
    ensures fs != []
  {
    if s == [] then [[]]
    else if s[0] == SEPARATOR then [[]] + Fields(s[1..])
    else
      var rest := Fields(s[1..]);
      [[s[0]] + rest[0]] + rest[1..]
  }

  function DropTrailingEmpty(fs: seq<seq<Byte>>): (r: seq<seq<Byte>>)
    ensures r <= fs
    ensures r != [] ==> r[|r| - 1] != []
    ensures forall i :: |r| <= i < |fs| ==> fs[i] == []
  {
    if fs != [] && fs[|fs| - 1] == [] then DropTrailingEmpty(fs[..|fs| - 1]) else fs
  }

  /** `String#split`: empty fields at the end are dropped. */
  function SplitFields(s: seq<Byte>): seq<seq<Byte>> {
    DropTrailingEmpty(Fields(s))
  }

  /** `AsyncToken.encode`. */
  function Encode(t: Token): string {
    Encode64(Join([t.domain, t.activityId, t.workflowId, t.runId]))
  }

  function Part(fs: seq<seq<Byte>>, i: nat): Option<seq<Byte>> {
    if i < |fs| then Some(fs[i]) else None
  }

  /** `AsyncToken.decode`. */
  function Decode(s: string): Result<Decoded> {
    var bytes := Decode64(s);
    if bytes.None? then Err(ArgumentMismatch)
    else
      var fs := SplitFields(bytes.value);
      Ok(Decoded(Part(fs, 0), Part(fs, 1), Part(fs, 2), Part(fs, 3)))
  }

  // ----- Round trips -----

  lemma LetterValue(v: Sextet)
    ensures ValueOf(Letter(v)) == Some(v)
  {
  }

  lemma ValueLetter(c: char)
    requires ValueOf(c).Some?
    ensures Letter(ValueOf(c).value) == UrlSafeLetter(c)
  {
  }

  lemma BytesOfSextets(x: Byte, y: Byte, z: Byte)
    ensures Byte0(Sextet0(x), Sextet1(x, y)) == x
    ensures Byte1(Sextet1(x, y), Sextet2(y, z)) == y
    ensures Byte2(Sextet2(y, z), Sextet3(z)) == z
    ensures Sextet1(x, 0) % 16 == 0 && Sextet2(y, 0) % 4 == 0
  {
  }

  lemma SextetsOfBytes(a: Sextet, b: Sextet, c: Sextet, d: Sextet)
    ensures Sextet0(Byte0(a, b)) == a
    ensures Sextet1(Byte0(a, b), Byte1(b, c)) == b
    ensures Sextet2(Byte1(b, c), Byte2(c, d)) == c
    ensures Sextet3(Byte2(c, d)) == d
    ensures b % 16 == 0 ==> Sextet1(Byte0(a, b), 0) == b
    ensures c % 4 == 0 ==> Sextet2(Byte1(b, c), 0) == c
  {
  }

  lemma {:induction false} EncodedLength(bs: seq<Byte>)
    ensures |Encode64(bs)| % 4 == 0
  {
    hide Letter, Sextet0, Sextet1, Sextet2, Sextet3;
    if |bs| > 2 {
      EncodedLength(bs[3..]);
    }
  }

  /** One group of four letters in front of a text that decodes. */
  lemma GroupDecodes(s: string, a: Sextet, b: Sextet, c: Sextet, d: Sextet, rest: seq<Byte>)
    requires |s| >= 4 && StrictDecode64(s[4..]) == Some(rest)
    requires s[0] == Letter(a) && s[1] == Letter(b) && s[2] == Letter(c) && s[3] == Letter(d)
    ensures StrictDecode64(s) == Some([Byte0(a, b), Byte1(b, c), Byte2(c, d)] + rest)
  {
    hide Letter, ValueOf, Byte0, Byte1, Byte2;
    LetterValue(a);
    LetterValue(b);
    LetterValue(c);
    LetterValue(d);
  }

  lemma PaddedDecodes(a: Sextet, b: Sextet, c: Sextet)
    ensures b % 16 == 0 ==> StrictDecode64([Letter(a), Letter(b), '=', '=']) == Some([Byte0(a, b)])
    ensures c % 4 == 0 ==>
      StrictDecode64([Letter(a), Letter(b), Letter(c), '=']) == Some([Byte0(a, b), Byte1(b, c)])
  {
    assert ValueOf('=') == None;
    hide Letter, ValueOf, Byte0, Byte1, Byte2;
    LetterValue(a);
    LetterValue(b);
    LetterValue(c);
  }

  lemma {:induction false} StrictRoundTrip(bs: seq<Byte>)
    ensures StrictDecode64(Encode64(bs)) == Some(bs)
  {
    hide Letter, ValueOf, Sextet0, Sextet1, Sextet2, Sextet3, Byte0, Byte1, Byte2;
    if |bs| > 2 {
      var x, y, z := bs[0], bs[1], bs[2];
      StrictRoundTrip(bs[3..]);
      BytesOfSextets(x, y, z);
      assert Encode64(bs)[4..] == Encode64(bs[3..]);
      hide StrictDecode64;
      GroupDecodes(Encode64(bs), Sextet0(x), Sextet1(x, y), Sextet2(y, z), Sextet3(z), bs[3..]);
      assert bs == [x, y, z] + bs[3..];
    } else if |bs| == 2 {
      BytesOfSextets(bs[0], bs[1], 0);
      hide StrictDecode64;
      PaddedDecodes(Sextet0(bs[0]), Sextet1(bs[0], bs[1]), Sextet2(bs[1], 0));
      assert bs == [bs[0], bs[1]];
    } else if |bs| == 1 {
      BytesOfSextets(bs[0], 0, 0);
      hide StrictDecode64;
      PaddedDecodes(Sextet0(bs[0]), Sextet1(bs[0], 0), 0);
      assert bs == [bs[0]];
    }
  }

  /** Base64 loses nothing. */
  lemma Base64RoundTrip(bs: seq<Byte>)
    ensures Decode64(Encode64(bs)) == Some(bs)
  {
    EncodedLength(bs);
    StrictRoundTrip(bs);
  }

  function UrlSafeLetter(c: char): char {
    if c == '+' then '-' else if c == '/' then '_' else c
  }

  function UrlSafe(s: string): (r: string)
    ensures |r| == |s| && forall i :: 0 <= i < |s| ==> r[i] == UrlSafeLetter(s[i])
  {
    seq(|s|, i requires 0 <= i < |s| => UrlSafeLetter(s[i]))
  }

  lemma EncodeGroup(x: Byte, y: Byte, z: Byte, rest: seq<Byte>)
    ensures
      Encode64([x, y, z] + rest)
      == [Letter(Sextet0(x)), Letter(Sextet1(x, y)), Letter(Sextet2(y, z)), Letter(Sextet3(z))] + Encode64(rest)
  {
    hide Letter, Sextet0, Sextet1, Sextet2, Sextet3;
    assert ([x, y, z] + rest)[3..] == rest;
  }

  lemma DecodeGroup(s: string)
    requires |s| >= 4 && StrictDecode64(s).Some? && ValueOf(s[3]).Some?
    ensures ValueOf(s[0]).Some? && ValueOf(s[1]).Some? && ValueOf(s[2]).Some? && StrictDecode64(s[4..]).Some?
    ensures
      var a, b, c, d := ValueOf(s[0]).value, ValueOf(s[1]).value, ValueOf(s[2]).value, ValueOf(s[3]).value;
      StrictDecode64(s).value == [Byte0(a, b), Byte1(b, c), Byte2(c, d)] + StrictDecode64(s[4..]).value
  {
    hide ValueOf, Byte0, Byte1, Byte2;
  }

  lemma UrlSafeSplit(s: string)
    requires |s| >= 4
    ensures UrlSafe(s) == UrlSafe(s[..4]) + UrlSafe(s[4..])
    ensures UrlSafe(s[..4]) == [UrlSafeLetter(s[0]), UrlSafeLetter(s[1]), UrlSafeLetter(s[2]), UrlSafeLetter(s[3])]
  {
    hide UrlSafeLetter;
  }

  lemma WholeGroup(s: string)
    requires |s| >= 4 && StrictDecode64(s).Some? && ValueOf(s[3]).Some?
    ensures StrictDecode64(s[4..]).Some?
    ensures Encode64(StrictDecode64(s).value) == UrlSafe(s[..4]) + Encode64(StrictDecode64(s[4..]).value)
  {
    hide *;
    DecodeGroup(s);
    var a, b, c, d := ValueOf(s[0]).value, ValueOf(s[1]).value, ValueOf(s[2]).value, ValueOf(s[3]).value;
    SextetsOfBytes(a, b, c, d);
    EncodeGroup(Byte0(a, b), Byte1(b, c), Byte2(c, d), StrictDecode64(s[4..]).value);
    ValueLetter(s[0]);
    ValueLetter(s[1]);
    ValueLetter(s[2]);
    ValueLetter(s[3]);
    UrlSafeSplit(s);
  }

  lemma LastGroup(s: string)
    requires |s| >= 4 && StrictDecode64(s).Some? && ValueOf(s[3]).None?
    ensures Encode64(StrictDecode64(s).value) == UrlSafe(s)
  {
    ValueLetter(s[0]);
    ValueLetter(s[1]);
    assert UrlSafeLetter('=') == '=';
    if ValueOf(s[2]).Some? {
      ValueLetter(s[2]);
    }
    hide Letter, ValueOf, UrlSafeLetter, Sextet0, Sextet1, Sextet2, Sextet3, Byte0, Byte1, Byte2;
    var a, b := ValueOf(s[0]).value, ValueOf(s[1]).value;
    SextetsOfBytes(a, b, if ValueOf(s[2]).Some? then ValueOf(s[2]).value else 0, 0);
    assert UrlSafe(s) == [UrlSafeLetter(s[0]), UrlSafeLetter(s[1]), UrlSafeLetter(s[2]), UrlSafeLetter(s[3])];
  }

  lemma {:induction false} StrictDecodeEncodes(s: string)
    requires StrictDecode64(s).Some?
    ensures Encode64(StrictDecode64(s).value) == UrlSafe(s)
  {
    if s == "" {
      assert UrlSafe(s) == "";
    } else {
      LongEnough(s);
      hide *;
      if ValueOf(s[3]).Some? {
        DecodeGroup(s);
        StrictDecodeEncodes(s[4..]);
        calc {
          Encode64(StrictDecode64(s).value);
          { WholeGroup(s); }
          UrlSafe(s[..4]) + Encode64(StrictDecode64(s[4..]).value);
          UrlSafe(s[..4]) + UrlSafe(s[4..]);
          { UrlSafeSplit(s); }
          UrlSafe(s);
        }
      } else {
        LastGroup(s);
      }
    }
  }

  lemma {:induction false} StrictLength(s: string)
    requires StrictDecode64(s).Some?
    ensures |s| % 4 == 0
  {
    hide ValueOf, Byte0, Byte1, Byte2;
    if s != "" && ValueOf(s[3]).Some? {
      StrictLength(s[4..]);
    }
  }

  lemma LongEnough(s: string)
    requires s != "" && StrictDecode64(s).Some?
    ensures |s| >= 4 && (ValueOf(s[3]).None? ==> |s| == 4)
  {
    hide ValueOf, Byte0, Byte1, Byte2;
  }

  /** The partner: a text that decodes, in either alphabet and padded or not, decodes to the bytes whose encoding is
      that text in URL-safe letters with its padding; so only the letters and the padding of a token can vary. */
  lemma DecodeEncodes(s: string)
    requires Decode64(s).Some?
    ensures
      var padded := if |s| % 4 == 0 then s else s + Padding(4 - |s| % 4);
      Encode64(Decode64(s).value) == UrlSafe(padded)
  {
    if |s| % 4 != 0 && s[|s| - 1] == '=' {
      StrictLength(s);
    }
    StrictDecodeEncodes(if |s| % 4 != 0 && s[|s| - 1] != '=' then s + Padding(4 - |s| % 4) else s);
  }

  lemma {:induction false} FieldsOfPart(p: seq<Byte>, s: seq<Byte>)
    requires SEPARATOR !in p
    ensures Fields(p) == [p]
    ensures Fields(p + [SEPARATOR] + s) == [p] + Fields(s)
  {
    if p == [] {
      assert p + [SEPARATOR] + s == [SEPARATOR] + s;
      assert (p + [SEPARATOR] + s)[1..] == s;
    } else {
      FieldsOfPart(p[1..], s);
      assert (p + [SEPARATOR] + s)[1..] == p[1..] + [SEPARATOR] + s;
      assert [p[0]] + p[1..] == p;
    }
  }

  lemma {:induction false} FieldsJoin(parts: seq<seq<Byte>>)
    requires parts != [] && forall i :: 0 <= i < |parts| ==> SEPARATOR !in parts[i]
    ensures Fields(Join(parts)) == parts
  {
    if |parts| == 1 {
      FieldsOfPart(parts[0], []);
    } else {
      FieldsJoin(parts[1..]);
      FieldsOfPart(parts[0], Join(parts[1..]));
    }
  }

  /** Fields never contain the separator. */
  lemma {:induction false} FieldsAreClean(s: seq<Byte>)
    ensures forall i :: 0 <= i < |Fields(s)| ==> SEPARATOR !in Fields(s)[i]
  {
    if s != [] {
      FieldsAreClean(s[1..]);
    }
  }

  predicate NoSeparator(t: Token) {
    SEPARATOR !in t.domain && SEPARATOR !in t.activityId && SEPARATOR !in t.workflowId && SEPARATOR !in t.runId
  }

  /** The token of a workflow activity comes back whole exactly when no part contains the separator and the run id is
      not empty. */
  lemma TokenRoundTrip(t: Token)
    ensures
      Decode(Encode(t)) == Ok(Decoded(Some(t.domain), Some(t.activityId), Some(t.workflowId), Some(t.runId)))
      <==> NoSeparator(t) && t.runId != []
  {
    var parts := [t.domain, t.activityId, t.workflowId, t.runId];
    var s := Join(parts);
    Base64RoundTrip(s);
    FieldsAreClean(s);
    if forall i :: 0 <= i < |parts| ==> SEPARATOR !in parts[i] {
      FieldsJoin(parts);
    }
  }

  // ----- What the text is -----

  /** The URL-safe alphabet, table 2 of RFC 4648. */
  const ALPHABET := "ABCDEFGHIJKLMNOPQRSTUVWXYZ" + ("abcdefghijklmnopqrstuvwxyz" + "0123456789-_")

  lemma LettersOfAlphabet(v: Sextet)
    ensures |ALPHABET| == 64 && Letter(v) == ALPHABET[v]
  {
    if v < 26 {
      assert ALPHABET[v] == "ABCDEFGHIJKLMNOPQRSTUVWXYZ"[v];
    } else if v < 52 {
      assert ALPHABET[v] == "abcdefghijklmnopqrstuvwxyz"[v - 26];
    } else {
      assert ALPHABET[v] == "0123456789-_"[v - 52];
    }
  }

  /** Four letters write the same number in base 64 as the three bytes they stand for do in base 256, highest first. */
  lemma GroupsAreNumbers(x: Byte, y: Byte, z: Byte)
    ensures
      ((Sextet0(x) * 64 + Sextet1(x, y)) * 64 + Sextet2(y, z)) * 64 + Sextet3(z) == (x * 256 + y) * 256 + z
    ensures
      Encode64([x, y, z]) == [Letter(Sextet0(x)), Letter(Sextet1(x, y)), Letter(Sextet2(y, z)), Letter(Sextet3(z))]
  {
    var two := Sextet0(x) * 64 + Sextet1(x, y);
    assert two == x * 16 + y / 16;
    assert two * 64 + Sextet2(y, z) == (x * 256 + y) * 4 + z / 64;
    var bs: seq<Byte> := [x, y, z];
    assert bs[3..] == [] && Encode64(bs[3..]) == "";
    assert Encode64(bs)
        == [Letter(Sextet0(x)), Letter(Sextet1(x, y)), Letter(Sextet2(y, z)), Letter(Sextet3(z))] + Encode64(bs[3..]);
  }

  /** What a token says: the four parts in the order domain, activity, workflow, run, a separator between any two. */
  lemma TokenText(t: Token)
    ensures
      Decode64(Encode(t))
      == Some(t.domain + [124] + (t.activityId + [124] + (t.workflowId + [124] + t.runId)))
  {
    var (d, a, w, r) := (t.domain, t.activityId, t.workflowId, t.runId);
    assert Join([w, r]) == w + [SEPARATOR] + r;
    assert [a, w, r][1..] == [w, r] && Join([a, w, r]) == a + [SEPARATOR] + Join([w, r]);
    assert [d, a, w, r][1..] == [a, w, r] && Join([d, a, w, r]) == d + [SEPARATOR] + Join([a, w, r]);
    Base64RoundTrip(Join([d, a, w, r]));
  }
}
