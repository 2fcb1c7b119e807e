/** Padded base64 as Go's `base64.StdEncoding`: section 4 of RFC 4648. */
module Base64 {
  import opened Wrappers

  /** A 6-bit value, or 64 for the padding character. */
  type code = x: int | 0 <= x <= 64

  const PAD: code := 64

  function CharOf(v: code): char {
    if v < 26 then 'A' + v as char
    else if v < 52 then 'a' + (v - 26) as char
    else if v < 62 then '0' + (v - 52) as char
    else if v == 62 then '+'
    else if v == 63 then '/'
    else '='
  }

  function CodeOf(c: char): Option<code> {
    if 'A' <= c <= 'Z' then Some((c - 'A') as int)
    else if 'a' <= c <= 'z' then Some((c - 'a') as int + 26)
    else if '0' <= c <= '9' then Some((c - '0') as int + 52)
    else if c == '+' then Some(62)
    else if c == '/' then Some(63)
    else if c == '=' then Some(PAD)
    else None
  }

  function Codes(b: Bytes): seq<code> {
    if b == [] then
      []
    else if |b| == 1 then
      [b[0] / 4, b[0] % 4 * 16, PAD, PAD]
    else if |b| == 2 then
      [b[0] / 4, b[0] % 4 * 16 + b[1] / 16, b[1] % 16 * 4, PAD]
    else
      [b[0] / 4, b[0] % 4 * 16 + b[1] / 16, b[1] % 16 * 4 + b[2] / 64, b[2] % 64] + Codes(b[3..])
  }

  function Encode(b: Bytes): string {
    var codes := Codes(b);
    seq(|codes|, i requires 0 <= i < |codes| => CharOf(codes[i]))
  }

  /** Reads characters as codes. The decoder skips line breaks anywhere in its input. */
  function ReadCodes(s: string): Option<seq<code>> {
    if s == [] then
      Some([])
    else if s[0] == '\r' || s[0] == '\n' then
      ReadCodes(s[1..])
    else
      match (CodeOf(s[0]), ReadCodes(s[1..]))
      case (Some(v), Some(rest)) => Some([v] + rest)
      case _ => None
  }

  /** Padding may end only the last group; the bits it leaves over are not checked. */
  function Join(v: seq<code>): Option<Bytes> {
    if v == [] then
      Some([])
    else if |v| < 4 || v[0] == PAD || v[1] == PAD then
      None
    else if v[3] == PAD then
      if |v| != 4 then None
      else if v[2] == PAD then Some([v[0] * 4 + v[1] / 16])
      else Some([v[0] * 4 + v[1] / 16, v[1] % 16 * 16 + v[2] / 4])
    else if v[2] == PAD then
      None
    else
      match Join(v[4..])
      case Some(rest) =>
        var low: int := v[3];
        Some([v[0] * 4 + v[1] / 16, v[1] % 16 * 16 + v[2] / 4, v[2] % 4 * 64 + low] + rest)
      case None => None
  }

  function Decode(s: string): Option<Bytes> {
    match ReadCodes(s)
    case Some(codes) => Join(codes)
    case None => None
  }

  lemma {:induction false} ReadText(v: seq<code>, s: string)
    requires |s| == |v| && forall i :: 0 <= i < |v| ==> s[i] == CharOf(v[i])
    ensures ReadCodes(s) == Some(v)
  {
    if v != [] {
      ReadText(v[1..], s[1..]);
      assert v == [v[0]] + v[1..];
    }
  }

  /** Three bytes survive regrouping into four 6-bit values. */
  lemma Regroup(a: byte, b: byte, c: byte)
    ensures a / 4 * 4 + (a % 4 * 16 + b / 16) / 16 == a
    ensures (a % 4 * 16 + b / 16) % 16 * 16 + (b % 16 * 4 + c / 64) / 4 == b
    ensures (b % 16 * 4 + c / 64) % 4 * 64 + c % 64 == c
  {
    assert (a % 4 * 16 + b / 16) / 16 == a % 4;
    assert (b % 16 * 4 + c / 64) / 4 == b % 16;
  }

  lemma JoinOne(a: byte)
    ensures Join(Codes([a])) == Some([a])
  {
    var v0: int, v1: int := a / 4, a % 4 * 16;
    assert Join([v0, v1, PAD, PAD]) == Some([v0 * 4 + v1 / 16]);
  }

  lemma JoinTwo(a: byte, b: byte)
    ensures Join(Codes([a, b])) == Some([a, b])
  {
    var v0: int, v1: int, v2: int := a / 4, a % 4 * 16 + b / 16, b % 16 * 4;
    Regroup(a, b, 0);
    assert Join([v0, v1, v2, PAD]) == Some([v0 * 4 + v1 / 16, v1 % 16 * 16 + v2 / 4]);
  }

  lemma JoinGroup(v: seq<code>, rest: Bytes)
    requires |v| >= 4 && v[0] != PAD && v[1] != PAD && v[2] != PAD && v[3] != PAD
    requires Join(v[4..]) == Some(rest)
    ensures 0 <= v[2] % 4 * 64 + (v[3] as int) < 256
    ensures Join(v) == Some([v[0] * 4 + v[1] / 16, v[1] % 16 * 16 + v[2] / 4, v[2] % 4 * 64 + (v[3] as int)] + rest)
  {
  }

  lemma JoinThree(a: byte, b: byte, c: byte, rest: Bytes)
    requires Join(Codes(rest)) == Some(rest)
    ensures Join(Codes([a, b, c] + rest)) == Some([a, b, c] + rest)
  {
    var all := [a, b, c] + rest;
    assert all[0] == a && all[1] == b && all[2] == c && all[3..] == rest;
    Regroup(a, b, c);
    var v: seq<code> := [a / 4, a % 4 * 16 + b / 16, b % 16 * 4 + c / 64, c % 64];
    assert Codes(all) == v + Codes(rest);
    assert (v + Codes(rest))[4..] == Codes(rest);
    JoinGroup(v + Codes(rest), rest);
  }

  lemma {:induction false} JoinCodes(b: Bytes)
    ensures Join(Codes(b)) == Some(b)
  {
    if |b| == 1 {
      assert b == [b[0]];
      JoinOne(b[0]);
    } else if |b| == 2 {
      assert b == [b[0], b[1]];
      JoinTwo(b[0], b[1]);
    } else if |b| >= 3 {
      assert b == [b[0], b[1], b[2]] + b[3..];
      JoinCodes(b[3..]);
      JoinThree(b[0], b[1], b[2], b[3..]);
    }
  }

  /** Decoding inverts encoding on every byte string. */
  lemma EncodeDecode(b: Bytes)
    ensures Decode(Encode(b)) == Some(b)
  {
    ReadText(Codes(b), Encode(b));
    JoinCodes(b);
  }

  /** Encoding never loses information. */
  lemma EncodeInjective(a: Bytes, b: Bytes)
    requires Encode(a) == Encode(b)
    ensures a == b
  {
    EncodeDecode(a);
    EncodeDecode(b);
  }
}
