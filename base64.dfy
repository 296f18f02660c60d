/** The standard base64 encoding (RFC 4648 section 4, with `=` padding), as used through
    `base64.StdEncoding.EncodeToString` for nicknames and for the SASL PLAIN payload. */
module Base64 {
  import opened Wrappers

  /** A character of the base64 alphabet (table 1 of RFC 4648): `A`-`Z`, `a`-`z`, `0`-`9`, `+` and `/`. */
  predicate IsDigit(c: char) {
    ('A' <= c <= 'Z') || ('a' <= c <= 'z') || ('0' <= c <= '9') || c == '+' || c == '/'
  }

  predicate InAlphabet(s: string) {
    forall i :: 0 <= i < |s| ==> IsDigit(s[i])
  }

  /** The character for the six-bit value `v`. */
  function Digit(v: int): (c: char)
    requires 0 <= v < 64
    ensures IsDigit(c)
  {
    if v < 26 then ('A' as int + v) as char
    else if v < 52 then ('a' as int + (v - 26)) as char
    else if v < 62 then ('0' as int + (v - 52)) as char
    else if v == 62 then '+'
    else '/'
  }

  /** Distinct values have distinct characters, so the encoding loses nothing. */
  lemma DigitInjective(v: int, w: int)
    requires 0 <= v < 64 && 0 <= w < 64
    ensures Digit(v) == Digit(w) <==> v == w
  {
  }

  /** The four characters for the three bytes `x`, `y`, `z` (six bits each, most significant first). */
  function Quad(x: byte, y: byte, z: byte): (s: string)
    ensures |s| == 4 && InAlphabet(s)
  {
    var q0 := x / 4;
    var q1 := (x % 4) * 16 + y / 16;
    var q2 := (y % 16) * 4 + z / 64;
    var q3 := z % 64;
    assert 0 <= q1 < 64 && 0 <= q2 < 64;
    [Digit(q0), Digit(q1), Digit(q2), Digit(q3)]
  }

  /** Encodes every full group of three bytes into four alphabet characters and pads a final group of
      one or two bytes with `=` to four characters. */
  function Encode(b: seq<byte>): (s: string)
    ensures |s| == 4 * ((|b| + 2) / 3)
    decreases |b|
  {
    if |b| == 0 then ""
    else if |b| == 1 then Quad(b[0], 0, 0)[..2] + "=="
    else if |b| == 2 then Quad(b[0], b[1], 0)[..3] + "="
    else
      var n := |b| - 3;
      assert (n + 3 + 2) / 3 == (n + 2) / 3 + 1;
      Quad(b[0], b[1], b[2]) + Encode(b[3..])
  }

  /** When the input is a whole number of three-byte groups there is no padding: every character of the
      encoding is from the alphabet. */
  lemma {:induction false} EncodeUnpadded(b: seq<byte>)
    requires |b| % 3 == 0
    ensures InAlphabet(Encode(b))
    decreases |b|
  {
    if |b| > 0 {
      assert |b| >= 3;
      EncodeUnpadded(b[3..]);
      assert Encode(b) == Quad(b[0], b[1], b[2]) + Encode(b[3..]);
      InAlphabetConcat(Quad(b[0], b[1], b[2]), Encode(b[3..]));
    }
  }

  lemma InAlphabetConcat(s: string, t: string)
    requires InAlphabet(s) && InAlphabet(t)
    ensures InAlphabet(s + t)
  {
    forall i | 0 <= i < |s + t|
      ensures IsDigit((s + t)[i])
    {
      if i >= |s| {
        assert (s + t)[i] == t[i - |s|];
      }
    }
  }
}
