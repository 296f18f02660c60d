/** The parts of Go's `strings` package that the harness relies on, written out over `seq<char>`. */
module Text {

  /** `unicode.IsSpace`: the characters with the Unicode White_Space property. */
  predicate IsSpace(c: char) {
    c == ' ' || c == '\t' || c == '\n' || c == '\U{000B}' || c == '\U{000C}' || c == '\r'
    || c == '\U{0085}' || c == '\U{00A0}' || c == '\U{1680}'
    || ('\U{2000}' <= c <= '\U{200A}')
    || c == '\U{2028}' || c == '\U{2029}' || c == '\U{202F}' || c == '\U{205F}' || c == '\U{3000}'
  }

  predicate NoSpace(s: string) {
    forall i :: 0 <= i < |s| ==> !IsSpace(s[i])
  }

  /** Length of the run of non-space characters at the start of `s`. */
  function WordLength(s: string): (n: nat)
    ensures n <= |s|
    ensures NoSpace(s[..n])
    ensures n < |s| ==> IsSpace(s[n])
  {
    if |s| == 0 || IsSpace(s[0]) then 0
    else
      var n := WordLength(s[1..]);
      assert s[..n + 1] == [s[0]] + s[1..][..n];
      n + 1
  }

  /** `strings.Fields`: the maximal runs of non-space characters, in order. */
  function Fields(s: string): (fs: seq<string>)
    ensures forall i :: 0 <= i < |fs| ==> |fs[i]| > 0 && NoSpace(fs[i])
    decreases |s|
  {
    if |s| == 0 then []
    else if IsSpace(s[0]) then Fields(s[1..])
    else
      var n := WordLength(s);
      [s[..n]] + Fields(s[n..])
  }

  /** The fields joined back with single spaces (the way a server writes a capability list). */
  function Unwords(ws: seq<string>): string {
    if |ws| == 0 then ""
    else if |ws| == 1 then ws[0]
    else ws[0] + " " + Unwords(ws[1..])
  }

  lemma {:induction false} FieldsOfWordIsItself(w: string, rest: string)
    requires |w| > 0 && NoSpace(w)
    requires |rest| == 0 || IsSpace(rest[0])
    ensures Fields(w + rest) == [w] + Fields(rest)
  {
    var s := w + rest;
    WordLengthOfWord(w, rest);
    assert s[..|w|] == w;
    assert s[|w|..] == rest;
  }

  lemma {:induction false} WordLengthOfWord(w: string, rest: string)
    requires NoSpace(w)
    requires |rest| == 0 || IsSpace(rest[0])
    ensures WordLength(w + rest) == |w|
    decreases |w|
  {
    if |w| > 0 {
      assert (w + rest)[1..] == w[1..] + rest;
      WordLengthOfWord(w[1..], rest);
    } else {
      assert w + rest == rest;
    }
  }

  /** Splitting a space-joined list of non-empty, space-free words gives the words back. */
  lemma {:induction false} FieldsUnwords(ws: seq<string>)
    requires forall i :: 0 <= i < |ws| ==> |ws[i]| > 0 && NoSpace(ws[i])
    ensures Fields(Unwords(ws)) == ws
  {
    if |ws| == 0 {
    } else if |ws| == 1 {
      FieldsOfWordIsItself(ws[0], "");
      assert ws[0] + "" == ws[0];
    } else {
      var tail := Unwords(ws[1..]);
      assert ws[0] + " " + tail == ws[0] + (" " + tail);
      FieldsOfWordIsItself(ws[0], " " + tail);
      assert (" " + tail)[1..] == tail;
      FieldsUnwords(ws[1..]);
      assert ws == [ws[0]] + ws[1..];
    }
  }

  predicate AllSpace(s: string) {
    forall i :: 0 <= i < |s| ==> IsSpace(s[i])
  }

  /** The words `ws` laid out between the separators `seps`: `seps[0] + ws[0] + seps[1] + ... + ws[n-1] + seps[n]`. */
  function Separated(seps: seq<string>, ws: seq<string>): string
    requires |seps| == |ws| + 1
  {
    if |ws| == 0 then seps[0] else seps[0] + (ws[0] + Separated(seps[1..], ws[1..]))
  }

  /** Leading white space contributes no field. */
  lemma {:induction false} FieldsSkipsSpace(sp: string, rest: string)
    requires AllSpace(sp)
    ensures Fields(sp + rest) == Fields(rest)
    decreases |sp|
  {
    if |sp| > 0 {
      assert (sp + rest)[1..] == sp[1..] + rest;
      FieldsSkipsSpace(sp[1..], rest);
    } else {
      assert sp + rest == rest;
    }
  }

  /** `strings.Fields` gives back the words of any text made of non-empty, space-free words separated by
      runs of white space, with optional white space before the first and after the last. */
  lemma {:induction false} FieldsSeparated(seps: seq<string>, ws: seq<string>)
    requires |seps| == |ws| + 1
    requires forall i :: 0 <= i < |ws| ==> |ws[i]| > 0 && NoSpace(ws[i])
    requires forall i :: 0 <= i < |seps| ==> AllSpace(seps[i])
    requires forall i :: 0 < i < |ws| ==> |seps[i]| > 0
    ensures Fields(Separated(seps, ws)) == ws
    decreases |ws|
  {
    if |ws| == 0 {
      FieldsSkipsSpace(seps[0], "");
      assert seps[0] + "" == seps[0];
    } else {
      var rest := Separated(seps[1..], ws[1..]);
      FieldsSkipsSpace(seps[0], ws[0] + rest);
      if |ws| > 1 {
        assert seps[1..][0] == seps[1] && |seps[1]| > 0;
        assert rest[0] == seps[1][0];
      } else if |rest| > 0 {
        assert rest == seps[1];
        assert AllSpace(seps[1]);
      }
      FieldsOfWordIsItself(ws[0], rest);
      FieldsSeparated(seps[1..], ws[1..]);
      assert ws == [ws[0]] + ws[1..];
    }
  }

  /** `strings.IndexByte` and `bytes.IndexByte`: the first position of `c` in `s`, or -1. */
  function IndexOf<T(==)>(s: seq<T>, c: T): (k: int)
    ensures -1 <= k < |s|
    ensures k == -1 <==> c !in s
    ensures 0 <= k ==> s[k] == c && c !in s[..k]
  {
    if |s| == 0 then -1
    else if s[0] == c then 0
    else
      var k := IndexOf(s[1..], c);
      if k == -1 then -1
      else
        assert s[..k + 1] == [s[0]] + s[1..][..k];
        k + 1
  }

  /** `strings.SplitN(token, "=", 2)` read as (name, value): the name is everything before the first `=`,
      the value everything after it, and the value is empty when there is no `=`. */
  function SplitOnEquals(token: string): (string, string) {
    var k := IndexOf(token, '=');
    if k < 0 then (token, "") else (token[..k], token[k + 1..])
  }

  /** The name holds no `=`; with an `=`, name, `=` and value rebuild the token; without one, the name is
      the whole token and the value is empty. */
  lemma SplitOnEqualsParts(token: string)
    ensures '=' !in SplitOnEquals(token).0
    ensures '=' in token ==> SplitOnEquals(token).0 + "=" + SplitOnEquals(token).1 == token
    ensures '=' !in token ==> SplitOnEquals(token) == (token, "")
  {
    var k := IndexOf(token, '=');
    if k >= 0 {
      assert token == token[..k] + "=" + token[k + 1..];
    }
  }

  predicate IsCrOrLf(c: char) {
    c == '\r' || c == '\n'
  }

  /** `strings.TrimRight(s, "\r\n")`: drops every trailing carriage return and line feed. */
  function TrimCrLf(s: string): (t: string)
    ensures |t| <= |s| && t == s[..|t|]
    ensures |t| == 0 || !IsCrOrLf(t[|t| - 1])
    ensures forall i :: |t| <= i < |s| ==> IsCrOrLf(s[i])
  {
    if |s| > 0 && IsCrOrLf(s[|s| - 1]) then
      var t := TrimCrLf(s[..|s| - 1]);
      assert s[..|s| - 1][..|t|] == s[..|t|];
      t
    else s
  }

  /** `unicode.ToUpper` restricted to the characters whose upper case is a Latin letter `A`-`Z`:
      `a`-`z` and U+017F (LATIN SMALL LETTER LONG S, whose upper case is `S`). Every other character is
      kept, which agrees with Go whenever the result is compared with an ASCII upper-case word. */
  function UpperRune(c: char): char {
    if 'a' <= c <= 'z' then (c as int - 32) as char
    else if c == '\U{017F}' then 'S'
    else c
  }

  /** `strings.ToUpper`, character by character. */
  function ToUpper(s: string): (u: string)
    ensures |u| == |s|
    ensures forall i :: 0 <= i < |s| ==> u[i] == UpperRune(s[i])
  {
    seq(|s|, i requires 0 <= i < |s| => UpperRune(s[i]))
  }

  /** The words a server may send where the client compares `ToUpper(word) == "LS"`. */
  lemma UpperIsLs(p: string)
    ensures ToUpper(p) == "LS" <==>
      |p| == 2 && (p[0] == 'l' || p[0] == 'L') && (p[1] == 's' || p[1] == 'S' || p[1] == '\U{017F}')
  {
    if |p| == 2 && ToUpper(p) == "LS" {
      assert UpperRune(p[0]) == 'L' && UpperRune(p[1]) == 'S';
    }
  }
}
