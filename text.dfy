/** The handful of Python string and integer builtins the core relies on:
    `int(s)`, `str(n)`, `s.split(',')`, `','.join(parts)`, `s.replace(old, new)`
    and `s.lower()`, each stated over `seq<char>`. */
module Text {
  import opened Results

  /** The exception `int(s)` raises on text that is not an integer literal. */
  datatype ValueError = InvalidLiteral(text: string)

  predicate IsDigit(c: char) {
    '0' <= c <= '9'
  }

  predicate AllDigits(s: string) {
    forall i :: 0 <= i < |s| ==> IsDigit(s[i])
  }

  function DigitChar(d: nat): (c: char)
    requires d < 10
    ensures IsDigit(c)
  {
    ('0' as int + d) as char
  }

  function DigitValue(c: char): (d: nat)
    requires IsDigit(c)
    ensures d < 10 && DigitChar(d) == c
  {
    c as int - '0' as int
  }

  /** The decimal numeral of `n`: most significant digit first, no leading zero. */
  function Numeral(n: nat): (s: string)
    ensures |s| > 0 && AllDigits(s)
    ensures (s[0] == '0') == (n == 0)
  {
    if n < 10 then [DigitChar(n)] else Numeral(n / 10) + [DigitChar(n % 10)]
  }

  /** The value of a string of decimal digits (the empty string reads as 0). */
  function NumeralValue(s: string): nat
    requires AllDigits(s)
  {
    if s == [] then 0 else NumeralValue(s[..|s| - 1]) * 10 + DigitValue(s[|s| - 1])
  }

  lemma {:induction false} NumeralRoundTrip(n: nat)
    ensures NumeralValue(Numeral(n)) == n
  {
    if n >= 10 {
      var s := Numeral(n);
      assert s[..|s| - 1] == Numeral(n / 10);
      NumeralRoundTrip(n / 10);
    }
  }

  /** `str(n)` for an integer `n`. */
  function FormatInt(n: int): (s: string)
    ensures |s| > 0
    ensures forall i :: 0 <= i < |s| ==> IsDigit(s[i]) || (i == 0 && s[i] == '-')
  {
    if n < 0 then "-" + Numeral(-n) else Numeral(n)
  }

  predicate IsSign(c: char) {
    c == '-' || c == '+'
  }

  /** The text after a leading sign, if there is one. */
  function Unsigned(s: string): string {
    if |s| > 0 && IsSign(s[0]) then s[1..] else s
  }

  /** An integer literal: an optional sign followed by at least one decimal digit. */
  predicate IsIntLiteral(s: string) {
    |Unsigned(s)| > 0 && AllDigits(Unsigned(s))
  }

  /** `-1` after a minus sign, `1` otherwise. */
  function SignOf(s: string): int {
    if |s| > 0 && s[0] == '-' then -1 else 1
  }

  /** `int(s)`: an optional sign followed by at least one decimal digit; anything
      else raises `ValueError`. */
  function ParseInt(s: string): (r: Result<int, ValueError>)
    ensures r.Ok? <==> IsIntLiteral(s)
    ensures r.Ok? ==> r.value == SignOf(s) * NumeralValue(Unsigned(s))
    ensures r.Err? ==> r.error == InvalidLiteral(s)
  {
    if |s| > 1 && (s[0] == '-' || s[0] == '+') && AllDigits(s[1..]) then
      var magnitude: int := NumeralValue(s[1..]);
      Ok(if s[0] == '-' then -magnitude else magnitude)
    else if |s| > 0 && AllDigits(s) then
      Ok(NumeralValue(s))
    else
      Err(InvalidLiteral(s))
  }

  /** `int(str(n)) == n`. */
  lemma FormatThenParse(n: int)
    ensures ParseInt(FormatInt(n)) == Ok(n)
  {
    var s := FormatInt(n);
    if n < 0 {
      assert s[0] == '-' && s[1..] == Numeral(-n);
      assert Unsigned(s) == Numeral(-n) && SignOf(s) == -1;
      NumeralRoundTrip(-n);
    } else {
      assert !IsSign(s[0]);
      assert Unsigned(s) == Numeral(n) && SignOf(s) == 1;
      NumeralRoundTrip(n);
    }
  }

  /** The number of occurrences of `c` in `s`: `s.count(c)`. */
  function Count(s: string, c: char): nat {
    if s == [] then 0 else (if s[0] == c then 1 else 0) + Count(s[1..], c)
  }

  /** `s.split(sep)`: the maximal separator-free pieces, in order; an empty
      string splits into one empty piece, and each separator starts one more. */
  function Split(s: string, sep: char): (parts: seq<string>)
    ensures |parts| == 1 + Count(s, sep)
    ensures forall i :: 0 <= i < |parts| ==> sep !in parts[i]
  {
    if s == [] then [""]
    else
      var rest := Split(s[1..], sep);
      if s[0] == sep then [""] + rest
      else [[s[0]] + rest[0]] + rest[1..]
  }

  /** `sep.join(parts)`. */
  function Join(parts: seq<string>, sep: char): string
    requires |parts| > 0
  {
    if |parts| == 1 then parts[0] else parts[0] + [sep] + Join(parts[1..], sep)
  }

  /** Joining the pieces of a split gives back the original text. */
  lemma {:induction false} JoinSplit(s: string, sep: char)
    ensures Join(Split(s, sep), sep) == s
  {
    if s != [] {
      var rest := Split(s[1..], sep);
      JoinSplit(s[1..], sep);
      if s[0] != sep && |rest| > 1 {
        assert Join(rest, sep) == rest[0] + [sep] + Join(rest[1..], sep);
      }
    }
  }

  /** Splitting text that starts with a separator-free prefix `a`. */
  lemma {:induction false} SplitAfterPiece(a: string, b: string, sep: char)
    requires sep !in a
    ensures Split(a + b, sep) == [a + Split(b, sep)[0]] + Split(b, sep)[1..]
  {
    if a != [] {
      assert (a + b)[0] == a[0] && a[0] != sep;
      assert (a + b)[1..] == a[1..] + b;
      var rest := Split(a[1..] + b, sep);
      assert Split(a + b, sep) == [[a[0]] + rest[0]] + rest[1..];
      SplitAfterPiece(a[1..], b, sep);
      assert rest[0] == a[1..] + Split(b, sep)[0] && rest[1..] == Split(b, sep)[1..];
      assert [a[0]] + (a[1..] + Split(b, sep)[0]) == a + Split(b, sep)[0];
    } else {
      assert a + b == b && a + Split(b, sep)[0] == Split(b, sep)[0];
      assert [Split(b, sep)[0]] + Split(b, sep)[1..] == Split(b, sep);
    }
  }

  /** Splitting a join of separator-free pieces gives back the pieces. */
  lemma {:induction false} SplitJoin(parts: seq<string>, sep: char)
    requires |parts| > 0
    requires forall i :: 0 <= i < |parts| ==> sep !in parts[i]
    ensures Split(Join(parts, sep), sep) == parts
  {
    if |parts| == 1 {
      SplitAfterPiece(parts[0], "", sep);
      assert parts[0] + "" == parts[0];
    } else {
      var tail := Join(parts[1..], sep);
      SplitJoin(parts[1..], sep);
      assert parts[0] + [sep] + tail == parts[0] + ([sep] + tail);
      SplitAfterPiece(parts[0], [sep] + tail, sep);
      assert ([sep] + tail)[0] == sep && ([sep] + tail)[1..] == tail;
      assert Split([sep] + tail, sep) == [""] + parts[1..];
      assert parts[0] + "" == parts[0];
      assert [parts[0]] + parts[1..] == parts;
    }
  }

  /** `s.replace(pat, rep)` for a non-empty `pat`: every leftmost, non-overlapping
      occurrence of `pat` is replaced by `rep`, scanning left to right. */
  function ReplaceAll(s: string, pat: string, rep: string): string
    requires |pat| > 0
    decreases |s|
  {
    if s == [] then []
    else if pat <= s then rep + ReplaceAll(s[|pat|..], pat, rep)
    else [s[0]] + ReplaceAll(s[1..], pat, rep)
  }

  /** `pat in s` for Python strings. */
  predicate Occurs(pat: string, s: string) {
    exists i :: 0 <= i <= |s| && pat <= s[i..]
  }

  /** Text in which `pat` never occurs is returned unchanged. */
  lemma {:induction false} ReplaceAbsent(s: string, pat: string, rep: string)
    requires |pat| > 0 && !Occurs(pat, s)
    ensures ReplaceAll(s, pat, rep) == s
  {
    if s != [] {
      assert s[0..] == s;
      forall i | 0 <= i <= |s[1..]| ensures !(pat <= s[1..][i..]) {
        assert s[1..][i..] == s[i + 1..];
      }
      ReplaceAbsent(s[1..], pat, rep);
    }
  }

  /** A prefix that cannot start an occurrence of `pat` (it lacks `pat`'s first
      character) is copied through unchanged. */
  lemma {:induction false} ReplaceSkipsPrefix(a: string, b: string, pat: string, rep: string)
    requires |pat| > 0 && pat[0] !in a
    ensures ReplaceAll(a + b, pat, rep) == a + ReplaceAll(b, pat, rep)
  {
    if a != [] {
      assert (a + b)[0] == a[0] != pat[0];
      assert !(pat <= a + b);
      assert (a + b)[1..] == a[1..] + b;
      assert ReplaceAll(a + b, pat, rep) == [a[0]] + ReplaceAll(a[1..] + b, pat, rep);
      ReplaceSkipsPrefix(a[1..], b, pat, rep);
      assert [a[0]] + (a[1..] + ReplaceAll(b, pat, rep)) == a + ReplaceAll(b, pat, rep);
    } else {
      assert a + b == b;
    }
  }

  /** A prefix that starts like `pat` but parts from it at the second
      character, and holds `pat`'s first character nowhere else, is copied
      through unchanged. */
  lemma ReplaceSkipsNearMiss(a: string, b: string, pat: string, rep: string)
    requires |a| > 1 && |pat| > 1 && a[0] == pat[0] && a[1] != pat[1] && pat[0] !in a[1..]
    ensures ReplaceAll(a + b, pat, rep) == a + ReplaceAll(b, pat, rep)
  {
    assert (a + b)[1] == a[1];
    assert !(pat <= a + b);
    assert (a + b)[1..] == a[1..] + b;
    ReplaceSkipsPrefix(a[1..], b, pat, rep);
    assert [a[0]] + (a[1..] + ReplaceAll(b, pat, rep)) == a + ReplaceAll(b, pat, rep);
  }

  /** An occurrence at the very front is replaced, and scanning resumes after it. */
  lemma ReplaceAtFront(b: string, pat: string, rep: string)
    requires |pat| > 0
    ensures ReplaceAll(pat + b, pat, rep) == rep + ReplaceAll(b, pat, rep)
  {
    assert (pat + b)[|pat|..] == b;
  }

  /** Replacing one character by one character maps the text position by position. */
  lemma {:induction false} ReplaceCharPointwise(s: string, from: char, to: char)
    ensures |ReplaceAll(s, [from], [to])| == |s|
    ensures forall i :: 0 <= i < |s| ==>
      ReplaceAll(s, [from], [to])[i] == (if s[i] == from then to else s[i])
  {
    if s != [] {
      ReplaceCharPointwise(s[1..], from, to);
      assert [from] <= s <==> s[0] == from;
    }
  }

  /** `c.lower()` for an ASCII letter; every other character is left alone. */
  function LowerChar(c: char): char {
    if 'A' <= c <= 'Z' then (c as int + 32) as char else c
  }

  predicate IsUpper(c: char) {
    'A' <= c <= 'Z'
  }

  /** `s.lower()`: no upper-case letter is left, each one becomes the letter 32
      code points above it, and every other character is kept in place. */
  function Lower(s: string): (r: string)
    ensures |r| == |s|
    ensures forall i :: 0 <= i < |r| ==> !IsUpper(r[i])
    ensures forall i :: 0 <= i < |s| && !IsUpper(s[i]) ==> r[i] == s[i]
    ensures forall i :: 0 <= i < |s| && IsUpper(s[i]) ==> r[i] as int == s[i] as int + 32
  {
    seq(|s|, i requires 0 <= i < |s| => LowerChar(s[i]))
  }

  /** Lower-casing twice is lower-casing once. */
  lemma LowerIdempotent(s: string)
    ensures Lower(Lower(s)) == Lower(s)
  {
    var r := Lower(s);
    assert forall i :: 0 <= i < |r| ==> Lower(r)[i] == r[i];
  }
}
