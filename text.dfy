/** The Python string operations the adapters and the drop detector rely
    on: `startswith`, `lower`, `strip`, `split(sep)`, `split()`,
    `find`, `replace`, `str(int)`, `int(str)` and `float(str)`.  Only
    ASCII case and ASCII whitespace are modelled. */
module Text {
  import opened Common

  predicate StartsWith(s: string, prefix: string)
  {
    |prefix| <= |s| && s[..|prefix|] == prefix
  }

  // ---------------------------------------------------------------------
  // Case

  function LowerChar(c: char): (r: char)
    ensures 'A' <= c <= 'Z' ==> r as int == c as int + 32
    ensures !('A' <= c <= 'Z') ==> r == c
  {
    if 'A' <= c <= 'Z' then (c as int + 32) as char else c
  }

  /** `str.lower()` restricted to ASCII letters. */
  function Lower(s: string): (r: string)
    ensures |r| == |s|
    ensures forall i :: 0 <= i < |s| ==> r[i] == LowerChar(s[i])
    ensures forall i :: 0 <= i < |r| ==> !('A' <= r[i] <= 'Z')
  {
    seq(|s|, i requires 0 <= i < |s| => LowerChar(s[i]))
  }

  /** Case-insensitive equality as the adapters write it: `a.lower() == b.lower()`. */
  predicate EqualsIgnoreCase(a: string, b: string)
  {
    Lower(a) == Lower(b)
  }

  lemma LowerIdempotent(s: string)
    ensures Lower(Lower(s)) == Lower(s)
  {
  }

  // ---------------------------------------------------------------------
  // Whitespace

  /** The ASCII characters `str.strip()` and `str.split()` treat as
      whitespace: space, tab, the line breaks 10 to 13 and the separators
      28 to 31. */
  predicate IsSpace(c: char)
  {
    c == ' ' || c == '\t' || c == '\n' || c == '\r' || c as int == 11 || c as int == 12
    || 28 <= c as int <= 31
  }

  function StripLeft(s: string): (r: string)
    ensures |r| <= |s| && r == s[|s| - |r|..]
    ensures forall i :: 0 <= i < |s| - |r| ==> IsSpace(s[i])
    ensures r == [] || !IsSpace(r[0])
  {
    if s != [] && IsSpace(s[0]) then StripLeft(s[1..]) else s
  }

  function StripRight(s: string): (r: string)
    ensures |r| <= |s| && r == s[..|r|]
    ensures forall i :: |r| <= i < |s| ==> IsSpace(s[i])
    ensures r == [] || !IsSpace(r[|r| - 1])
  {
    if s != [] && IsSpace(s[|s| - 1]) then StripRight(s[..|s| - 1]) else s
  }

  /** `str.strip()`: the input without its leading and trailing whitespace. */
  function Strip(s: string): (r: string)
    ensures |r| <= |s|
    ensures r == [] || (!IsSpace(r[0]) && !IsSpace(r[|r| - 1]))
  {
    StripRight(StripLeft(s))
  }

  lemma StripOfTrimmed(s: string)
    requires s == [] || (!IsSpace(s[0]) && !IsSpace(s[|s| - 1]))
    ensures Strip(s) == s
  {
  }

  lemma StripIdempotent(s: string)
    ensures Strip(Strip(s)) == Strip(s)
  {
    StripOfTrimmed(Strip(s));
  }

  // ---------------------------------------------------------------------
  // Searching and replacing

  predicate OccursAt(s: string, pat: string, j: nat)
  {
    j + |pat| <= |s| && s[j..j + |pat|] == pat
  }

  lemma OccursAtTail(s: string, pat: string, j: nat)
    requires s != []
    ensures OccursAt(s, pat, j + 1) <==> OccursAt(s[1..], pat, j)
  {
    if j + 1 + |pat| <= |s| {
      assert s[j + 1..j + 1 + |pat|] == s[1..][j..j + |pat|];
    }
  }

  /** `s.find(pat)` with -1 turned into None: the first index at which
      `pat` occurs. */
  function Find(s: string, pat: string): (r: Option<nat>)
    requires pat != []
    ensures r.Some? ==> OccursAt(s, pat, r.value)
    ensures r.Some? ==> forall j: nat :: j < r.value ==> !OccursAt(s, pat, j)
    ensures r.None? ==> forall j: nat :: !OccursAt(s, pat, j)
    decreases |s|
  {
    if |s| < |pat| then None
    else if s[..|pat|] == pat then Some(0)
    else
      var tail := s[1..];
      assert !OccursAt(s, pat, 0) by { assert s[0..|pat|] == s[..|pat|]; }
      match Find(tail, pat)
      case None =>
        assert forall j: nat :: !OccursAt(s, pat, j) by {
          forall j: nat ensures !OccursAt(s, pat, j) {
            if j > 0 { OccursAtTail(s, pat, j - 1); }
          }
        }
        None
      case Some(k) =>
        OccursAtTail(s, pat, k);
        assert forall j: nat :: j < k + 1 ==> !OccursAt(s, pat, j) by {
          forall j: nat | j < k + 1 ensures !OccursAt(s, pat, j) {
            if j > 0 { OccursAtTail(s, pat, j - 1); }
          }
        }
        Some(k + 1)
  }

  /** `s.replace(old, new)` for single characters. */
  function ReplaceChar(s: string, from: char, to: char): (r: string)
    ensures |r| == |s|
    ensures forall i :: 0 <= i < |s| ==> r[i] == (if s[i] == from then to else s[i])
    ensures from != to ==> forall i :: 0 <= i < |r| ==> r[i] != from
  {
    seq(|s|, i requires 0 <= i < |s| => if s[i] == from then to else s[i])
  }

  // ---------------------------------------------------------------------
  // Splitting

  /** `s.split(sep)` for a one-character separator: the pieces between the
      separators, so there is always one more piece than separators. */
  function Split(s: string, sep: char): (parts: seq<string>)
    ensures |parts| >= 1
    ensures forall i :: 0 <= i < |parts| ==> sep !in parts[i]
  {
    if s == [] then [""]
    else
      var rest := Split(s[1..], sep);
      if s[0] == sep then [""] + rest
      else [[s[0]] + rest[0]] + rest[1..]
  }

  /** `sep.join(parts)`. */
  function Join(parts: seq<string>, sep: char): string
  {
    if |parts| <= 1 then (if parts == [] then "" else parts[0])
    else parts[0] + [sep] + Join(parts[1..], sep)
  }

  function Occurrences(s: string, c: char): nat
  {
    if s == [] then 0 else (if s[0] == c then 1 else 0) + Occurrences(s[1..], c)
  }

  /** Splitting and joining with the same separator are inverse. */
  lemma {:induction false} JoinSplit(s: string, sep: char)
    ensures Join(Split(s, sep), sep) == s
    ensures |Split(s, sep)| == Occurrences(s, sep) + 1
  {
    if s != [] {
      JoinSplit(s[1..], sep);
      var rest := Split(s[1..], sep);
      if s[0] == sep {
        assert Split(s, sep) == [""] + rest;
        assert ([""] + rest)[1..] == rest;
      } else {
        var parts := [[s[0]] + rest[0]] + rest[1..];
        assert Split(s, sep) == parts;
        if |rest| == 1 {
          assert Join(rest, sep) == rest[0];
        } else {
          assert parts[1..] == rest[1..];
          assert Join(rest, sep) == rest[0] + [sep] + Join(rest[1..], sep);
        }
      }
    }
  }

  /** A piece free of the separator, followed by the separator, is split
      off as the first piece. */
  lemma {:induction false} SplitAfterPiece(a: string, rest: string, sep: char)
    requires sep !in a
    ensures Split(a + [sep] + rest, sep) == [a] + Split(rest, sep)
  {
    if a != [] {
      assert (a + [sep] + rest)[1..] == a[1..] + [sep] + rest;
      SplitAfterPiece(a[1..], rest, sep);
      assert [a[0]] + a[1..] == a;
    } else {
      assert (a + [sep] + rest)[1..] == rest;
    }
  }

  /** A text without the separator is a single piece. */
  lemma {:induction false} SplitWithoutSeparator(a: string, sep: char)
    requires sep !in a
    ensures Split(a, sep) == [a]
  {
    if a != [] {
      SplitWithoutSeparator(a[1..], sep);
      assert [a[0]] + a[1..] == a;
    }
  }

  lemma SplitTwo(a: string, b: string, sep: char)
    requires sep !in a && sep !in b
    ensures Split(a + [sep] + b, sep) == [a, b]
  {
    SplitAfterPiece(a, b, sep);
    SplitWithoutSeparator(b, sep);
  }

  lemma SplitThree(a: string, b: string, c: string, sep: char)
    requires sep !in a && sep !in b && sep !in c
    ensures Split(a + [sep] + b + [sep] + c, sep) == [a, b, c]
  {
    assert a + [sep] + b + [sep] + c == a + [sep] + (b + [sep] + c);
    SplitAfterPiece(a, b + [sep] + c, sep);
    SplitTwo(b, c, sep);
  }

  /** `str(n)` holds only a minus sign and digits. */
  lemma IntToStringChars(n: int, c: char)
    requires c != '-' && !IsDigit(c)
    ensures c !in IntToString(n)
  {
    var s := IntToString(n);
    if n < 0 {
      assert s == "-" + NatToString(-n);
      assert forall i :: 1 <= i < |s| ==> s[i] == NatToString(-n)[i - 1];
    }
  }

  /** The longest prefix of `s` that holds no whitespace. */
  function TakeWord(s: string): (w: string)
    ensures |w| <= |s| && w == s[..|w|]
    ensures forall i :: 0 <= i < |w| ==> !IsSpace(w[i])
    ensures |w| < |s| ==> IsSpace(s[|w|])
  {
    if s == [] || IsSpace(s[0]) then [] else [s[0]] + TakeWord(s[1..])
  }

  predicate IsWord(w: string)
  {
    w != [] && forall i :: 0 <= i < |w| ==> !IsSpace(w[i])
  }

  /** `s.split()`: the maximal runs of non-whitespace, in order. */
  function Words(s: string): (ws: seq<string>)
    ensures forall i :: 0 <= i < |ws| ==> IsWord(ws[i])
    decreases |s|
  {
    if s == [] then []
    else if IsSpace(s[0]) then Words(s[1..])
    else
      var w := TakeWord(s);
      [w] + Words(s[|w|..])
  }

  /** Words joined by single spaces.  Used to state that `split()` takes
      such a text apart into exactly those words. */
  function Unwords(ws: seq<string>): string
  {
    Join(ws, ' ')
  }

  lemma {:induction false} TakeWordOfWord(w: string, rest: string)
    requires IsWord(w)
    requires rest == [] || IsSpace(rest[0])
    ensures TakeWord(w + rest) == w
    decreases |w|
  {
    if |w| > 1 {
      assert (w + rest)[1..] == w[1..] + rest;
      TakeWordOfWord(w[1..], rest);
    } else {
      assert (w + rest)[1..] == rest;
    }
  }

  lemma {:induction false} WordsSpaceThen(s: string)
    requires s != [] && IsSpace(s[0])
    ensures Words(s) == Words(s[1..])
  {
  }

  /** `split()` applied to words joined by single spaces gives back the words. */
  lemma {:induction false} WordsUnwords(ws: seq<string>)
    requires forall i :: 0 <= i < |ws| ==> IsWord(ws[i])
    ensures Words(Unwords(ws)) == ws
  {
    if ws == [] {
    } else if |ws| == 1 {
      var w := ws[0];
      TakeWordOfWord(w, []);
      assert w + [] == w;
      assert w[|w|..] == [];
    } else {
      var w := ws[0];
      var tail := [' '] + Unwords(ws[1..]);
      var s := Unwords(ws);
      assert s == w + tail;
      TakeWordOfWord(w, tail);
      assert s[|w|..] == tail;
      WordsSpaceThen(tail);
      assert tail[1..] == Unwords(ws[1..]);
      WordsUnwords(ws[1..]);
      assert Words(s) == [w] + Words(s[|w|..]);
    }
  }

  // ---------------------------------------------------------------------
  // Numbers

  predicate IsDigit(c: char)
  {
    '0' <= c <= '9'
  }

  predicate AllDigits(s: string)
  {
    forall i :: 0 <= i < |s| ==> IsDigit(s[i])
  }

  function DigitChar(d: nat): (c: char)
    requires d < 10
    ensures IsDigit(c)
  {
    ('0' as int + d) as char
  }

  /** The value of a string of decimal digits, most significant first. */
  function DigitsValue(s: string): nat
    requires AllDigits(s)
  {
    if s == [] then 0 else DigitsValue(s[..|s| - 1]) * 10 + (s[|s| - 1] as int - '0' as int)
  }

  function Pow10(k: nat): (r: nat)
    ensures r >= 1
  {
    if k == 0 then 1 else 10 * Pow10(k - 1)
  }

  /** `str(n)` for a natural number: decimal digits, no leading zero. */
  function NatToString(n: nat): (s: string)
    ensures s != [] && AllDigits(s)
    ensures DigitsValue(s) == n
    ensures |s| > 1 ==> s[0] != '0'
  {
    if n < 10 then [DigitChar(n)]
    else
      var init := NatToString(n / 10);
      var s := init + [DigitChar(n % 10)];
      assert s[..|s| - 1] == init;
      s
  }

  /** `str(n)` for an integer. */
  function IntToString(n: int): (s: string)
    ensures s != []
    ensures n < 0 <==> s[0] == '-'
    ensures n >= 0 ==> IsDigit(s[0])
    ensures n < 0 ==> |s| >= 2 && IsDigit(s[1])
  {
    if n < 0 then "-" + NatToString(-n) else NatToString(n)
  }

  /** The value of a signed number: negated after a minus sign. */
  function Signed(sign: char, v: int): int
  {
    if sign == '-' then -v else v
  }

  /** Python's `int(s)`: surrounding whitespace, an optional sign and at
      least one decimal digit. */
  function ParseInt(s: string): Option<int>
  {
    var t := Strip(s);
    if t != [] && (t[0] == '+' || t[0] == '-') then
      (if t[1..] != [] && AllDigits(t[1..]) then Some(Signed(t[0], DigitsValue(t[1..]))) else None)
    else if t != [] && AllDigits(t) then Some(DigitsValue(t))
    else None
  }

  /** Digits with at most one decimal point and at least one digit. */
  function ParseUnsignedDecimal(t: string): Option<real>
  {
    match Find(t, ".")
    case Some(k) =>
      var ip, fp := t[..k], t[k + 1..];
      if AllDigits(ip) && AllDigits(fp) && |ip| + |fp| > 0
      then Some(DigitsValue(ip) as real + DigitsValue(fp) as real / Pow10(|fp|) as real)
      else None
    case None =>
      if t != [] && AllDigits(t) then Some(DigitsValue(t) as real) else None
  }

  /** Python's `float(s)` on plain decimal notation: surrounding
      whitespace, an optional sign, digits and at most one decimal point. */
  function ParseDecimal(s: string): Option<real>
  {
    var t := Strip(s);
    if t != [] && (t[0] == '+' || t[0] == '-') then
      match ParseUnsignedDecimal(t[1..])
      case Some(v) => Some(if t[0] == '-' then -v else v)
      case None => None
    else ParseUnsignedDecimal(t)
  }

  lemma NoPointInDigits(s: string)
    requires AllDigits(s)
    ensures Find(s, ".") == None
  {
    forall k: nat
      ensures !OccursAt(s, ".", k)
    {
      if k + 1 <= |s| {
        assert s[k..k + 1][0] == s[k];
      }
    }
  }

  lemma ParseUnsignedOfNat(n: nat)
    ensures ParseUnsignedDecimal(NatToString(n)) == Some(n as real)
  {
    NoPointInDigits(NatToString(n));
  }

  /** `int(str(n)) == n`. */
  lemma ParseIntOfString(n: int)
    ensures ParseInt(IntToString(n)) == Some(n)
  {
    var s := IntToString(n);
    StripOfTrimmed(s);
    if n < 0 {
      assert s[1..] == NatToString(-n);
    }
  }

  lemma ParseDecimalOfNegative(n: int)
    requires n < 0
    ensures ParseDecimal(IntToString(n)) == Some(n as real)
  {
    NegativeString(n);
    ParseUnsignedOfNat(-n);
    ParseDecimalOfMinus(IntToString(n), (-n) as real);
  }

  lemma NegativeString(n: int)
    requires n < 0
    ensures Strip(IntToString(n)) == IntToString(n)
    ensures IntToString(n)[0] == '-' && IntToString(n)[1..] == NatToString(-n)
  {
    var s := IntToString(n);
    StripOfTrimmed(s);
    assert s[1..] == NatToString(-n);
  }

  lemma ParseDecimalOfMinus(s: string, v: real)
    requires Strip(s) == s && s != [] && s[0] == '-' && ParseUnsignedDecimal(s[1..]) == Some(v)
    ensures ParseDecimal(s) == Some(-v)
  {
  }

  lemma ParseDecimalOfPlus(s: string, v: real)
    requires Strip(s) == s && s != [] && s[0] == '+' && ParseUnsignedDecimal(s[1..]) == Some(v)
    ensures ParseDecimal(s) == Some(v)
  {
  }

  /** The first point of digits, a point and a tail is right after the digits. */
  lemma FirstPoint(ip: string, fp: string)
    requires AllDigits(ip)
    ensures Find(ip + "." + fp, ".") == Some(|ip|)
  {
    var t := ip + "." + fp;
    NoPointInDigits(ip);
    assert OccursAt(t, ".", |ip|) by {
      assert t[|ip|..|ip| + 1] == ".";
    }
    forall j: nat | j < |ip|
      ensures !OccursAt(t, ".", j)
    {
      assert t[j..j + 1] == ip[j..j + 1];
      assert !OccursAt(ip, ".", j);
    }
  }

  /** `float(str(n)) == n` for an integer n. */
  lemma ParseDecimalOfString(n: int)
    ensures ParseDecimal(IntToString(n)) == Some(n as real)
  {
    if n < 0 {
      ParseDecimalOfNegative(n);
    } else {
      StripOfTrimmed(IntToString(n));
      ParseUnsignedOfNat(n);
    }
  }

  /** A text whose first non-blank character is a letter other than a
      sign, a digit or a point is not a number. */
  lemma ParseDecimalOfLetter(s: string)
    requires s != [] && 'a' <= s[0] <= 'z'
    ensures ParseDecimal(s) == None
  {
    StripOfLetter(s);
    var t := Strip(s);
    match Find(t, ".")
    case Some(k) =>
      if k > 0 {
        assert t[..k][0] == t[0];
      }
    case None =>
  }

  lemma StripOfLetter(s: string)
    requires s != [] && 'a' <= s[0] <= 'z'
    ensures Strip(s) != [] && Strip(s)[0] == s[0]
  {
  }
}
