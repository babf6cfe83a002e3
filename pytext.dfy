/** Models of the Python string built-ins the quiz page relies on:
    `str.strip()` (for the display name), `str(int)` (every `{a}` and `{b}`
    in an f-string), and, as the reading side of the CSV export, splitting a
    line on a separator character and reading a decimal integer back. */
module PyText {

  /** The result of a reader that may reject its input: `ParseInt` here and
      the CSV reader of the export, which builds on it. */
  datatype Option<T> = None | Some(value: T)

  // ---------------------------------------------------------------------
  // str.strip()
  // ---------------------------------------------------------------------

  /** Python's `str.isspace()` for one character: the ASCII controls
      TAB..CR and FS..US, SPACE, NEL, NBSP, and the Unicode space
      separators and line/paragraph separators. */
  predicate IsSpace(c: char)
  {
    ('\t' <= c <= '\r') || ('\U{001C}' <= c <= ' ') || c == '\U{0085}' || c == '\U{00A0}'
    || c == '\U{1680}' || ('\U{2000}' <= c <= '\U{200A}') || c == '\U{2028}'
    || c == '\U{2029}' || c == '\U{202F}' || c == '\U{205F}' || c == '\U{3000}'
  }

  predicate AllSpace(s: string)
  {
    forall k :: 0 <= k < |s| ==> IsSpace(s[k])
  }

  /** The first position at or after `i` that does not hold whitespace (or
      the length): the left end of `strip`'s scan. */
  function SkipSpace(s: string, i: nat): (n: nat)
    requires i <= |s|
    ensures i <= n <= |s|
    ensures forall k :: i <= k < n ==> IsSpace(s[k])
    ensures n < |s| ==> !IsSpace(s[n])
    decreases |s| - i
  {
    if i == |s| || !IsSpace(s[i]) then i else SkipSpace(s, i + 1)
  }

  /** Moving down from `j`, the end of the last non-whitespace character at
      or after `lo` (or `lo`): the right end of `strip`'s scan. */
  function SkipSpaceBack(s: string, lo: nat, j: nat): (m: nat)
    requires lo <= j <= |s|
    ensures lo <= m <= j
    ensures forall k :: m <= k < j ==> IsSpace(s[k])
    ensures m > lo ==> !IsSpace(s[m - 1])
    decreases j
  {
    if j == lo || !IsSpace(s[j - 1]) then j else SkipSpaceBack(s, lo, j - 1)
  }

  /** `s.strip()`: the characters between the two ends of the scan. */
  function Strip(s: string): string
  {
    var i := SkipSpace(s, 0);
    s[i..SkipSpaceBack(s, i, |s|)]
  }

  /** `s[i..j]` is what is left of `s` once leading and trailing whitespace
      are cut off at `i` and `j`. */
  predicate StrippedAt(s: string, i: nat, j: nat)
    requires i <= j <= |s|
  {
    && (forall k :: 0 <= k < i ==> IsSpace(s[k]))
    && (forall k :: j <= k < |s| ==> IsSpace(s[k]))
    && (i < j ==> !IsSpace(s[i]) && !IsSpace(s[j - 1]))
  }

  /** The result of `strip` is the infix `s[i..j]` left once the leading and
      the trailing whitespace are cut off: only whitespace was removed on
      either side, and the infix neither starts nor ends with whitespace. */
  lemma StripIsInfix(s: string)
    ensures exists i: nat, j: nat | i <= j <= |s| :: Strip(s) == s[i..j] && StrippedAt(s, i, j)
  {
    var i := SkipSpace(s, 0);
    var j := SkipSpaceBack(s, i, |s|);
    assert StrippedAt(s, i, j);
  }

  /** A non-empty result of `strip` neither starts nor ends with whitespace. */
  lemma StripTrimmed(s: string)
    ensures var r := Strip(s); r != [] ==> !IsSpace(r[0]) && !IsSpace(r[|r| - 1])
  {
  }

  /** `s.strip()` is empty exactly when `s` consists of whitespace only. */
  lemma StripEmptyIff(s: string)
    ensures Strip(s) == "" <==> AllSpace(s)
  {
  }

  /** A string that neither starts nor ends with whitespace is its own
      `strip`. */
  lemma StripKeepsTrimmed(s: string)
    requires s != [] && !IsSpace(s[0]) && !IsSpace(s[|s| - 1])
    ensures Strip(s) == s
  {
  }

  /** Stripping twice is stripping once. */
  lemma StripIdempotent(s: string)
    ensures Strip(Strip(s)) == Strip(s)
  {
  }

  // ---------------------------------------------------------------------
  // str(int) and reading it back
  // ---------------------------------------------------------------------

  predicate IsDigit(c: char)
  {
    '0' <= c <= '9'
  }

  predicate AllDigits(s: string)
  {
    forall k :: 0 <= k < |s| ==> IsDigit(s[k])
  }

  function DigitValue(c: char): (d: nat)
    requires IsDigit(c)
    ensures d < 10
  {
    (c as int) - ('0' as int)
  }

  function DigitChar(d: nat): (c: char)
    requires d < 10
    ensures IsDigit(c) && DigitValue(c) == d
  {
    (('0' as int) + d) as char
  }

  /** Decimal numeral of a natural number, as Python's `str` writes it: at
      least one digit, and a leading zero only for zero itself. */
  function NatToString(n: nat): (r: string)
    ensures |r| >= 1 && AllDigits(r)
    ensures r[0] == '0' <==> n == 0
    ensures n == 0 ==> r == "0"
    decreases n
  {
    if n < 10 then [DigitChar(n)] else NatToString(n / 10) + [DigitChar(n % 10)]
  }

  /** Python's `str(i)` for an int: a minus sign for negative values,
      then the decimal numeral of the magnitude. */
  function IntToString(i: int): (r: string)
    ensures |r| >= 1
    ensures r[0] == '-' <==> i < 0
    ensures AllDigits(if i < 0 then r[1..] else r)
  {
    if i < 0 then "-" + NatToString(-i) else NatToString(i)
  }

  /** The value of a string of decimal digits (most significant first). */
  function ParseNat(s: string): nat
    requires AllDigits(s)
  {
    if s == [] then 0 else 10 * ParseNat(s[..|s| - 1]) + DigitValue(s[|s| - 1])
  }

  /** Reads an optionally negative decimal integer; anything else is `None`. */
  function ParseInt(s: string): Option<int>
  {
    if |s| > 1 && s[0] == '-' && AllDigits(s[1..]) then Some(0 - ParseNat(s[1..]) as int)
    else if |s| > 0 && AllDigits(s) then Some(ParseNat(s))
    else None
  }

  lemma {:induction false} ParseNatToString(n: nat)
    ensures ParseNat(NatToString(n)) == n
    decreases n
  {
    if n >= 10 {
      var r := NatToString(n);
      assert r[..|r| - 1] == NatToString(n / 10);
      ParseNatToString(n / 10);
    }
  }

  /** Reading back what `str(i)` wrote gives `i` again. */
  lemma ParseIntToString(i: int)
    ensures ParseInt(IntToString(i)) == Some(i)
  {
    var r := IntToString(i);
    if i < 0 {
      var digits := NatToString(-i);
      assert r == "-" + digits && r[1..] == digits;
      ParseNatToString(-i);
      assert ParseInt(r) == Some(0 - ParseNat(digits) as int);
    } else {
      assert r[0] != '-' && AllDigits(r);
      ParseNatToString(i);
    }
  }

  /** `str(i)` never writes a comma or a line break. */
  lemma IntToStringPlain(i: int)
    ensures ',' !in IntToString(i) && '\n' !in IntToString(i)
  {
  }

  // ---------------------------------------------------------------------
  // Splitting on, and joining with, a separator character
  // ---------------------------------------------------------------------

  /** Position of the first `c` in `s`. */
  function IndexOf(s: string, c: char): (i: nat)
    requires c in s
    ensures i < |s| && s[i] == c && c !in s[..i]
  {
    if s[0] == c then 0 else 1 + IndexOf(s[1..], c)
  }

  /** The pieces of `s` between occurrences of `sep` (like Python's
      `s.split(sep)` for a one-character separator): never an empty list,
      and no piece holds the separator. */
  function Split(s: string, sep: char): (fields: seq<string>)
    ensures |fields| >= 1
    ensures Free(fields, sep)
    decreases |s|
  {
    if sep !in s then [s]
    else
      var i := IndexOf(s, sep);
      [s[..i]] + Split(s[i + 1..], sep)
  }

  /** The pieces written one after another with `sep` between them. */
  function Join(fields: seq<string>, sep: char): string
    decreases |fields|
  {
    if |fields| == 0 then ""
    else if |fields| == 1 then fields[0]
    else fields[0] + [sep] + Join(fields[1..], sep)
  }

  predicate Free(fields: seq<string>, sep: char)
  {
    forall k :: 0 <= k < |fields| ==> sep !in fields[k]
  }

  /** A piece without the separator, then the separator: splitting yields
      that piece first and then the pieces of the rest. */
  lemma SplitCons(f: string, sep: char, rest: string)
    requires sep !in f
    ensures Split(f + [sep] + rest, sep) == [f] + Split(rest, sep)
  {
    var s := f + [sep] + rest;
    assert s[|f|] == sep;
    var i := IndexOf(s, sep);
    assert i == |f|;
    assert s[..i] == f;
    assert s[i + 1..] == rest;
  }

  lemma ConcatAssoc<T>(a: seq<T>, b: seq<T>, c: seq<T>)
    ensures a + (b + c) == (a + b) + c
  {
  }

  /** Splitting at one occurrence of the separator: the pieces of the left
      part followed by the pieces of the right part. */
  lemma {:induction false} SplitAppend(x: string, sep: char, y: string)
    ensures Split(x + [sep] + y, sep) == Split(x, sep) + Split(y, sep)
    decreases |x|
  {
    if sep !in x {
      SplitCons(x, sep, y);
    } else {
      var i := IndexOf(x, sep);
      var head, rest := x[..i], x[i + 1..];
      var tail := rest + [sep] + y;
      assert x == head + [sep] + rest;
      assert x + [sep] + y == head + [sep] + tail;
      SplitCons(head, sep, rest);
      SplitCons(head, sep, tail);
      SplitAppend(rest, sep, y);
      ConcatAssoc([head], Split(rest, sep), Split(y, sep));
    }
  }

  /** Splitting what was joined gives the pieces back, provided none of them
      holds the separator. */
  lemma {:induction false} SplitJoin(fields: seq<string>, sep: char)
    requires |fields| >= 1 && Free(fields, sep)
    ensures Split(Join(fields, sep), sep) == fields
    decreases |fields|
  {
    if |fields| > 1 {
      var tail := fields[1..];
      assert Free(tail, sep) by {
        forall k | 0 <= k < |tail| ensures sep !in tail[k] {
          assert tail[k] == fields[k + 1];
        }
      }
      SplitJoin(tail, sep);
      SplitCons(fields[0], sep, Join(tail, sep));
      assert fields == [fields[0]] + tail;
    }
  }

  /** Splitting a string followed by the separator and a join of
      separator-free pieces: the pieces of the string, then those pieces. */
  lemma SplitBeforeJoin(x: string, sep: char, fields: seq<string>)
    requires |fields| >= 1 && Free(fields, sep)
    ensures Split(x + [sep] + Join(fields, sep), sep) == Split(x, sep) + fields
  {
    SplitAppend(x, sep, Join(fields, sep));
    SplitJoin(fields, sep);
  }

  /** Joining what was split gives the string back. */
  lemma {:induction false} JoinSplit(s: string, sep: char)
    ensures Join(Split(s, sep), sep) == s
    decreases |s|
  {
    if sep in s {
      var i := IndexOf(s, sep);
      var head, rest := s[..i], s[i + 1..];
      var tail := Split(rest, sep);
      JoinSplit(rest, sep);
      var parts := [head] + tail;
      assert Split(s, sep) == parts;
      assert |parts| >= 2 && parts[0] == head && parts[1..] == tail;
      assert Join(parts, sep) == head + [sep] + Join(tail, sep);
      assert s == head + [sep] + rest;
    }
  }

  /** A character that is neither the separator nor in any piece is not in
      the joined string. */
  lemma {:induction false} JoinAvoids(fields: seq<string>, sep: char, c: char)
    requires c != sep && Free(fields, c)
    ensures c !in Join(fields, sep)
    decreases |fields|
  {
    if |fields| > 1 {
      assert Free(fields[1..], c) by {
        forall k | 0 <= k < |fields| - 1 ensures c !in fields[1..][k] {
          assert fields[1..][k] == fields[k + 1];
        }
      }
      JoinAvoids(fields[1..], sep, c);
    }
  }

  /** `part` occurs in `text` starting at position `i`. */
  predicate OccursAt(text: string, part: string, i: nat)
  {
    i + |part| <= |text| && text[i..i + |part|] == part
  }

  /** `part in text` for strings. */
  predicate Contains(text: string, part: string)
  {
    exists i: nat | i <= |text| :: OccursAt(text, part, i)
  }

  /** The middle piece of a concatenation occurs in it. */
  lemma ContainsMiddle(x: string, y: string, z: string)
    ensures Contains(x + y + z, y)
  {
    assert OccursAt(x + y + z, y, |x|);
  }

  /** What occurs in a suffix occurs in the whole string. */
  lemma ContainsAfter(x: string, z: string, y: string)
    requires Contains(z, y)
    ensures Contains(x + z, y)
  {
    var i: nat :| i <= |z| && OccursAt(z, y, i);
    assert (x + z)[|x| + i..|x| + i + |y|] == z[i..i + |y|];
    assert OccursAt(x + z, y, |x| + i);
  }
}
