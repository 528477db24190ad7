/** The few Python string builtins the Lex hook relies on: `int()`, `str()`,
    `str.lower()`, `str.split(sep)` and `str.format` with bare `{}` fields. */
module Text {
  import opened Wrappers

  // ---------------------------------------------------------------- int() / str()

  predicate IsDigit(c: char) { '0' <= c <= '9' }

  predicate AllDigits(s: string) { forall i :: 0 <= i < |s| ==> IsDigit(s[i]) }

  /** Value of a run of decimal digits, most significant digit first. */
  function DigitsValue(s: string): nat
    requires AllDigits(s)
  {
    if |s| == 0 then 0 else 10 * DigitsValue(s[..|s| - 1]) + (s[|s| - 1] as int - '0' as int)
  }

  /** Python's `int(s)` on a str: an optional sign followed by one or more
      ASCII digits; anything else raises ValueError (here: None). */
  function ParseInt(s: string): Option<int>
  {
    if |s| == 0 then None
    else if s[0] == '+' || s[0] == '-' then
      var digits := s[1..];
      if |digits| > 0 && AllDigits(digits) then
        var v: int := DigitsValue(digits);
        Some(if s[0] == '-' then -v else v)
      else None
    else if AllDigits(s) then Some(DigitsValue(s))
    else None
  }

  function Digit(d: nat): (c: char)
    requires d < 10
    ensures IsDigit(c) && c as int - '0' as int == d
  {
    ('0' as int + d) as char
  }

  /** Python's `str(n)` for a non-negative int: shortest decimal numeral. */
  function Decimal(n: nat): (r: string)
    ensures |r| > 0 && AllDigits(r)
    ensures |r| > 1 ==> r[0] != '0'
  {
    if n < 10 then [Digit(n)] else Decimal(n / 10) + [Digit(n % 10)]
  }

  /** Python's `str(n)` for any int. */
  function Str(n: int): string
  {
    if n < 0 then "-" + Decimal(-n) else Decimal(n)
  }

  lemma {:induction false} DecimalValue(n: nat)
    ensures DigitsValue(Decimal(n)) == n
  {
    if n >= 10 {
      DecimalValue(n / 10);
      var d := Decimal(n);
      assert d[..|d| - 1] == Decimal(n / 10);
    }
  }

  /** `int(str(n)) == n`: the decimal rendering of a price reads back as the amount. */
  lemma StrRoundTrip(n: int)
    ensures ParseInt(Str(n)) == Some(n)
  {
    if n < 0 {
      DecimalValue(-n);
      assert Str(n)[1..] == Decimal(-n);
    } else {
      DecimalValue(n);
    }
  }

  /** A numeral of two ASCII digits reads as `10 * first + second`. */
  lemma ParseTwoDigits(a: char, b: char)
    requires IsDigit(a) && IsDigit(b)
    ensures ParseInt([a, b]) == Some(10 * (a as int - '0' as int) + (b as int - '0' as int))
  {
    var s := [a, b];
    assert AllDigits(s);
    assert s[..1] == [a];
    assert [a][..0] == [];
    assert DigitsValue([a]) == a as int - '0' as int;
  }

  // ---------------------------------------------------------------- lower()

  function LowerChar(c: char): char
  {
    if 'A' <= c <= 'Z' then (c as int - 'A' as int + 'a' as int) as char else c
  }

  /** `s.lower()` on ASCII letters; every other character is kept. */
  function Lower(s: string): (r: string)
    ensures |r| == |s|
    ensures forall i :: 0 <= i < |s| ==> r[i] == LowerChar(s[i])
  {
    seq(|s|, i requires 0 <= i < |s| => LowerChar(s[i]))
  }

  predicate IsUpper(c: char) { 'A' <= c <= 'Z' }

  /** No ASCII capital survives `lower()`. */
  lemma LowerLeavesNoCapital(s: string)
    ensures forall i :: 0 <= i < |Lower(s)| ==> !IsUpper(Lower(s)[i])
  {
  }

  /** `s.lower() == s` exactly when `s` holds no ASCII capital. */
  lemma LowerFixesLowerCase(s: string)
    ensures Lower(s) == s <==> forall i :: 0 <= i < |s| ==> !IsUpper(s[i])
  {
    if forall i :: 0 <= i < |s| ==> !IsUpper(s[i]) {
      assert forall i :: 0 <= i < |s| ==> Lower(s)[i] == s[i];
    } else {
      var i :| 0 <= i < |s| && IsUpper(s[i]);
      assert Lower(s)[i] != s[i];
    }
  }

  /** Lowering twice is lowering once. */
  lemma LowerIdempotent(s: string)
    ensures Lower(Lower(s)) == Lower(s)
  {
    LowerLeavesNoCapital(s);
    LowerFixesLowerCase(Lower(s));
  }

  // ---------------------------------------------------------------- split()

  /** Number of occurrences of `c` in `s`. */
  function Count(s: string, c: char): nat
  {
    if |s| == 0 then 0 else (if s[0] == c then 1 else 0) + Count(s[1..], c)
  }

  /** `sep.join(parts)` for a one-character separator. */
  function Join(parts: seq<string>, sep: char): string
    requires |parts| > 0
  {
    if |parts| == 1 then parts[0] else parts[0] + [sep] + Join(parts[1..], sep)
  }

  /** `s.split(sep)`: the maximal separator-free pieces of `s`, one more than
      the number of separators, which join back to `s`. */
  function Split(s: string, sep: char): (parts: seq<string>)
    ensures |parts| == Count(s, sep) + 1
    ensures forall i :: 0 <= i < |parts| ==> sep !in parts[i]
    ensures Join(parts, sep) == s
  {
    if |s| == 0 then [""]
    else
      var rest := Split(s[1..], sep);
      if s[0] == sep then
        assert ([""] + rest)[1..] == rest;
        [""] + rest
      else
        var parts := [[s[0]] + rest[0]] + rest[1..];
        assert parts[1..] == rest[1..];
        assert s == [s[0]] + s[1..];
        parts
  }

  lemma SplitNone(s: string, sep: char)
    requires sep !in s
    ensures Split(s, sep) == [s]
  {
  }

  /** Splitting `x + [sep] + y` with no other separator gives exactly `[x, y]`. */
  lemma {:induction false} SplitOnce(x: string, y: string, sep: char)
    requires sep !in x && sep !in y
    ensures Split(x + [sep] + y, sep) == [x, y]
  {
    if |x| == 0 {
      assert x + [sep] + y == [sep] + y;
      assert ([sep] + y)[1..] == y;
      SplitNone(y, sep);
    } else {
      SplitOnce(x[1..], y, sep);
      assert (x + [sep] + y)[1..] == x[1..] + [sep] + y;
      assert [x[0]] + x[1..] == x;
    }
  }

  // ---------------------------------------------------------------- str.format

  predicate IsHole(t: string) { |t| >= 2 && t[0] == '{' && t[1] == '}' }

  /** Number of `{}` replacement fields in a template. */
  function Holes(t: string): nat
  {
    if |t| == 0 then 0 else if IsHole(t) then 1 + Holes(t[2..]) else Holes(t[1..])
  }

  /** `template.format(*args)` for templates whose only fields are `{}`:
      each field takes the next argument; surplus arguments are ignored and
      too few raise IndexError in Python, hence the precondition. */
  function Format(template: string, args: seq<string>): string
    requires Holes(template) <= |args|
  {
    if |template| == 0 then ""
    else if IsHole(template) then args[0] + Format(template[2..], args[1..])
    else [template[0]] + Format(template[1..], args)
  }

  /** The template `pieces[0] {} pieces[1] {} ... pieces[n]`. */
  function Interleave(pieces: seq<string>): string
    requires |pieces| > 0
  {
    if |pieces| == 1 then pieces[0] else pieces[0] + "{}" + Interleave(pieces[1..])
  }

  /** `pieces[0] + args[0] + pieces[1] + ... + args[n-1] + pieces[n]`. */
  function Splice(pieces: seq<string>, args: seq<string>): string
    requires |pieces| == |args| + 1
  {
    if |args| == 0 then pieces[0] else pieces[0] + args[0] + Splice(pieces[1..], args[1..])
  }

  lemma {:induction false} FormatLiteral(p: string, rest: string, args: seq<string>)
    requires '{' !in p
    requires Holes(rest) <= |args|
    ensures Holes(p + rest) == Holes(rest)
    ensures Format(p + rest, args) == p + Format(rest, args)
  {
    if |p| > 0 {
      FormatLiteral(p[1..], rest, args);
      assert (p + rest)[0] == p[0] && !IsHole(p + rest);
      assert (p + rest)[1..] == p[1..] + rest;
      assert [p[0]] + p[1..] == p;
    } else {
      assert p + rest == rest;
    }
  }

  /** Formatting `Interleave(pieces)` substitutes the arguments one by one,
      in order, between the literal pieces. */
  lemma {:induction false} FormatInterleave(pieces: seq<string>, args: seq<string>)
    requires |pieces| == |args| + 1
    requires forall i :: 0 <= i < |pieces| ==> '{' !in pieces[i]
    ensures Holes(Interleave(pieces)) == |args|
    ensures Format(Interleave(pieces), args) == Splice(pieces, args)
  {
    if |args| == 0 {
      FormatLiteral(pieces[0], "", args);
      assert pieces[0] + "" == pieces[0];
    } else {
      var tail := Interleave(pieces[1..]);
      FormatInterleave(pieces[1..], args[1..]);
      var hole := "{}" + tail;
      assert hole[2..] == tail;
      FormatLiteral(pieces[0], hole, args);
      assert pieces[0] + "{}" + tail == pieces[0] + hole;
    }
  }

  /** Adding one more piece and argument at the end appends them to the splice. */
  lemma {:induction false} SpliceSnoc(p: seq<string>, a: seq<string>, x: string, q: string)
    requires |p| == |a| + 1
    ensures Splice(p + [q], a + [x]) == Splice(p, a) + x + q
  {
    assert (p + [q])[1..] == p[1..] + [q];
    if |a| > 0 {
      assert (a + [x])[1..] == a[1..] + [x];
      SpliceSnoc(p[1..], a[1..], x, q);
    } else {
      assert (a + [x])[1..] == [];
    }
  }

  // ---------------------------------------------------------------- substrings

  predicate Contains(s: string, part: string)
  {
    exists i :: 0 <= i <= |s| && part <= s[i..]
  }

  lemma ContainsMiddle(p: string, part: string, q: string)
    ensures Contains(p + part + q, part)
  {
    var s := p + part + q;
    assert s[|p|..] == part + q;
  }
}
