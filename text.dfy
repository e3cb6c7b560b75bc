/**
 * Text helpers shared by the emitter: prefixes, selecting the lines of a
 * document that start with a given prefix, the `  p,` option-line layout,
 * `', '.join`, and the decimal rendering that Python's `str(int)` performs.
 */
module Text {

  predicate StartsWith(s: string, p: string)
  {
    |p| <= |s| && s[..|p|] == p
  }

  /** A line that differs from `p` at some position within both cannot start with `p`. */
  lemma NotPrefixAt(s: string, p: string, i: nat)
    requires i < |s| && i < |p| && s[i] != p[i]
    ensures !StartsWith(s, p)
  {
  }

  /** The lines of `lines` that start with `p`, in their original order. */
  function Select(lines: seq<string>, p: string): seq<string>
  {
    if lines == [] then []
    else
      var last := lines[|lines| - 1];
      Select(lines[..|lines| - 1], p) + (if StartsWith(last, p) then [last] else [])
  }

  lemma {:induction false} SelectAppend(a: seq<string>, b: seq<string>, p: string)
    ensures Select(a + b, p) == Select(a, p) + Select(b, p)
    decreases |b|
  {
    if b == [] {
      assert a + b == a;
    } else {
      var b' := b[..|b| - 1];
      assert (a + b)[..|a + b| - 1] == a + b';
      SelectAppend(a, b', p);
    }
  }

  lemma {:induction false} SelectNone(lines: seq<string>, p: string)
    requires forall i :: 0 <= i < |lines| ==> !StartsWith(lines[i], p)
    ensures Select(lines, p) == []
    decreases |lines|
  {
    if lines != [] {
      SelectNone(lines[..|lines| - 1], p);
    }
  }

  lemma {:induction false} SelectAll(lines: seq<string>, p: string)
    requires forall i :: 0 <= i < |lines| ==> StartsWith(lines[i], p)
    ensures Select(lines, p) == lines
    decreases |lines|
  {
    if lines != [] {
      SelectAll(lines[..|lines| - 1], p);
    }
  }

  /** `p + rest` starts with `p`. */
  lemma PrefixStarts(p: string, rest: string)
    ensures StartsWith(p + rest, p)
  {
    assert (p + rest)[..|p|] == p;
  }

  /** A line that starts with `p` still does after more text is appended. */
  lemma StartsWithAppend(s: string, t: string, p: string)
    requires StartsWith(s, p)
    ensures StartsWith(s + t, p)
  {
    assert (s + t)[..|p|] == s[..|p|];
  }

  /** `Select` keeps exactly the lines that start with `p`. */
  lemma {:induction false} SelectMeaning(lines: seq<string>, p: string)
    ensures |Select(lines, p)| <= |lines|
    ensures forall x :: x in Select(lines, p) <==> x in lines && StartsWith(x, p)
    decreases |lines|
  {
    if lines != [] {
      SelectMeaning(lines[..|lines| - 1], p);
      assert lines == lines[..|lines| - 1] + [lines[|lines| - 1]];
    }
  }

  lemma SelectOne(line: string, p: string)
    ensures Select([line], p) == if StartsWith(line, p) then [line] else []
  {
    assert [line][..0] == [];
  }

  /** The option lines `  p,` that `_LatexOutput` writes for a parameter list. */
  function ParamLines(ps: seq<string>): seq<string>
  {
    seq(|ps|, i requires 0 <= i < |ps| => "  " + ps[i] + ",")
  }

  /** No option line is picked out by a prefix that does not start with a blank. */
  lemma SelectParamLines(ps: seq<string>, p: string)
    requires |p| > 0 && p[0] != ' '
    ensures Select(ParamLines(ps), p) == []
  {
    var lines := ParamLines(ps);
    forall i | 0 <= i < |lines| ensures !StartsWith(lines[i], p) {
      NotPrefixAt(lines[i], p, 0);
    }
    SelectNone(lines, p);
  }

  /** An option line appears in the block exactly when its parameter is in the list. */
  lemma ParamLineIn(ps: seq<string>, x: string)
    ensures ("  " + x + ",") in ParamLines(ps) <==> x in ps
  {
    var lines := ParamLines(ps);
    if ("  " + x + ",") in lines {
      var i :| 0 <= i < |lines| && lines[i] == "  " + x + ",";
      var line := lines[i];
      assert |ps[i]| == |x|;
      assert ps[i] == line[2..|line| - 1] == x;
    }
    if x in ps {
      var i :| 0 <= i < |ps| && ps[i] == x;
      assert lines[i] == "  " + x + ",";
    }
  }

  /** `sep.join(parts)`. */
  function Join(parts: seq<string>, sep: string): string
  {
    if parts == [] then ""
    else if |parts| == 1 then parts[0]
    else parts[0] + sep + Join(parts[1..], sep)
  }

  predicate IsDigit(c: char)
  {
    '0' <= c <= '9'
  }

  predicate AllDigits(s: string)
  {
    forall i :: 0 <= i < |s| ==> IsDigit(s[i])
  }

  function DigitChar(d: nat): (c: char)
    requires d < 10
    ensures IsDigit(c) && c as int - '0' as int == d
  {
    ('0' as int + d) as char
  }

  /** `str(n)` for a non-negative integer: decimal digits, no leading zero. */
  function NatToString(n: nat): (r: string)
    ensures |r| > 0 && AllDigits(r)
    ensures |r| > 1 ==> r[0] != '0'
    decreases n
  {
    if n < 10 then [DigitChar(n)] else NatToString(n / 10) + [DigitChar(n % 10)]
  }

  /** `str(i)` for any integer. */
  function IntToString(i: int): (r: string)
    ensures |r| > 0
    ensures i < 0 <==> r[0] == '-'
  {
    if i < 0 then "-" + NatToString(-i) else NatToString(i)
  }

  /** The value of a string of decimal digits. */
  function ParseNat(s: string): nat
    requires AllDigits(s)
  {
    if s == [] then 0 else 10 * ParseNat(s[..|s| - 1]) + (s[|s| - 1] as int - '0' as int)
  }

  /** Reading back what `NatToString` wrote yields the number again. */
  lemma {:induction false} ParseNatToString(n: nat)
    ensures ParseNat(NatToString(n)) == n
    decreases n
  {
    if n >= 10 {
      var s := NatToString(n);
      assert s[..|s| - 1] == NatToString(n / 10);
      ParseNatToString(n / 10);
    }
  }

  /** Distinct numbers are written as distinct strings. */
  lemma NatToStringInjective(a: nat, b: nat)
    ensures NatToString(a) == NatToString(b) ==> a == b
  {
    ParseNatToString(a);
    ParseNatToString(b);
  }
}
