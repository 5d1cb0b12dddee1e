/**
 * The two pieces of Go's standard library that the router and the handlers
 * base their decisions on: `strings.Split` with a one-character separator and
 * `strconv.Atoi`. `Join` and `Itoa` are their inverses; they do not occur in
 * the service's decisions and serve to state round trips.
 */
module Text {
  import opened Wrappers

  /** Number of occurrences of `c` in `s`. */
  function Occurrences(s: string, c: char): nat
    decreases |s|
  {
    if |s| == 0 then 0 else (if s[0] == c then 1 else 0) + Occurrences(s[1..], c)
  }

  /**
   * `strings.Split(s, string(sep))`: the pieces of `s` between occurrences of
   * `sep`. There is always one piece more than there are separators, so the
   * empty string splits into `[""]` and a leading separator yields a leading
   * empty piece.
   */
  function Split(s: string, sep: char): (parts: seq<string>)
    ensures |parts| == Occurrences(s, sep) + 1
    ensures forall i :: 0 <= i < |parts| ==> sep !in parts[i]
    decreases |s|
  {
    if |s| == 0 then [""]
    else
      var rest := Split(s[1..], sep);
      if s[0] == sep then [""] + rest
      else [[s[0]] + rest[0]] + rest[1..]
  }

  /** `strings.Join(parts, string(sep))`. */
  function Join(parts: seq<string>, sep: char): string
    decreases |parts|
  {
    if |parts| == 0 then ""
    else if |parts| == 1 then parts[0]
    else parts[0] + [sep] + Join(parts[1..], sep)
  }

  /** Joining the pieces of a split gives back the string that was split. */
  lemma {:induction false} JoinOfSplit(s: string, sep: char)
    ensures Join(Split(s, sep), sep) == s
    decreases |s|
  {
    if |s| > 0 {
      var rest := Split(s[1..], sep);
      JoinOfSplit(s[1..], sep);
      if s[0] == sep {
        assert Split(s, sep) == [""] + rest;
        assert ([""] + rest)[1..] == rest;
      } else {
        assert Split(s, sep) == [[s[0]] + rest[0]] + rest[1..];
        if |rest| > 1 {
          assert ([[s[0]] + rest[0]] + rest[1..])[1..] == rest[1..];
          assert Join(rest, sep) == rest[0] + [sep] + Join(rest[1..], sep);
          assert s == [s[0]] + s[1..];
        } else {
          assert s == [s[0]] + s[1..];
        }
      }
    }
  }

  /** A string without the separator is a single piece. */
  lemma {:induction false} SplitNoSeparator(p: string, sep: char)
    requires sep !in p
    ensures Split(p, sep) == [p]
    decreases |p|
  {
    if |p| > 0 {
      assert sep !in p[1..] by {
        forall i | 0 <= i < |p[1..]| ensures p[1..][i] != sep {
          assert p[1..][i] == p[i + 1];
        }
      }
      SplitNoSeparator(p[1..], sep);
      assert [p[0]] + p[1..] == p;
    }
  }

  /** A separator-free prefix followed by the separator becomes the first piece. */
  lemma {:induction false} SplitAtSeparator(p: string, rest: string, sep: char)
    requires sep !in p
    ensures Split(p + [sep] + rest, sep) == [p] + Split(rest, sep)
    decreases |p|
  {
    var s := p + [sep] + rest;
    if |p| == 0 {
      assert s == [sep] + rest;
      assert s[1..] == rest;
    } else {
      assert sep !in p[1..] by {
        forall i | 0 <= i < |p[1..]| ensures p[1..][i] != sep {
          assert p[1..][i] == p[i + 1];
        }
      }
      SplitAtSeparator(p[1..], rest, sep);
      assert s[1..] == p[1..] + [sep] + rest;
      assert s[0] == p[0] != sep;
      var tail := Split(s[1..], sep);
      assert tail == [p[1..]] + Split(rest, sep);
      assert [p[0]] + p[1..] == p;
    }
  }

  /** Splitting a join of separator-free pieces gives back the pieces. */
  lemma {:induction false} SplitOfJoin(parts: seq<string>, sep: char)
    requires |parts| > 0
    requires forall i :: 0 <= i < |parts| ==> sep !in parts[i]
    ensures Split(Join(parts, sep), sep) == parts
    decreases |parts|
  {
    if |parts| == 1 {
      SplitNoSeparator(parts[0], sep);
    } else {
      SplitOfJoin(parts[1..], sep);
      SplitAtSeparator(parts[0], Join(parts[1..], sep), sep);
      assert [parts[0]] + parts[1..] == parts;
    }
  }

  // ---------------------------------------------------------------------------
  // strconv.Atoi

  /** Go's `int` on the 64-bit platforms the service is built for. */
  const MinInt: int := -0x8000_0000_0000_0000
  const MaxInt: int := 0x7fff_ffff_ffff_ffff

  predicate IsDigit(c: char) {
    '0' <= c <= '9'
  }

  predicate AllDigits(s: string) {
    forall i :: 0 <= i < |s| ==> IsDigit(s[i])
  }

  function DigitValue(c: char): nat
    requires IsDigit(c)
  {
    (c as int) - ('0' as int)
  }

  /** The value of a string of decimal digits, most significant first. */
  function DigitsValue(s: string): nat
    requires AllDigits(s)
    decreases |s|
  {
    if |s| == 0 then 0 else DigitsValue(s[..|s| - 1]) * 10 + DigitValue(s[|s| - 1])
  }

  /** Parses unsigned decimal digits, negated when `negative`; fails on no digits, a non-digit or overflow. */
  function ParseMagnitude(digits: string, negative: bool): Option<int>
  {
    if |digits| == 0 || !AllDigits(digits) then None
    else
      var m: int := DigitsValue(digits);
      var v := if negative then -m else m;
      if MinInt <= v <= MaxInt then Some(v) else None
  }

  /** Whether `s` starts with a sign character. */
  predicate Signed(s: string) {
    |s| > 0 && (s[0] == '+' || s[0] == '-')
  }

  /** What follows the optional sign. */
  function Unsigned(s: string): string {
    if Signed(s) then s[1..] else s
  }

  /**
   * `strconv.Atoi`: an optional `+` or `-` followed by one or more decimal
   * digits whose value fits a 64-bit `int`. Anything else is an error
   * (`None`): nothing after the sign (the empty string, a sign alone), a
   * non-digit after the sign, or a value out of range.
   */
  function Atoi(s: string): (r: Option<int>)
    ensures |Unsigned(s)| == 0 ==> r.None?
    ensures !AllDigits(Unsigned(s)) ==> r.None?
    ensures |Unsigned(s)| > 0 && AllDigits(Unsigned(s)) ==>
              var m: int := DigitsValue(Unsigned(s));
              var v := if |s| > 0 && s[0] == '-' then -m else m;
              (if MinInt <= v <= MaxInt then r == Some(v) else r.None?)
    ensures r.Some? ==> MinInt <= r.value <= MaxInt
  {
    if |s| > 0 && (s[0] == '+' || s[0] == '-') then ParseMagnitude(s[1..], s[0] == '-')
    else ParseMagnitude(s, false)
  }

  function DigitChar(d: nat): (c: char)
    requires d < 10
    ensures IsDigit(c) && DigitValue(c) == d
  {
    ('0' as int + d) as char
  }

  /** The shortest decimal rendering of `n`. */
  function DecimalDigits(n: nat): (s: string)
    ensures |s| > 0 && AllDigits(s)
    decreases n
  {
    if n < 10 then [DigitChar(n)] else DecimalDigits(n / 10) + [DigitChar(n % 10)]
  }

  /** `strconv.Itoa`: how an id is written in a request path. */
  function Itoa(n: int): (s: string)
    ensures '/' !in s
  {
    var s := if n < 0 then "-" + DecimalDigits(-n) else DecimalDigits(n);
    assert forall i :: 0 <= i < |s| ==> s[i] != '/' by {
      var d := DecimalDigits(if n < 0 then -n else n);
      forall i | 0 <= i < |s| ensures s[i] != '/' {
        if n < 0 && i > 0 {
          assert s[i] == d[i - 1];
        }
      }
    }
    s
  }

  lemma {:induction false} DecimalDigitsValue(n: nat)
    ensures DigitsValue(DecimalDigits(n)) == n
    decreases n
  {
    if n >= 10 {
      DecimalDigitsValue(n / 10);
      var s := DecimalDigits(n);
      assert s[..|s| - 1] == DecimalDigits(n / 10);
    }
  }

  /** Every id the service can hand out in a path parses back to itself. */
  lemma AtoiOfItoa(n: int)
    requires MinInt <= n <= MaxInt
    ensures Atoi(Itoa(n)) == Some(n)
  {
    if n < 0 {
      DecimalDigitsValue(-n);
      assert Itoa(n)[1..] == DecimalDigits(-n);
    } else {
      DecimalDigitsValue(n);
    }
  }
}
