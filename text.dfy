/**
 * The string operations the authentication code relies on: `indexOf`,
 * `split`/`join` on a one-character separator, `startsWith`, decimal
 * numerals (the `exp` claim of a token) and an injective, URL-safe encoding
 * of a string as character codes (the stand-in for the digests that bcrypt
 * and an HMAC produce).
 */
module Text {
  import opened Results

  /** JavaScript's `s.startsWith(prefix)`. */
  function StartsWith(s: string, prefix: string): (b: bool)
    ensures b <==> |prefix| <= |s| && forall i :: 0 <= i < |prefix| ==> s[i] == prefix[i]
  {
    |prefix| <= |s| && s[..|prefix|] == prefix
  }

  /** The first position of `c` in `s`, as `s.indexOf(c)` (None for -1). */
  function IndexOf(s: string, c: char): (r: Option<nat>)
    ensures r.None? <==> c !in s
    ensures r.Some? ==> r.value < |s| && s[r.value] == c
    ensures r.Some? ==> forall k :: 0 <= k < r.value ==> s[k] != c
  {
    if |s| == 0 then None
    else if s[0] == c then Some(0)
    else
      match IndexOf(s[1..], c)
      case None => None
      case Some(i) => Some(i + 1)
  }

  /** `parts.join(sep)`. */
  function Join(parts: seq<string>, sep: char): (r: string)
    ensures |parts| > 0 ==> |parts[0]| <= |r| && r[..|parts[0]|] == parts[0]
  {
    if |parts| == 0 then ""
    else if |parts| == 1 then parts[0]
    else parts[0] + [sep] + Join(parts[1..], sep)
  }

  /**
   * `s.split(sep)`: the pieces between occurrences of `sep`. There is always
   * at least one piece, no piece holds the separator, and joining the pieces
   * gives back `s`.
   */
  function Split(s: string, sep: char): (parts: seq<string>)
    ensures |parts| >= 1
    ensures forall i :: 0 <= i < |parts| ==> sep !in parts[i]
    ensures Join(parts, sep) == s
    decreases |s|
  {
    match IndexOf(s, sep)
    case None => [s]
    case Some(i) =>
      var rest := Split(s[i + 1..], sep);
      SplitStep(s, i, rest, sep);
      [s[..i]] + rest
  }

  /** One step of Split: the piece before the first separator, then the pieces of the remainder. */
  lemma SplitStep(s: string, i: nat, rest: seq<string>, sep: char)
    requires i < |s| && s[i] == sep
    requires forall k :: 0 <= k < i ==> s[k] != sep
    requires |rest| >= 1 && Join(rest, sep) == s[i + 1..]
    requires forall j :: 0 <= j < |rest| ==> sep !in rest[j]
    ensures forall j :: 0 <= j < |[s[..i]] + rest| ==> sep !in ([s[..i]] + rest)[j]
    ensures Join([s[..i]] + rest, sep) == s
  {
    var head := s[..i];
    assert sep !in head by {
      forall k | 0 <= k < i ensures head[k] != sep { }
    }
    forall j | 0 <= j < |[head] + rest| ensures sep !in ([head] + rest)[j] {
      if j > 0 {
        assert ([head] + rest)[j] == rest[j - 1];
      }
    }
    JoinCons(head, rest, sep);
    assert s == head + [sep] + s[i + 1..];
  }

  lemma JoinThree(a: string, b: string, c: string, sep: char)
    ensures Join([a, b, c], sep) == a + [sep] + b + [sep] + c
  {
    assert [a, b, c][1..] == [b, c];
    assert [b, c][1..] == [c];
    assert Join([b, c], sep) == b + [sep] + c;
    assert Join([a, b, c], sep) == a + [sep] + (b + [sep] + c);
  }

  /** Splitting what was joined gives back the pieces, when no piece holds the separator. */
  lemma {:induction false} SplitJoin(parts: seq<string>, sep: char)
    requires |parts| >= 1
    requires forall i :: 0 <= i < |parts| ==> sep !in parts[i]
    ensures Split(Join(parts, sep), sep) == parts
  {
    if |parts| == 1 {
      assert IndexOf(parts[0], sep) == None;
    } else {
      var head, tail := parts[0], Join(parts[1..], sep);
      JoinCons(head, parts[1..], sep);
      var s := head + [sep] + tail;
      FirstSeparator(head, tail, sep);
      assert s[..|head|] == head && s[|head| + 1..] == tail;
      SplitJoin(parts[1..], sep);
      assert parts == [head] + parts[1..];
    }
  }

  /** Letters and digits only: no '.', '/' or space, so safe as a URL path segment or a token part. */
  predicate IsAlphanumeric(s: string)
  {
    forall i :: 0 <= i < |s| ==> '0' <= s[i] <= '9' || 'a' <= s[i] <= 'z' || 'A' <= s[i] <= 'Z'
  }

  /** A string that splits, after a prefix, into two pieces is the prefix, a piece, the separator, a piece. */
  lemma PrefixThenTwo(s: string, prefix: string, a: string, b: string, sep: char)
    requires StartsWith(s, prefix)
    requires Split(s[|prefix|..], sep) == [a, b]
    ensures s == prefix + a + [sep] + b
  {
    var parts := [a, b];
    JoinCons(a, parts[1..], sep);
    assert parts == [a] + parts[1..] && parts[1..] == [b];
    assert s == s[..|prefix|] + s[|prefix|..];
  }

  /** Joining a head onto at least one more piece puts the separator between them. */
  lemma JoinCons(head: string, rest: seq<string>, sep: char)
    requires |rest| >= 1
    ensures Join([head] + rest, sep) == head + [sep] + Join(rest, sep)
  {
    assert ([head] + rest)[1..] == rest;
  }

  // ---------------------------------------------------------------------
  // Decimal numerals
  // ---------------------------------------------------------------------

  predicate IsDigit(c: char)
  {
    '0' <= c <= '9'
  }

  predicate AllDigits(s: string)
  {
    forall i :: 0 <= i < |s| ==> IsDigit(s[i])
  }

  /** A numeral as JSON writes a non-negative integer: digits, no leading zero. */
  predicate IsCanonicalNumeral(s: string)
  {
    |s| >= 1 && AllDigits(s) && (s[0] == '0' ==> |s| == 1)
  }

  function DigitChar(d: nat): (c: char)
    requires d < 10
    ensures IsDigit(c)
  {
    ('0' as int + d) as char
  }

  function DigitValue(c: char): (d: nat)
    requires IsDigit(c)
    ensures d < 10 && DigitChar(d) == c
  {
    c as int - '0' as int
  }

  /** The decimal numeral of `n`, without leading zeros. */
  function NatToDecimal(n: nat): (s: string)
    ensures IsCanonicalNumeral(s)
  {
    if n < 10 then [DigitChar(n)]
    else NatToDecimal(n / 10) + [DigitChar(n % 10)]
  }

  /** The value of a string of digits. */
  function DecimalValue(s: string): (n: nat)
    requires AllDigits(s)
  {
    if |s| == 0 then 0
    else DecimalValue(s[..|s| - 1]) * 10 + DigitValue(s[|s| - 1])
  }

  /** The number a JSON numeral denotes; None for anything that is not one. */
  function ParseDecimal(s: string): (r: Option<nat>)
    ensures r.Some? <==> IsCanonicalNumeral(s)
  {
    if IsCanonicalNumeral(s) then Some(DecimalValue(s)) else None
  }

  /** Parsing undoes printing. */
  lemma {:induction false} DecimalRoundTrip(n: nat)
    ensures ParseDecimal(NatToDecimal(n)) == Some(n)
  {
    if n >= 10 {
      var s := NatToDecimal(n);
      DecimalRoundTrip(n / 10);
      assert s[..|s| - 1] == NatToDecimal(n / 10);
      assert DigitValue(s[|s| - 1]) == n % 10;
      assert DecimalValue(s) == (n / 10) * 10 + n % 10;
    }
  }

  /** A numeral with a non-zero leading digit has a non-zero value. */
  lemma {:induction false} LeadingDigitPositive(s: string)
    requires |s| >= 1 && AllDigits(s) && s[0] != '0'
    ensures DecimalValue(s) > 0
  {
    if |s| > 1 {
      LeadingDigitPositive(s[..|s| - 1]);
    }
  }

  /** Printing undoes parsing: a canonical numeral is the numeral of its value. */
  lemma {:induction false} DecimalCanonical(s: string, n: nat)
    requires ParseDecimal(s) == Some(n)
    ensures NatToDecimal(n) == s
  {
    if |s| > 1 {
      var p := s[..|s| - 1];
      LeadingDigitPositive(p);
      DecimalCanonical(p, DecimalValue(p));
      assert n / 10 == DecimalValue(p) && n % 10 == DigitValue(s[|s| - 1]);
      assert s == p + [s[|s| - 1]];
    }
  }

  // ---------------------------------------------------------------------
  // Character-code encoding
  // ---------------------------------------------------------------------

  /**
   * The decimal codes of the characters of `s`, separated by 'x'. The result
   * holds only digits and 'x', so it has no '.', '/' or space, and distinct
   * strings have distinct encodings (CharCodesInjective).
   */
  function CharCodes(s: string): (r: string)
    ensures IsAlphanumeric(r)
    ensures forall i :: 0 <= i < |r| ==> IsDigit(r[i]) || r[i] == 'x'
    ensures |s| <= |r|
    decreases |s|
  {
    if |s| == 0 then ""
    else if |s| == 1 then NatToDecimal(s[0] as int)
    else NatToDecimal(s[0] as int) + "x" + CharCodes(s[1..])
  }

  /** The first separator of `a + [sep] + rest` is the one after `a`, when `a` has none. */
  lemma FirstSeparator(a: string, rest: string, sep: char)
    requires sep !in a
    ensures IndexOf(a + [sep] + rest, sep) == Some(|a|)
  {
    var s := a + [sep] + rest;
    assert s[|a|] == sep;
    forall k | 0 <= k < |a| ensures s[k] != sep {
      assert s[k] == a[k];
    }
  }

  /** Two separator-free heads followed by the separator line up. */
  lemma SeparatedPrefix(a: string, b: string, ra: string, rb: string, sep: char)
    requires sep !in a && sep !in b
    requires a + [sep] + ra == b + [sep] + rb
    ensures a == b && ra == rb
  {
    var s := a + [sep] + ra;
    FirstSeparator(a, ra, sep);
    FirstSeparator(b, rb, sep);
    assert a == s[..|a|] && b == s[..|b|];
    assert ra == s[|a| + 1..] && rb == s[|b| + 1..];
  }

  lemma DigitsHaveNoX(s: string)
    requires AllDigits(s)
    ensures 'x' !in s
  {
  }

  /** Distinct strings have distinct character-code encodings. */
  lemma {:induction false} CharCodesInjective(a: string, b: string)
    requires CharCodes(a) == CharCodes(b)
    ensures a == b
    decreases |a|
  {
    if |a| == 0 || |b| == 0 {
      assert |a| == 0 && |b| == 0;
    } else {
      var da, db := NatToDecimal(a[0] as int), NatToDecimal(b[0] as int);
      DigitsHaveNoX(da);
      DigitsHaveNoX(db);
      if |a| > 1 {
        FirstSeparator(da, CharCodes(a[1..]), 'x');
      }
      if |b| > 1 {
        FirstSeparator(db, CharCodes(b[1..]), 'x');
      }
      if |a| == 1 || |b| == 1 {
        DecimalRoundTrip(a[0] as int);
        DecimalRoundTrip(b[0] as int);
      } else {
        SeparatedPrefix(da, db, CharCodes(a[1..]), CharCodes(b[1..]), 'x');
        DecimalRoundTrip(a[0] as int);
        DecimalRoundTrip(b[0] as int);
        CharCodesInjective(a[1..], b[1..]);
        assert a == [a[0]] + a[1..] && b == [b[0]] + b[1..];
      }
    }
  }
}
