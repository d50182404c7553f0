/**
 * The parts of Go's `strings`, `strconv` and `sort` packages that the
 * modelled code relies on, over `string` (= `seq<char>`).
 *
 * Go strings are byte sequences; here one `char` stands for one byte, which
 * agrees with Go whenever the text is ASCII.
 */
module Text {

  datatype Option<+T> = None | Some(value: T)

  /** A value, or an error carried as its message text */
  datatype Result<+T> = Ok(value: T) | Err(error: string)

  // ---------------------------------------------------------------------
  // Prefixes and occurrences
  // ---------------------------------------------------------------------

  /** strings.HasPrefix */
  predicate HasPrefix(s: string, prefix: string)
  {
    |prefix| <= |s| && s[..|prefix|] == prefix
  }

  /** strings.TrimPrefix when the prefix is known to be present */
  function TrimPrefix(s: string, prefix: string): (r: string)
    requires HasPrefix(s, prefix)
    ensures prefix + r == s
  {
    s[|prefix|..]
  }

  /** `sub` occurs in `s` at position `i` */
  predicate OccursAt(s: string, sub: string, i: int)
  {
    0 <= i && i + |sub| <= |s| && s[i..i + |sub|] == sub
  }

  /** strings.Index: the leftmost position of `sub` in `s`, or -1 */
  function Index(s: string, sub: string): (r: int)
    ensures -1 <= r <= |s| - |sub| || r == -1
    ensures r >= 0 ==> OccursAt(s, sub, r)
    ensures r >= 0 ==> forall i :: 0 <= i < r ==> !OccursAt(s, sub, i)
    ensures r == -1 ==> forall i :: 0 <= i <= |s| - |sub| ==> !OccursAt(s, sub, i)
    decreases |s|
  {
    if |s| < |sub| then -1
    else if s[..|sub|] == sub then 0
    else
      var k := Index(s[1..], sub);
      assert !OccursAt(s, sub, 0);
      forall i | 0 < i ensures OccursAt(s, sub, i) <==> OccursAt(s[1..], sub, i - 1) {
        OccursAtTail(s, sub, i - 1);
      }
      if k < 0 then -1 else k + 1
  }

  lemma OccursAtTail(s: string, sub: string, i: nat)
    requires s != []
    ensures OccursAt(s[1..], sub, i) <==> OccursAt(s, sub, i + 1)
  {
    if i + 1 + |sub| <= |s| {
      assert s[1..][i..i + |sub|] == s[i + 1..i + 1 + |sub|];
    }
  }

  /** strings.Contains */
  predicate Contains(s: string, sub: string)
  {
    Index(s, sub) >= 0
  }

  /**
   * strings.Count: the number of non-overlapping occurrences of `sep`,
   * scanning from the left; for an empty `sep`, one more than the length.
   */
  function Count(s: string, sep: string): nat
    decreases |s|
  {
    if sep == [] then |s| + 1
    else if |s| < |sep| then 0
    else if s[..|sep|] == sep then 1 + Count(s[|sep|..], sep)
    else Count(s[1..], sep)
  }

  /** strings.ReplaceAll: every non-overlapping occurrence, from the left */
  function ReplaceAll(s: string, pat: string, rep: string): string
    decreases |s|
  {
    if pat == [] then
      // Go inserts `rep` before every character and once more at the end
      if s == [] then rep else rep + [s[0]] + ReplaceAll(s[1..], pat, rep)
    else if |s| < |pat| then s
    else if s[..|pat|] == pat then rep + ReplaceAll(s[|pat|..], pat, rep)
    else [s[0]] + ReplaceAll(s[1..], pat, rep)
  }

  /** strings.Replace(s, pat, rep, 1) */
  function ReplaceFirst(s: string, pat: string, rep: string): string
  {
    if pat == [] then rep + s
    else
      var i := Index(s, pat);
      if i < 0 then s else s[..i] + rep + s[i + |pat|..]
  }

  // ---------------------------------------------------------------------
  // Lemmas relating Index, Count and the two replacements
  // ---------------------------------------------------------------------

  /** Contains and Count agree: something is found iff the count is positive */
  lemma {:induction false} CountPositiveIffContains(s: string, sep: string)
    ensures Count(s, sep) > 0 <==> Contains(s, sep)
    decreases |s|
  {
    if sep != [] && |s| >= |sep| && s[..|sep|] != sep {
      CountPositiveIffContains(s[1..], sep);
    }
  }

  /** The length of ReplaceAll's result, by the number of occurrences */
  lemma {:induction false} ReplaceAllLength(s: string, pat: string, rep: string)
    ensures |ReplaceAll(s, pat, rep)| == |s| + Count(s, pat) * (|rep| - |pat|)
    decreases |s|
  {
    var d := |rep| - |pat|;
    if pat == [] {
      InsertEverywhereLength(s, rep);
    } else if |s| < |pat| {
    } else if s[..|pat|] == pat {
      var t := s[|pat|..];
      ReplaceAllLength(t, pat, rep);
      assert ReplaceAll(s, pat, rep) == rep + ReplaceAll(t, pat, rep);
      assert Count(s, pat) == 1 + Count(t, pat);
      MulStep(Count(t, pat), d);
    } else {
      ReplaceAllLength(s[1..], pat, rep);
      assert ReplaceAll(s, pat, rep) == [s[0]] + ReplaceAll(s[1..], pat, rep);
      assert Count(s, pat) == Count(s[1..], pat);
    }
  }

  lemma {:induction false} InsertEverywhereLength(s: string, rep: string)
    ensures |ReplaceAll(s, [], rep)| == |s| + (|s| + 1) * |rep|
    decreases |s|
  {
    if s != [] {
      InsertEverywhereLength(s[1..], rep);
      assert ReplaceAll(s, [], rep) == rep + [s[0]] + ReplaceAll(s[1..], [], rep);
      MulStep(|s|, |rep|);
    }
  }

  /** Replacing a string with itself changes nothing */
  lemma {:induction false} ReplaceAllSame(s: string, pat: string)
    ensures ReplaceAll(s, pat, pat) == s
    decreases |s|
  {
    if pat == [] {
      if s != [] {
        ReplaceAllSame(s[1..], pat);
        assert [s[0]] + s[1..] == s;
      }
    } else if |s| < |pat| {
    } else if s[..|pat|] == pat {
      ReplaceAllSame(s[|pat|..], pat);
      assert s[..|pat|] + s[|pat|..] == s;
    } else {
      ReplaceAllSame(s[1..], pat);
      assert [s[0]] + s[1..] == s;
    }
  }

  /**
   * ReplaceAll keeps the text before the leftmost occurrence and puts `rep`
   * where that occurrence stood.
   */
  lemma {:induction false} ReplaceAllAtFirst(s: string, pat: string, rep: string)
    requires pat != [] && Index(s, pat) >= 0
    ensures var i := Index(s, pat);
      i + |rep| <= |ReplaceAll(s, pat, rep)| &&
      ReplaceAll(s, pat, rep)[..i + |rep|] == s[..i] + rep
    decreases |s|
  {
    var i := Index(s, pat);
    assert OccursAt(s, pat, i);
    if s[..|pat|] == pat {
      assert i == 0;
      var r := ReplaceAll(s, pat, rep);
      assert r == rep + ReplaceAll(s[|pat|..], pat, rep);
      assert r[..|rep|] == rep;
      assert s[..0] + rep == rep;
    } else {
      assert Index(s[1..], pat) == i - 1;
      ReplaceAllAtFirst(s[1..], pat, rep);
      ReplaceAllAtFirstSkip(s, pat, rep);
    }
  }

  /** The step of ReplaceAllAtFirst past a first character that starts no occurrence */
  lemma ReplaceAllAtFirstSkip(s: string, pat: string, rep: string)
    requires pat != [] && |s| >= |pat| && s[..|pat|] != pat
    requires var k := Index(s[1..], pat);
      k >= 0 && k + |rep| <= |ReplaceAll(s[1..], pat, rep)| &&
      ReplaceAll(s[1..], pat, rep)[..k + |rep|] == s[1..][..k] + rep
    ensures var i := Index(s, pat);
      i >= 0 && i + |rep| <= |ReplaceAll(s, pat, rep)| &&
      ReplaceAll(s, pat, rep)[..i + |rep|] == s[..i] + rep
  {
    var t := s[1..];
    var k := Index(t, pat);
    var i := Index(s, pat);
    assert i == k + 1;
    var rest := ReplaceAll(t, pat, rep);
    assert ReplaceAll(s, pat, rep) == [s[0]] + rest;
    assert s == [s[0]] + t;
    PrefixAfterCons(s[0], t, rest, k, rep);
  }

  lemma PrefixAfterCons<T>(x: T, t: seq<T>, rest: seq<T>, k: nat, rep: seq<T>)
    requires k <= |t| && k + |rep| <= |rest| && rest[..k + |rep|] == t[..k] + rep
    ensures ([x] + rest)[..k + 1 + |rep|] == ([x] + t)[..k + 1] + rep
  {
    assert ([x] + rest)[..k + 1 + |rep|] == [x] + rest[..k + |rep|];
    assert ([x] + t)[..k + 1] == [x] + t[..k];
  }

  /**
   * Replacing the leftmost occurrence of `pat` by a different `rep` always
   * changes the text, in both replacement modes.
   */
  lemma ReplaceAllChanges(s: string, pat: string, rep: string)
    requires Contains(s, pat) && pat != rep
    ensures ReplaceAll(s, pat, rep) != s
  {
    if |rep| == |pat| {
      var i := Index(s, pat);
      ReplaceAllAtFirst(s, pat, rep);
      var r := ReplaceAll(s, pat, rep);
      assert r[i..i + |rep|] == r[..i + |rep|][i..] == (s[..i] + rep)[i..] == rep;
      assert s[i..i + |pat|] == pat;
      assert r[i..i + |rep|] != s[i..i + |rep|];
    } else {
      CountPositiveIffContains(s, pat);
      ReplaceAllLength(s, pat, rep);
      ProductNonZero(Count(s, pat), |rep| - |pat|);
    }
  }

  lemma MulStep(c: int, d: int)
    ensures (1 + c) * d == d + c * d
  {
  }

  lemma ProductNonZero(a: int, b: int)
    requires a != 0 && b != 0
    ensures a * b != 0
  {
  }

  lemma ReplaceFirstChanges(s: string, pat: string, rep: string)
    requires Contains(s, pat) && pat != rep
    ensures ReplaceFirst(s, pat, rep) != s
  {
    if pat == [] {
      assert |ReplaceFirst(s, pat, rep)| == |rep| + |s|;
    } else {
      var i := Index(s, pat);
      var f := ReplaceFirst(s, pat, rep);
      if |rep| == |pat| {
        assert f[i..i + |rep|] == rep;
        assert s[i..i + |pat|] == pat;
      } else {
        assert |f| == |s| - |pat| + |rep|;
      }
    }
  }

  /**
   * With exactly one occurrence of a non-empty `pat`, replacing the first
   * occurrence is the same as replacing all of them.
   */
  lemma {:induction false} SingleOccurrenceReplace(s: string, pat: string, rep: string)
    requires pat != [] && Count(s, pat) == 1
    ensures ReplaceFirst(s, pat, rep) == ReplaceAll(s, pat, rep)
    decreases |s|
  {
    if s[..|pat|] == pat {
      var t := s[|pat|..];
      assert Count(t, pat) == 0;
      NoOccurrenceReplaceAll(t, pat, rep);
      assert ReplaceAll(s, pat, rep) == rep + t;
      assert Index(s, pat) == 0;
      assert ReplaceFirst(s, pat, rep) == s[..0] + rep + t;
    } else {
      assert Count(s[1..], pat) == 1;
      CountPositiveIffContains(s[1..], pat);
      SingleOccurrenceReplace(s[1..], pat, rep);
      ReplaceFirstTail(s, pat, rep);
    }
  }

  lemma ReplaceFirstTail(s: string, pat: string, rep: string)
    requires pat != [] && |s| >= |pat| && s[..|pat|] != pat && Contains(s[1..], pat)
    ensures ReplaceFirst(s, pat, rep) == [s[0]] + ReplaceFirst(s[1..], pat, rep)
  {
    var k := Index(s[1..], pat);
    IndexTail(s, pat);
    ReplaceFirstAt(s, pat, rep, k + 1);
    ReplaceFirstAt(s[1..], pat, rep, k);
    SpliceTail(s, k, |pat|, rep);
  }

  /** Where the first occurrence is known, ReplaceFirst splices `rep` in there */
  lemma ReplaceFirstAt(s: string, pat: string, rep: string, i: int)
    requires pat != [] && i >= 0 && Index(s, pat) == i
    ensures ReplaceFirst(s, pat, rep) == s[..i] + rep + s[i + |pat|..]
  {
  }

  /** Past a non-matching first character, the first occurrence is one further on than in the tail */
  lemma IndexTail(s: string, pat: string)
    requires pat != [] && |s| >= |pat| && s[..|pat|] != pat && Contains(s[1..], pat)
    ensures Index(s, pat) == Index(s[1..], pat) + 1
  {
  }

  /** Splicing `rep` into `s` one position past its first character keeps that character in front */
  lemma SpliceTail(s: string, k: nat, m: nat, rep: string)
    requires k + 1 + m <= |s|
    ensures s[..k + 1] + rep + s[k + 1 + m..] == [s[0]] + (s[1..][..k] + rep + s[1..][k + m..])
  {
    assert s[..k + 1] == [s[0]] + s[1..][..k];
    assert s[k + 1 + m..] == s[1..][k + m..];
    ConcatAssoc4([s[0]], s[1..][..k], rep, s[1..][k + m..]);
  }



  lemma ConcatAssoc<T>(a: seq<T>, b: seq<T>, c: seq<T>)
    ensures a + (b + c) == a + b + c
  {
  }

  lemma ConcatAssoc4<T>(a: seq<T>, b: seq<T>, c: seq<T>, d: seq<T>)
    ensures a + b + c + d == a + (b + c + d)
  {
  }

  /** Without an occurrence of a non-empty `pat`, ReplaceAll is the identity */
  lemma {:induction false} NoOccurrenceReplaceAll(s: string, pat: string, rep: string)
    requires pat != [] && Count(s, pat) == 0
    ensures ReplaceAll(s, pat, rep) == s
    decreases |s|
  {
    if |s| >= |pat| {
      NoOccurrenceReplaceAll(s[1..], pat, rep);
      assert [s[0]] + s[1..] == s;
    }
  }

  // ---------------------------------------------------------------------
  // Joining, trimming, number formatting and parsing
  // ---------------------------------------------------------------------

  /** strings.Join */
  function Join(parts: seq<string>, sep: string): string
  {
    if parts == [] then ""
    else if |parts| == 1 then parts[0]
    else parts[0] + sep + Join(parts[1..], sep)
  }

  /** unicode.IsSpace */
  predicate IsSpace(c: char)
  {
    var n := c as int;
    (0x09 <= n <= 0x0D) || n == 0x20 || n == 0x85 || n == 0xA0 || n == 0x1680 ||
    (0x2000 <= n <= 0x200A) || n == 0x2028 || n == 0x2029 || n == 0x202F ||
    n == 0x205F || n == 0x3000
  }

  function TrimLeftSpace(s: string): (r: string)
    ensures |r| <= |s| && r == s[|s| - |r|..]
    ensures r == [] || !IsSpace(r[0])
    ensures forall i :: 0 <= i < |s| - |r| ==> IsSpace(s[i])
  {
    if s != [] && IsSpace(s[0]) then TrimLeftSpace(s[1..]) else s
  }

  function TrimRightSpace(s: string): (r: string)
    ensures |r| <= |s| && r == s[..|r|]
    ensures r == [] || !IsSpace(r[|r| - 1])
    ensures forall i :: |r| <= i < |s| ==> IsSpace(s[i])
  {
    if s != [] && IsSpace(s[|s| - 1]) then TrimRightSpace(s[..|s| - 1]) else s
  }

  /** strings.TrimSpace: `s` without its leading and trailing white space */
  function TrimSpace(s: string): (r: string)
  {
    TrimRightSpace(TrimLeftSpace(s))
  }

  predicate IsDigit(c: char)
  {
    '0' <= c <= '9'
  }

  function DigitChar(d: nat): char
    requires d < 10
  {
    ['0', '1', '2', '3', '4', '5', '6', '7', '8', '9'][d]
  }

  /** The value of a string of decimal digits */
  function DigitsValue(s: string): nat
    requires forall i :: 0 <= i < |s| ==> IsDigit(s[i])
  {
    if s == [] then 0
    else
      assert IsDigit(s[|s| - 1]);
      10 * DigitsValue(s[..|s| - 1]) + (s[|s| - 1] as int - '0' as int)
  }

  /** strconv.Itoa for non-negative values (fmt's %d) */
  function NatToString(n: nat): (r: string)
    ensures r != []
    ensures forall i :: 0 <= i < |r| ==> IsDigit(r[i])
    ensures DigitsValue(r) == n
  {
    if n < 10 then [DigitChar(n)]
    else
      var r := NatToString(n / 10) + [DigitChar(n % 10)];
      assert r[..|r| - 1] == NatToString(n / 10);
      r
  }

  predicate AllDigits(s: string)
  {
    forall i :: 0 <= i < |s| ==> IsDigit(s[i])
  }

  /** What follows an optional leading sign */
  function SignFree(s: string): string
  {
    if s != [] && (s[0] == '-' || s[0] == '+') then s[1..] else s
  }

  const MinInt64: int := -0x8000_0000_0000_0000
  const MaxInt64: int := 0x7FFF_FFFF_FFFF_FFFF

  /**
   * strconv.Atoi on a 64-bit platform: an optional sign, then one or more
   * decimal digits, the value within the int64 range; anything else fails.
   */
  function Atoi(s: string): (r: Option<int>)
    ensures r.Some? ==> MinInt64 <= r.value <= MaxInt64
  {
    var neg := s != [] && s[0] == '-';
    var digits := SignFree(s);
    if digits == [] || !AllDigits(digits) then None
    else
      var v: int := if neg then -(DigitsValue(digits) as int) else DigitsValue(digits);
      if MinInt64 <= v <= MaxInt64 then Some(v) else None
  }

  lemma AtoiDigits(s: string)
    requires s != [] && forall i :: 0 <= i < |s| ==> IsDigit(s[i])
    requires DigitsValue(s) <= MaxInt64
    ensures Atoi(s) == Some(DigitsValue(s))
  {
  }

  /** A run of digits with no sign reads its value; one outside the int64 range fails */
  lemma AtoiUnsigned(d: string)
    requires d != [] && forall i :: 0 <= i < |d| ==> IsDigit(d[i])
    ensures Atoi(d) == if DigitsValue(d) <= MaxInt64 then Some(DigitsValue(d) as int) else None
  {
    assert d[0] != '-' && d[0] != '+';
  }

  /** A '+' before a run of digits changes nothing */
  lemma AtoiPlus(d: string)
    requires d != [] && forall i :: 0 <= i < |d| ==> IsDigit(d[i])
    ensures Atoi("+" + d) == Atoi(d)
  {
    var p := "+" + d;
    assert p[0] == '+' && p[1..] == d;
    assert d[0] != '-' && d[0] != '+';
  }

  /** A '-' before a run of digits negates its value; one below the int64 range fails */
  lemma AtoiMinus(d: string)
    requires d != [] && forall i :: 0 <= i < |d| ==> IsDigit(d[i])
    ensures Atoi("-" + d) == if DigitsValue(d) <= -MinInt64 then Some(-(DigitsValue(d) as int)) else None
  {
    var p := "-" + d;
    assert p[0] == '-' && p[1..] == d;
  }

  /**
   * Everything else fails: the empty string, a lone sign, a first
   * character that is neither a sign nor a digit, and a non-digit after
   * the first character.
   */
  lemma AtoiRejects(s: string)
    ensures s == [] || s == "-" || s == "+" ==> Atoi(s).None?
    ensures s != [] && s[0] != '-' && s[0] != '+' && !IsDigit(s[0]) ==> Atoi(s).None?
    ensures (exists i :: 0 < i < |s| && !IsDigit(s[i])) ==> Atoi(s).None?
  {
    if s == "-" || s == "+" {
      assert SignFree(s) == [];
    } else if s != [] && s[0] != '-' && s[0] != '+' && !IsDigit(s[0]) {
      assert SignFree(s)[0] == s[0];
    }
    if exists i :: 0 < i < |s| && !IsDigit(s[i]) {
      var i :| 0 < i < |s| && !IsDigit(s[i]);
      var digits := SignFree(s);
      if s[0] == '-' || s[0] == '+' {
        assert digits[i - 1] == s[i];
      } else {
        assert digits[i] == s[i];
      }
      assert !AllDigits(digits);
    }
  }

  // ---------------------------------------------------------------------
  // sort.Strings: byte-wise lexicographic order and an insertion sort
  // ---------------------------------------------------------------------

  /** a <= b in Go's string comparison */
  predicate LessEq(a: string, b: string)
    decreases |a|
  {
    a == [] || (b != [] && (a[0] < b[0] || (a[0] == b[0] && LessEq(a[1..], b[1..]))))
  }

  lemma {:induction false} LessEqTotal(a: string, b: string)
    ensures LessEq(a, b) || LessEq(b, a)
    decreases |a|
  {
    if a != [] && b != [] && a[0] == b[0] {
      LessEqTotal(a[1..], b[1..]);
    }
  }

  lemma {:induction false} LessEqTransitive(a: string, b: string, c: string)
    requires LessEq(a, b) && LessEq(b, c)
    ensures LessEq(a, c)
    decreases |a|
  {
    if a != [] && a[0] == b[0] && b[0] == c[0] {
      LessEqTransitive(a[1..], b[1..], c[1..]);
    }
  }

  lemma {:induction false} LessEqAntisymmetric(a: string, b: string)
    requires LessEq(a, b) && LessEq(b, a)
    ensures a == b
    decreases |a|
  {
    if a != [] {
      LessEqAntisymmetric(a[1..], b[1..]);
      assert a == [a[0]] + a[1..] && b == [b[0]] + b[1..];
    }
  }

  predicate Sorted(s: seq<string>)
  {
    forall i, j :: 0 <= i < j < |s| ==> LessEq(s[i], s[j])
  }

  function Insert(x: string, s: seq<string>): (r: seq<string>)
    requires Sorted(s)
    ensures Sorted(r)
    ensures multiset(r) == multiset(s) + multiset{x}
  {
    if s == [] then [x]
    else if LessEq(x, s[0]) then
      SortedCons(x, s);
      [x] + s
    else
      LessEqTotal(x, s[0]);
      var rest := Insert(x, s[1..]);
      assert s == [s[0]] + s[1..];
      SortedConsInserted(s[0], x, s[1..], rest);
      [s[0]] + rest
  }

  /** An element no greater than the head of a sorted sequence can go in front of it */
  lemma SortedCons(x: string, s: seq<string>)
    requires Sorted(s) && s != [] && LessEq(x, s[0])
    ensures Sorted([x] + s)
  {
    forall j | 0 <= j < |s| ensures LessEq(x, s[j]) {
      if j > 0 { LessEqTransitive(x, s[0], s[j]); }
    }
  }

  /** `y` stays in front when `x`, no smaller than `y`, is inserted behind it */
  lemma SortedConsInserted(y: string, x: string, tail: seq<string>, rest: seq<string>)
    requires Sorted([y] + tail) && Sorted(rest) && LessEq(y, x)
    requires multiset(rest) == multiset(tail) + multiset{x}
    ensures Sorted([y] + rest)
  {
    forall j | 0 <= j < |rest| ensures LessEq(y, rest[j]) {
      assert rest[j] in multiset(rest);
      if rest[j] != x {
        assert rest[j] in multiset(tail);
        var k :| 0 <= k < |tail| && tail[k] == rest[j];
        assert ([y] + tail)[0] == y && ([y] + tail)[k + 1] == tail[k];
      }
    }
    forall i, j | 0 <= i < j < |[y] + rest| ensures LessEq(([y] + rest)[i], ([y] + rest)[j]) {
      if i > 0 { assert ([y] + rest)[i] == rest[i - 1]; }
    }
  }


  /** sort.Strings: ascending, and a permutation of the input */
  function SortStrings(s: seq<string>): (r: seq<string>)
    ensures Sorted(r)
    ensures multiset(r) == multiset(s)
  {
    if s == [] then []
    else
      assert s == s[..|s| - 1] + [s[|s| - 1]];
      Insert(s[|s| - 1], SortStrings(s[..|s| - 1]))
  }

  // ---------------------------------------------------------------------
  // path/filepath, for slash-separated paths
  // ---------------------------------------------------------------------

  /** filepath.IsAbs */
  predicate IsAbs(p: string)
  {
    HasPrefix(p, "/")
  }

  /** A tool's path argument: an absolute path as given, a relative one under the working directory */
  function Resolve(workDir: string, p: string): (r: string)
    ensures IsAbs(p) ==> r == p
    ensures !IsAbs(p) ==> r == workDir + "/" + p
  {
    if IsAbs(p) then p else workDir + "/" + p
  }

  /** Under an absolute working directory every resolved path is absolute */
  lemma ResolveIsAbs(workDir: string, p: string)
    requires IsAbs(workDir)
    ensures IsAbs(Resolve(workDir, p))
  {
    if !IsAbs(p) {
      assert (workDir + "/" + p)[..1] == workDir[..1];
    }
  }
}
