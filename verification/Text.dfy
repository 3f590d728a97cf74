/**
  The string operations the operator takes from the Go library, over strings read as
  sequences of characters: trimming, splitting and joining on one separator, decimal
  numerals, and the byte order used for sorting.
*/
module Text {

  datatype Option<+T> = None | Some(value: T) {
    function GetOr(default: T): T {
      match this
      case Some(v) => v
      case None => default
    }
  }

  datatype Result<+T, +E> = Ok(value: T) | Err(error: E)

  // ------------------------------------------------------------- sequences

  /** Each element's results, in order. */
  function FlatMap<A, B>(f: A -> seq<B>, xs: seq<A>): seq<B> {
    if xs == [] then [] else FlatMap(f, xs[..|xs| - 1]) + f(xs[|xs| - 1])
  }

  lemma {:induction false} FlatMapConcat<A, B>(f: A -> seq<B>, xs: seq<A>, ys: seq<A>)
    ensures FlatMap(f, xs + ys) == FlatMap(f, xs) + FlatMap(f, ys)
  {
    if ys == [] {
      assert xs + ys == xs;
    } else {
      var front, last := ys[..|ys| - 1], ys[|ys| - 1];
      assert (xs + ys)[..|xs + ys| - 1] == xs + front && (xs + ys)[|xs + ys| - 1] == last;
      FlatMapConcat(f, xs, front);
    }
  }

  lemma FlatMapStep<A, B>(f: A -> seq<B>, xs: seq<A>, i: nat)
    requires i < |xs|
    ensures FlatMap(f, xs[..i + 1]) == FlatMap(f, xs[..i]) + f(xs[i])
  {
    assert xs[..i + 1][..i] == xs[..i];
  }

  lemma FlatMapNone<A, B>(f: A -> seq<B>, xs: seq<A>)
    ensures FlatMap(f, xs[..0]) == []
  {
  }

  lemma FlatMapOne<A, B>(f: A -> seq<B>, x: A)
    ensures FlatMap(f, [x]) == f(x)
  {
    assert [x][..0] == [];
  }

  lemma {:induction false} FlatMapFrom<A, B>(f: A -> seq<B>, xs: seq<A>, y: B)
    requires y in FlatMap(f, xs)
    ensures exists i :: 0 <= i < |xs| && y in f(xs[i])
  {
    var front := xs[..|xs| - 1];
    if y in FlatMap(f, front) {
      FlatMapFrom(f, front, y);
      var i :| 0 <= i < |front| && y in f(front[i]);
      assert xs[i] == front[i];
    }
  }

  // ---------------------------------------------------------------- trimming

  /** The ASCII white space, as a set of characters to cut. */
  const SPACES := " \t\n\r\U{0B}\U{0C}"

  /** The first position from i on that is not to be cut. */
  function SkipLeft(s: string, cut: string, i: nat): (lo: nat)
    requires i <= |s|
    ensures i <= lo <= |s|
    decreases |s| - i
  {
    if i < |s| && s[i] in cut then SkipLeft(s, cut, i + 1) else i
  }

  /** The end of what is kept when cutting back from j, but not below lo. */
  function SkipRight(s: string, cut: string, lo: nat, j: nat): (hi: nat)
    requires lo <= j <= |s|
    ensures lo <= hi <= j
  {
    if lo < j && s[j - 1] in cut then SkipRight(s, cut, lo, j - 1) else j
  }

  /** strings.Trim: everything between the cut characters at the two ends. */
  function Trim(s: string, cut: string): string {
    var lo := SkipLeft(s, cut, 0);
    s[lo..SkipRight(s, cut, lo, |s|)]
  }

  function TrimSpace(s: string): string {
    Trim(s, SPACES)
  }

  predicate Within(s: string, chars: string) {
    forall i :: 0 <= i < |s| ==> s[i] in chars
  }

  /** Nothing to cut at either end. */
  predicate Tight(s: string, cut: string) {
    s != "" ==> s[0] !in cut && s[|s| - 1] !in cut
  }

  lemma {:induction false} SkipLeftStops(s: string, cut: string, i: nat)
    requires i <= |s|
    ensures var lo := SkipLeft(s, cut, i);
            (lo < |s| ==> s[lo] !in cut) && forall k :: i <= k < lo ==> s[k] in cut
    decreases |s| - i
  {
    if i < |s| && s[i] in cut {
      SkipLeftStops(s, cut, i + 1);
    }
  }

  lemma {:induction false} SkipRightStops(s: string, cut: string, lo: nat, j: nat)
    requires lo <= j <= |s|
    ensures var hi := SkipRight(s, cut, lo, j);
            (lo < hi ==> s[hi - 1] !in cut) && forall k :: hi <= k < j ==> s[k] in cut
  {
    if lo < j && s[j - 1] in cut {
      SkipRightStops(s, cut, lo, j - 1);
    }
  }

  /** Trimming removes exactly the padding around a tight string. */
  lemma TrimPadded(a: string, s: string, b: string, cut: string)
    requires Within(a, cut) && Within(b, cut) && Tight(s, cut)
    ensures Trim(a + s + b, cut) == s
  {
    var t := a + s + b;
    var lo := SkipLeft(t, cut, 0);
    var hi := SkipRight(t, cut, lo, |t|);
    SkipLeftStops(t, cut, 0);
    SkipRightStops(t, cut, lo, |t|);
    assert forall k :: 0 <= k < |a| ==> t[k] == a[k];
    assert forall k :: 0 <= k < |s| ==> t[|a| + k] == s[k];
    assert forall k :: 0 <= k < |b| ==> t[|a| + |s| + k] == b[k];
    if s == "" {
      assert lo == |t|;
    } else {
      assert t[|a|] == s[0] && t[|a| + |s| - 1] == s[|s| - 1];
      assert lo == |a|;
      assert hi == |a| + |s|;
    }
  }

  /** What is left is tight; the length is kept exactly for tight strings, which do not change. */
  lemma TrimShape(s: string, cut: string)
    ensures Tight(Trim(s, cut), cut)
    ensures |Trim(s, cut)| <= |s|
    ensures |Trim(s, cut)| == |s| <==> Tight(s, cut)
    ensures Tight(s, cut) ==> Trim(s, cut) == s
    ensures s != "" && s[0] !in cut && Trim(s, cut) != "" ==> Trim(s, cut)[0] == s[0]
  {
    SkipLeftStops(s, cut, 0);
    SkipRightStops(s, cut, SkipLeft(s, cut, 0), |s|);
    if |Trim(s, cut)| == |s| || Tight(s, cut) {
      assert s[0..|s|] == s;
    }
  }

  /** Only white space: blank, tab, line feed, vertical tab, form feed, carriage return. */
  predicate White(s: string) {
    forall i :: 0 <= i < |s| ==> s[i] == ' ' || '\t' <= s[i] <= '\r'
  }

  lemma WhiteIsWithin(s: string)
    ensures White(s) <==> Within(s, SPACES)
  {
    assert SPACES[0] == ' ' && SPACES[1] == '\t' && SPACES[2] == '\n' && SPACES[3] == '\r';
    assert SPACES[4] as int == 11 && SPACES[5] as int == 12;
    assert forall c :: c in SPACES <==> c == ' ' || '\t' <= c <= '\r' by {
      forall c ensures c in SPACES <==> c == ' ' || '\t' <= c <= '\r' {
        if c == ' ' || '\t' <= c <= '\r' {
          assert c as int == 32 || 9 <= c as int <= 13;
        }
      }
    }
  }

  lemma CutInThree(s: string, lo: nat, hi: nat)
    requires lo <= hi <= |s|
    ensures s == s[..lo] + s[lo..hi] + s[hi..]
  {
    assert s[..hi] == s[..lo] + s[lo..hi];
    assert s == s[..hi] + s[hi..];
  }

  /** Trimming cuts s in three: what is cut on the left, a tight rest, what is cut on the right. */
  lemma TrimParts(s: string, cut: string) returns (l: string, r: string)
    ensures s == l + Trim(s, cut) + r && Within(l, cut) && Within(r, cut) && Tight(Trim(s, cut), cut)
  {
    var lo := SkipLeft(s, cut, 0);
    var hi := SkipRight(s, cut, lo, |s|);
    SkipLeftStops(s, cut, 0);
    SkipRightStops(s, cut, lo, |s|);
    TrimShape(s, cut);
    CutInThree(s, lo, hi);
    l, r := s[..lo], s[hi..];
    assert Trim(s, cut) == s[lo..hi];
    hide SkipLeft, SkipRight, Trim, Tight;
    assert Within(l, cut);
    forall i | 0 <= i < |r| ensures r[i] in cut {
      assert r[i] == s[hi + i];
    }
  }

  // ------------------------------------------------------- splitting, joining

  /** Position of the first c in s, or |s| when there is none. */
  function IndexOf(s: string, c: char): (i: nat)
    ensures i <= |s|
    ensures i < |s| ==> s[i] == c
    ensures forall k :: 0 <= k < i ==> s[k] != c
  {
    if s == "" || s[0] == c then 0 else 1 + IndexOf(s[1..], c)
  }

  function Split(s: string, sep: char): (parts: seq<string>)
    ensures |parts| >= 1
    decreases |s|
  {
    var i := IndexOf(s, sep);
    if i == |s| then [s] else [s[..i]] + Split(s[i + 1..], sep)
  }

  function Join(parts: seq<string>, sep: char): string {
    if parts == [] then ""
    else if |parts| == 1 then parts[0]
    else parts[0] + [sep] + Join(parts[1..], sep)
  }

  function Splitter(sep: char): string -> seq<string> {
    s => Split(s, sep)
  }

  lemma IndexOfUnique(s: string, c: char, i: nat)
    requires i <= |s| && (i < |s| ==> s[i] == c)
    requires forall k :: 0 <= k < i ==> s[k] != c
    ensures IndexOf(s, c) == i
  {
  }

  /** Splitting, unfolded once. */
  lemma SplitStep(s: string, sep: char)
    ensures var i := IndexOf(s, sep);
            Split(s, sep) == if i == |s| then [s] else [s[..i]] + Split(s[i + 1..], sep)
  {
    hide IndexOf;
  }

  /** Splitting works separately on the two sides of a separator. */
  lemma {:induction false} SplitConcat(a: string, sep: char, b: string)
    ensures Split(a + [sep] + b, sep) == Split(a, sep) + Split(b, sep)
    decreases |a|
  {
    hide Split;
    var s := a + [sep] + b;
    var i := IndexOf(a, sep);
    IndexOfUnique(s, sep, i);
    hide IndexOf;
    SplitStep(a, sep);
    SplitStep(s, sep);
    assert s[..i] == a[..i];
    if i == |a| {
      assert s[i + 1..] == b && a[..i] == a;
    } else {
      assert s[i + 1..] == a[i + 1..] + [sep] + b;
      SplitConcat(a[i + 1..], sep, b);
    }
  }

  /** Splitting a joined text splits each part. */
  lemma {:induction false} SplitJoin(parts: seq<string>, sep: char)
    requires parts != []
    ensures Split(Join(parts, sep), sep) == FlatMap(Splitter(sep), parts)
  {
    FlatMapOne(Splitter(sep), parts[0]);
    hide Split;
    if |parts| == 1 {
      assert parts == [parts[0]];
    } else {
      assert parts == [parts[0]] + parts[1..];
      FlatMapConcat(Splitter(sep), [parts[0]], parts[1..]);
      SplitConcat(parts[0], sep, Join(parts[1..], sep));
      SplitJoin(parts[1..], sep);
    }
  }

  lemma SplitAtom(s: string, sep: char)
    requires sep !in s
    ensures Split(s, sep) == [s]
  {
    assert IndexOf(s, sep) == |s|;
  }

  lemma {:induction false} SplitJoinAtoms(parts: seq<string>, sep: char)
    requires parts != [] && forall p :: p in parts ==> sep !in p
    ensures Split(Join(parts, sep), sep) == parts
  {
    hide Split;
    SplitAtom(parts[0], sep);
    if |parts| > 1 {
      SplitConcat(parts[0], sep, Join(parts[1..], sep));
      SplitJoinAtoms(parts[1..], sep);
    }
  }

  lemma {:induction false} SplitPieces(s: string, sep: char)
    ensures forall p :: p in Split(s, sep) ==> |p| <= |s| && sep !in p
    ensures forall i :: 0 < i < |Split(s, sep)| ==> IndexOf(s, sep) + 1 + |Split(s, sep)[i]| <= |s|
    ensures Split(s, sep)[0] == s[..IndexOf(s, sep)]
    decreases |s|
  {
    hide Split, IndexOf;
    SplitStep(s, sep);
    if IndexOf(s, sep) < |s| {
      SplitPieces(s[IndexOf(s, sep) + 1..], sep);
    }
  }

  // ------------------------------------------------------------- prefixes

  predicate HasPrefix(s: string, prefix: string) {
    |prefix| <= |s| && s[..|prefix|] == prefix
  }

  function TrimSuffix(s: string, suffix: string): string {
    if |suffix| <= |s| && s[|s| - |suffix|..] == suffix then s[..|s| - |suffix|] else s
  }

  predicate Contains(s: string, part: string) {
    exists i :: 0 <= i <= |s| && HasPrefix(s[i..], part)
  }

  /** The part stands somewhere in the middle. */
  lemma ContainsMeaning(s: string, part: string)
    ensures Contains(s, part) <==> exists a, b :: s == a + part + b
  {
    if Contains(s, part) {
      var i :| 0 <= i <= |s| && HasPrefix(s[i..], part);
      assert s == s[..i] + part + s[i + |part|..];
    }
    if exists a, b :: s == a + part + b {
      var a, b :| s == a + part + b;
      assert s[|a|..] == part + b;
      assert HasPrefix(s[|a|..], part);
    }
  }

  /** One suffix is taken off, when there is one. */
  lemma TrimSuffixMeaning(s: string, suffix: string)
    ensures TrimSuffix(s + suffix, suffix) == s
    ensures TrimSuffix(s, suffix) == s || TrimSuffix(s, suffix) + suffix == s
  {
  }

  function Remove(s: string, c: char): string {
    if s == "" then ""
    else if s[0] == c then Remove(s[1..], c)
    else [s[0]] + Remove(s[1..], c)
  }

  lemma {:induction false} RemoveConcat(a: string, b: string, c: char)
    ensures Remove(a + b, c) == Remove(a, c) + Remove(b, c)
  {
    if a == "" {
      assert a + b == b;
    } else {
      assert (a + b)[1..] == a[1..] + b;
      RemoveConcat(a[1..], b, c);
    }
  }

  lemma {:induction false} RemoveAbsent(s: string, c: char)
    requires c !in s
    ensures Remove(s, c) == s
  {
    if s != "" {
      RemoveAbsent(s[1..], c);
    }
  }

  // ------------------------------------------------------------- numerals

  predicate IsDigit(c: char) { '0' <= c <= '9' }

  /** Only digits from position i on. */
  predicate AllDigits(s: string, i: nat) {
    forall k :: i <= k < |s| ==> IsDigit(s[k])
  }

  function Digit(d: nat): char
    requires d < 10
  {
    '0' + d as char
  }

  /** The value of the decimal digits in s[i..j]. */
  function Digits(s: string, i: nat, j: nat): nat
    requires i <= j <= |s| && AllDigits(s, i)
  {
    if i == j then 0 else 10 * Digits(s, i, j - 1) + (s[j - 1] as int - '0' as int)
  }

  predicate Signed(s: string) {
    s != "" && (s[0] == '+' || s[0] == '-')
  }

  /** A decimal numeral with an optional sign, as strconv.ParseInt reads base 10. */
  function Numeral(s: string): Option<int> {
    var start := if Signed(s) then 1 else 0;
    if |s| == start || !AllDigits(s, start) then None
    else
      var magnitude: int := Digits(s, start, |s|);
      Some(if Signed(s) && s[0] == '-' then -magnitude else magnitude)
  }

  /** strconv.ParseInt(s, 10, 16). */
  function ParseInt16(s: string): Option<int> {
    match Numeral(s)
    case Some(v) => if -32768 <= v <= 32767 then Some(v) else None
    case None => None
  }

  /** strconv.ParseUint(s, 10, 8): no sign. */
  function ParseUint8(s: string): Option<int> {
    if s == "" || !AllDigits(s, 0) || Digits(s, 0, |s|) > 255 then None else Some(Digits(s, 0, |s|))
  }

  /** Go's %d for a non-negative number. */
  function Decimal(n: nat): string {
    if n < 10 then [Digit(n)] else Decimal(n / 10) + [Digit(n % 10)]
  }

  lemma {:induction false} DigitsPrefix(s: string, t: string, j: nat)
    requires j <= |s| && j <= |t| && AllDigits(s, 0) && AllDigits(t, 0) && s[..j] == t[..j]
    ensures Digits(s, 0, j) == Digits(t, 0, j)
  {
    if j > 0 {
      assert s[..j][..j - 1] == s[..j - 1] && t[..j][..j - 1] == t[..j - 1];
      assert s[..j][j - 1] == t[..j][j - 1];
      DigitsPrefix(s, t, j - 1);
    }
  }

  /** Printing and reading decimal numerals are inverse. */
  lemma {:induction false} DecimalRoundTrip(n: nat)
    ensures Decimal(n) != "" && AllDigits(Decimal(n), 0) && Digits(Decimal(n), 0, |Decimal(n)|) == n
    ensures Numeral(Decimal(n)) == Some(n)
  {
    var s := Decimal(n);
    if n >= 10 {
      DecimalRoundTrip(n / 10);
      var t := Decimal(n / 10);
      assert s[..|t|] == t[..|t|];
      DigitsPrefix(s, t, |t|);
    }
    assert IsDigit(s[0]);
  }

  lemma {:induction false} DigitsShift(s: string, t: string, i: nat, j: nat, k: nat)
    requires i <= |s| && AllDigits(s, i) && j <= |t| && AllDigits(t, j) && i + k <= |s| && j + k <= |t|
    requires s[i..i + k] == t[j..j + k]
    ensures Digits(s, i, i + k) == Digits(t, j, j + k)
  {
    if k > 0 {
      assert s[i..i + k][k - 1] == t[j..j + k][k - 1];
      assert s[i..i + k - 1] == s[i..i + k][..k - 1] && t[j..j + k - 1] == t[j..j + k][..k - 1];
      DigitsShift(s, t, i, j, k - 1);
    }
  }

  /** Zeros at the front do not count. */
  lemma {:induction false} LeadingZero(s: string, k: nat)
    requires AllDigits(s, 0) && k <= |s|
    ensures AllDigits("0" + s, 0) && Digits("0" + s, 0, k + 1) == Digits(s, 0, k)
  {
    if k > 0 {
      LeadingZero(s, k - 1);
      assert ("0" + s)[k] == s[k - 1];
    } else {
      assert ("0" + s)[0] == '0';
    }
  }

  /** n in decimal, with any number of zeros in front. */
  function Padded(zeros: nat, n: nat): string {
    if zeros == 0 then Decimal(n) else "0" + Padded(zeros - 1, n)
  }

  lemma {:induction false} PaddedDigits(zeros: nat, n: nat)
    ensures var s := Padded(zeros, n); s != "" && AllDigits(s, 0) && Digits(s, 0, |s|) == n
  {
    if zeros == 0 {
      DecimalRoundTrip(n);
    } else {
      PaddedDigits(zeros - 1, n);
      LeadingZero(Padded(zeros - 1, n), |Padded(zeros - 1, n)|);
    }
  }

  lemma {:induction false} DigitsArePadded(s: string) returns (zeros: nat)
    requires s != "" && AllDigits(s, 0)
    ensures s == Padded(zeros, Digits(s, 0, |s|))
    decreases |s|
  {
    var rest := s[1..];
    if s[0] == '0' && rest != "" {
      assert s == "0" + rest;
      zeros := DigitsArePadded(rest);
      zeros := zeros + 1;
      LeadingZero(rest, |rest|);
    } else {
      NoZeroIsDecimal(s, |s|);
      zeros := 0;
      assert s[..|s|] == s;
    }
  }

  lemma {:induction false} NoZeroIsDecimal(s: string, k: nat)
    requires 0 < k <= |s| && AllDigits(s, 0) && (s[0] == '0' ==> k == 1)
    ensures s[..k] == Decimal(Digits(s, 0, k)) && (s[0] != '0' ==> Digits(s, 0, k) > 0)
  {
    var d := s[k - 1] as int - '0' as int;
    assert s[..k] == s[..k - 1] + [s[k - 1]] && Digit(d) == s[k - 1];
    assert Digits(s, 0, k) == 10 * Digits(s, 0, k - 1) + d;
    if k > 1 {
      NoZeroIsDecimal(s, k - 1);
    }
  }

  /** The text is v in decimal, with an optional sign and any number of zeros in front. */
  predicate Writes(s: string, v: int, zeros: nat) {
    (v >= 0 && (s == Padded(zeros, v) || s == "+" + Padded(zeros, v))) || (v <= 0 && s == "-" + Padded(zeros, -v))
  }

  lemma NumeralOfDigits(s: string, digits: string)
    requires digits != "" && AllDigits(digits, 0) && (s == digits || (Signed(s) && s[1..] == digits))
    ensures Numeral(s) == Some(if s[0] == '-' then -(Digits(digits, 0, |digits|) as int) else Digits(digits, 0, |digits|))
  {
    var start := if Signed(s) then 1 else 0;
    assert IsDigit(digits[0]);
    assert s[start..] == digits;
    assert forall k :: start <= k < |s| ==> s[k] == s[start..][k - start];
    assert AllDigits(s, start);
    assert s[start..start + |digits|] == digits[0..0 + |digits|];
    DigitsShift(s, digits, start, 0, |digits|);
    hide Digits;
  }

  /** The texts that are read as a number, and which number: these and no others. */
  lemma NumeralMeaning(s: string, v: int)
    ensures Numeral(s) == Some(v) <==> exists zeros: nat :: Writes(s, v, zeros)
  {
    if Numeral(s) == Some(v) {
      var digits := if Signed(s) then s[1..] else s;
      NumeralOfDigits(s, digits);
      var zeros := DigitsArePadded(digits);
      assert Signed(s) ==> s == [s[0]] + digits;
      assert Writes(s, v, zeros);
    }
    if zeros: nat :| Writes(s, v, zeros) {
      var n: nat := if v >= 0 then v else -v;
      PaddedDigits(zeros, n);
      assert s != Padded(zeros, n) ==> s[1..] == Padded(zeros, n);
      assert IsDigit(Padded(zeros, n)[0]);
      NumeralOfDigits(s, Padded(zeros, n));
      hide Padded, Numeral, Digits;
    }
  }

  /** An unsigned number up to 255, with any zeros in front, nothing else. */
  lemma Uint8Meaning(s: string, v: int)
    ensures ParseUint8(s) == Some(v) <==> 0 <= v <= 255 && exists zeros: nat :: s == Padded(zeros, v)
  {
    if ParseUint8(s) == Some(v) {
      var zeros := DigitsArePadded(s);
    }
    if 0 <= v <= 255 {
      forall zeros: nat | s == Padded(zeros, v) ensures ParseUint8(s) == Some(v) {
        PaddedDigits(zeros, v);
      }
    }
  }

  // ---------------------------------------------------------------- order

  /** Go's < on strings. */
  predicate Less(a: string, b: string) {
    b != "" && (a == "" || a[0] < b[0] || (a[0] == b[0] && Less(a[1..], b[1..])))
  }

  lemma {:induction false} LessTotal(a: string, b: string)
    ensures Less(a, b) || Less(b, a) || a == b
    ensures !(Less(a, b) && Less(b, a))
    ensures !Less(a, a)
  {
    if a != "" && b != "" {
      LessTotal(a[1..], b[1..]);
      if a[0] == b[0] && a[1..] == b[1..] {
        assert a == [a[0]] + a[1..] && b == [b[0]] + b[1..];
      }
    }
    if a != "" {
      LessTotal(a[1..], a[1..]);
    }
  }

  lemma {:induction false} LessTransitive(a: string, b: string, c: string)
    requires Less(a, b) && Less(b, c)
    ensures Less(a, c)
  {
    if a != "" && a[0] == b[0] && b[0] == c[0] {
      LessTransitive(a[1..], b[1..], c[1..]);
    }
  }

  /** At the first difference the smaller character decides; a proper prefix comes first. */
  lemma {:induction false} LessMeaning(a: string, b: string)
    ensures Less(a, b) <==>
      exists k :: 0 <= k <= |a| && k < |b| && a[..k] == b[..k] && (k == |a| || a[k] < b[k])
  {
    if a != "" && b != "" && a[0] == b[0] {
      var c, d := a[1..], b[1..];
      LessMeaning(c, d);
      if k :| 0 <= k <= |c| && k < |d| && c[..k] == d[..k] && (k == |c| || c[k] < d[k]) {
        assert a[..k + 1] == [a[0]] + c[..k] && b[..k + 1] == [b[0]] + d[..k];
      }
      if k :| 0 <= k <= |a| && k < |b| && a[..k] == b[..k] && (k == |a| || a[k] < b[k]) {
        assert k > 0;
        assert c[..k - 1] == a[..k][1..] && d[..k - 1] == b[..k][1..];
      }
    } else {
      assert a[..0] == b[..0];
      assert forall k :: 0 < k <= |a| && k < |b| ==> a[..k][0] == a[0] && b[..k][0] == b[0];
    }
  }
}
