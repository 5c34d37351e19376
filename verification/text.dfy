/** String helpers with the JavaScript semantics the components rely on:
    `String.prototype.includes` / `indexOf`, `split` with a string separator,
    `join`, `startsWith`, and the decimal rendering of a progress number
    inside a template literal. */
module Text {
  import opened Wrappers

  /** `pat` occurs in `s` starting at index `i`. */
  predicate OccursAt(s: string, pat: string, i: nat) {
    i + |pat| <= |s| && s[i..i + |pat|] == pat
  }

  /** `s.includes(pat)`. */
  predicate Contains(s: string, pat: string) {
    exists i: nat | i <= |s| :: OccursAt(s, pat, i)
  }

  /** `s.startsWith(prefix)`. */
  predicate StartsWith(s: string, prefix: string) {
    OccursAt(s, prefix, 0)
  }

  /** First occurrence of `pat` in `s` at or after index `k`; lemma
      `IndexFromFirst` says that it is the first. */
  function IndexFrom(s: string, pat: string, k: nat): (r: Option<nat>)
    requires k <= |s|
    ensures r.Some? ==> k <= r.value && r.value + |pat| <= |s|
    decreases |s| - k
  {
    if OccursAt(s, pat, k) then Some(k)
    else if k == |s| then None
    else IndexFrom(s, pat, k + 1)
  }

  /** `s.indexOf(pat)`, with `None` for -1. */
  function IndexOf(s: string, pat: string): (r: Option<nat>)
    ensures r.Some? ==> r.value + |pat| <= |s|
  {
    IndexFrom(s, pat, 0)
  }

  /** The search from `k` finds an occurrence with none between `k` and it,
      and finds nothing only when there is no occurrence from `k` on. */
  lemma {:induction false} IndexFromFirst(s: string, pat: string, k: nat)
    requires k <= |s|
    ensures var r := IndexFrom(s, pat, k);
            && (r.Some? ==> OccursAt(s, pat, r.value))
            && (r.Some? ==> forall j: nat | k <= j < r.value :: !OccursAt(s, pat, j))
            && (r.None? ==> forall j: nat | k <= j <= |s| :: !OccursAt(s, pat, j))
    decreases |s| - k
  {
    if !OccursAt(s, pat, k) && k < |s| {
      IndexFromFirst(s, pat, k + 1);
    }
  }

  /** `indexOf` gives the first occurrence, and -1 exactly when there is
      none. */
  lemma IndexOfFirst(s: string, pat: string)
    ensures var r := IndexOf(s, pat);
            && (r.Some? ==> OccursAt(s, pat, r.value))
            && (r.Some? ==> forall j: nat | j < r.value :: !OccursAt(s, pat, j))
            && (r.None? <==> !Contains(s, pat))
  {
    IndexFromFirst(s, pat, 0);
  }

  /** Conversely, an occurrence with none before it is what `indexOf`
      finds. */
  lemma IndexOfAt(s: string, pat: string, i: nat)
    requires OccursAt(s, pat, i)
    requires forall j: nat | j < i :: !OccursAt(s, pat, j)
    ensures IndexOf(s, pat) == Some(i)
  {
    IndexOfFirst(s, pat);
    assert Contains(s, pat);
  }

  /** `s.split(sep)` for a non-empty separator: the pieces between
      successive leftmost, non-overlapping occurrences of `sep`. */
  function Split(s: string, sep: string): (parts: seq<string>)
    requires |sep| > 0
    ensures |parts| >= 1
    decreases |s|
  {
    match IndexOf(s, sep)
    case None => [s]
    case Some(i) => [s[..i]] + Split(s[i + |sep|..], sep)
  }

  /** The text splits into a single piece exactly when the separator does
      not occur in it. */
  lemma SplitSingle(s: string, sep: string)
    requires |sep| > 0
    ensures |Split(s, sep)| == 1 <==> !Contains(s, sep)
  {
    IndexOfFirst(s, sep);
  }

  /** `parts.join(sep)`. */
  function Join(parts: seq<string>, sep: string): string
  {
    if |parts| == 0 then ""
    else if |parts| == 1 then parts[0]
    else parts[0] + sep + Join(parts[1..], sep)
  }

  /** Splitting and joining again gives back the original text. */
  lemma {:induction false} JoinSplit(s: string, sep: string)
    requires |sep| > 0
    ensures Join(Split(s, sep), sep) == s
    decreases |s|
  {
    match IndexOf(s, sep)
    case None =>
    case Some(i) =>
      IndexOfFirst(s, sep);
      var tail := s[i + |sep|..];
      JoinSplit(tail, sep);
      var rest := Split(tail, sep);
      SplitAt(s, sep, i);
      JoinCons(s[..i], rest, sep);
      assert s == s[..i] + sep + tail by {
        assert s[i..i + |sep|] == sep;
        assert s == s[..i] + s[i..i + |sep|] + tail;
      }
  }

  /** Splitting at the first occurrence of the separator. */
  lemma {:induction false} SplitAt(s: string, sep: string, i: nat)
    requires |sep| > 0 && IndexOf(s, sep) == Some(i)
    ensures i + |sep| <= |s|
    ensures Split(s, sep) == [s[..i]] + Split(s[i + |sep|..], sep)
  {
  }

  /** Joining a word in front of a non-empty list. */
  lemma JoinCons(w: string, rest: seq<string>, sep: string)
    requires |rest| >= 1
    ensures Join([w] + rest, sep) == w + sep + Join(rest, sep)
  {
    assert ([w] + rest)[1..] == rest;
  }

  /** No piece of a split contains the separator. */
  lemma {:induction false} SplitPiecesFree(s: string, sep: string)
    requires |sep| > 0
    ensures forall k | 0 <= k < |Split(s, sep)| :: !Contains(Split(s, sep)[k], sep)
    decreases |s|
  {
    IndexOfFirst(s, sep);
    match IndexOf(s, sep)
    case None =>
    case Some(i) =>
      var rest := Split(s[i + |sep|..], sep);
      SplitPiecesFree(s[i + |sep|..], sep);
      assert Split(s, sep) == [s[..i]] + rest;
      forall j: nat | j <= i
        ensures !OccursAt(s[..i], sep, j)
      {
        if j + |sep| <= i {
          assert s[..i][j..j + |sep|] == s[j..j + |sep|];
          assert !OccursAt(s, sep, j);
        }
      }
  }

  /** A character that does not occur in `w` gives no occurrence of the
      one-character separator in `w`. */
  lemma NoCharNoOccurrence(w: string, c: char)
    requires c !in w
    ensures !Contains(w, [c])
  {
    forall i: nat | i <= |w|
      ensures !OccursAt(w, [c], i)
    {
      if i + 1 <= |w| {
        assert w[i..i + 1][0] == w[i];
      }
    }
  }

  /** Joining words that do not contain `c` with `c`, then splitting on
      `c`, gives back the words: the split is the inverse of the join. */
  lemma {:induction false} SplitJoin(ws: seq<string>, c: char)
    requires |ws| >= 1
    requires forall k | 0 <= k < |ws| :: c !in ws[k]
    ensures Split(Join(ws, [c]), [c]) == ws
    decreases |ws|
  {
    if |ws| == 1 {
      NoCharNoOccurrence(ws[0], c);
      IndexOfFirst(ws[0], [c]);
    } else {
      var w := ws[0];
      var tail := Join(ws[1..], [c]);
      var s := w + [c] + tail;
      assert Join(ws, [c]) == s;
      assert OccursAt(s, [c], |w|) by {
        assert s[|w|..|w| + 1] == [c];
      }
      forall j: nat | j < |w|
        ensures !OccursAt(s, [c], j)
      {
        assert s[j..j + 1][0] == s[j] == w[j];
      }
      IndexOfAt(s, [c], |w|);
      assert s[..|w|] == w;
      assert s[|w| + 1..] == tail;
      SplitJoin(ws[1..], c);
      assert Split(s, [c]) == [w] + ws[1..];
    }
  }

  /** Joining a concatenation of two non-empty word lists. */
  lemma {:induction false} JoinAppend(a: seq<string>, b: seq<string>, sep: string)
    requires |a| >= 1 && |b| >= 1
    ensures Join(a + b, sep) == Join(a, sep) + sep + Join(b, sep)
    decreases |a|
  {
    if |a| == 1 {
      assert (a + b)[1..] == b;
    } else {
      assert (a + b)[1..] == a[1..] + b;
      JoinAppend(a[1..], b, sep);
    }
  }

  // ---------------------------------------------------------------------
  // Decimal rendering of progress numbers (`${n}` in a template literal)
  // ---------------------------------------------------------------------

  predicate IsDigit(c: char) {
    '0' <= c <= '9'
  }

  predicate AllDigits(s: string) {
    forall i | 0 <= i < |s| :: IsDigit(s[i])
  }

  function DigitChar(d: nat): (c: char)
    requires d < 10
    ensures IsDigit(c)
    ensures c as int - '0' as int == d
  {
    ('0' as int + d) as char
  }

  /** The decimal numeral of `n`, without leading zeros. */
  function NatToString(n: nat): (s: string)
    ensures |s| >= 1 && AllDigits(s)
    ensures s[0] == '0' ==> s == "0"
    decreases n
  {
    if n < 10 then [DigitChar(n)] else NatToString(n / 10) + [DigitChar(n % 10)]
  }

  /** The number a string of decimal digits denotes. */
  function DecimalValue(s: string): nat
    requires AllDigits(s)
    decreases |s|
  {
    if |s| == 0 then 0
    else DecimalValue(s[..|s| - 1]) * 10 + (s[|s| - 1] as int - '0' as int)
  }

  /** Reading a rendered number back gives the number. */
  lemma {:induction false} DecimalRoundTrip(n: nat)
    ensures DecimalValue(NatToString(n)) == n
    decreases n
  {
    var s := NatToString(n);
    if n >= 10 {
      DecimalRoundTrip(n / 10);
      assert s[..|s| - 1] == NatToString(n / 10);
    }
  }

  /** Rendering is injective: different progress values give different text. */
  lemma NatToStringInjective(m: nat, n: nat)
    requires NatToString(m) == NatToString(n)
    ensures m == n
  {
    DecimalRoundTrip(m);
    DecimalRoundTrip(n);
  }
}
