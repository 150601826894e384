/** Shared vocabulary: an optional value, the few string operations the
    Python and JavaScript code relies on (with their exact semantics),
    decimal formatting, and order-preserving filters, deduplication and a
    stable sort over sequences. */
module Common {

  datatype Option<T> = None | Some(value: T)

  /** A value, or the exception the source raises instead. */
  datatype Result<T, E> = Ok(value: T) | Err(error: E)

  // ---------------------------------------------------------------------------
  // Sequences
  // ---------------------------------------------------------------------------

  /** No element occurs twice. */
  predicate Distinct<T(==)>(s: seq<T>) {
    forall i, j :: 0 <= i < j < |s| ==> s[i] != s[j]
  }

  /** Python `s[:n]`: the first n elements, or all of them when there are fewer. */
  function Take<T>(s: seq<T>, n: nat): (r: seq<T>)
    ensures |r| == if n < |s| then n else |s|
    ensures r == s[..|r|]
  {
    if n < |s| then s[..n] else s
  }

  /** A slice grows by the element at its end. */
  /** A slice of a slice is a slice of the whole. */
  lemma SliceOfSlice<T>(s: seq<T>, i: nat, j: nat, a: nat, b: nat)
    requires i <= j <= |s| && a <= b <= j - i
    ensures s[i..j][a..b] == s[i + a..i + b]
  {
    forall k | 0 <= k < b - a
      ensures s[i..j][a..b][k] == s[i + a..i + b][k]
    {
      assert s[i..j][a..b][k] == s[i..j][a + k];
    }
  }

  lemma SliceSnoc<T>(s: seq<T>, i: nat, k: nat)
    requires i <= k < |s|
    ensures s[i..k + 1] == s[i..k] + [s[k]]
  {
  }

  /** One more element of a prefix. */
  lemma TakeSnoc<T>(s: seq<T>, i: nat)
    requires i < |s|
    ensures s[..i + 1] == s[..i] + [s[i]]
  {
  }

  /** Order-preserving filter, written from the end so that a loop that
      appends element by element follows it directly. */
  function Filter<T>(s: seq<T>, p: T -> bool): seq<T>
  {
    if s == [] then [] else Filter(s[..|s| - 1], p) + (if p(s[|s| - 1]) then [s[|s| - 1]] else [])
  }

  lemma {:induction false} FilterMembers<T>(s: seq<T>, p: T -> bool)
    ensures |Filter(s, p)| <= |s|
    ensures forall x :: x in Filter(s, p) <==> x in s && p(x)
  {
    if s != [] {
      FilterMembers(s[..|s| - 1], p);
      assert s == s[..|s| - 1] + [s[|s| - 1]];
    }
  }

  /** Appending one element extends the filter by at most that element. */
  lemma FilterSnoc<T>(s: seq<T>, x: T, p: T -> bool)
    ensures Filter(s + [x], p) == Filter(s, p) + (if p(x) then [x] else [])
  {
    assert (s + [x])[..|s + [x]| - 1] == s;
  }

  /** A non-empty sequence is its front followed by its last element. */
  lemma InitLast<T>(s: seq<T>)
    requires s != []
    ensures s == s[..|s| - 1] + [s[|s| - 1]]
  {
  }

  /** The k-th element after the head is element k + 1. */
  lemma TailIndex<T>(s: seq<T>, k: nat)
    requires k + 1 < |s|
    ensures s[1..][k] == s[k + 1]
  {
  }

  /** A sequence with one more element is distinct exactly when the
      shorter one is and does not hold that element. */
  lemma DistinctSnoc<T>(s: seq<T>, x: T)
    ensures Distinct(s + [x]) <==> Distinct(s) && x !in s
  {
    var t := s + [x];
    assert forall i :: 0 <= i < |s| ==> t[i] == s[i];
    if Distinct(t) {
      assert x !in s by {
        forall i | 0 <= i < |s| ensures s[i] != x {
          assert t[i] != t[|s|];
        }
      }
    }
  }

  /** Order-preserving map-and-filter: keep the Some values of f. */
  function Select<T, U>(s: seq<T>, f: T -> Option<U>): seq<U>
  {
    if s == [] then []
    else Select(s[..|s| - 1], f) + (if f(s[|s| - 1]).Some? then [f(s[|s| - 1]).value] else [])
  }

  lemma SelectSnoc<T, U>(s: seq<T>, x: T, f: T -> Option<U>)
    ensures Select(s + [x], f) == Select(s, f) + (if f(x).Some? then [f(x).value] else [])
  {
    assert (s + [x])[..|s + [x]| - 1] == s;
  }

  /** Every selected value comes from some element, and every element that
      yields a value contributes it. */
  lemma {:induction false} SelectMembers<T, U>(s: seq<T>, f: T -> Option<U>)
    ensures |Select(s, f)| <= |s|
    ensures forall u :: u in Select(s, f) ==> exists i :: 0 <= i < |s| && f(s[i]) == Some(u)
    ensures forall i :: 0 <= i < |s| && f(s[i]).Some? ==> f(s[i]).value in Select(s, f)
  {
    if s != [] {
      var init := s[..|s| - 1];
      SelectMembers(init, f);
      forall u | u in Select(s, f) ensures exists i :: 0 <= i < |s| && f(s[i]) == Some(u) {
        if u in Select(init, f) {
          var i :| 0 <= i < |init| && f(init[i]) == Some(u);
          assert s[i] == init[i];
        } else {
          assert f(s[|s| - 1]) == Some(u);
        }
      }
      forall i | 0 <= i < |s| && f(s[i]).Some? ensures f(s[i]).value in Select(s, f) {
        if i < |init| {
          assert s[i] == init[i];
        }
      }
    }
  }

  /** First occurrences only, in order of first appearance. */
  function Dedup<T(==)>(s: seq<T>): seq<T>
  {
    if s == [] then []
    else
      var d := Dedup(s[..|s| - 1]);
      if s[|s| - 1] in d then d else d + [s[|s| - 1]]
  }

  lemma {:induction false} DedupProps<T>(s: seq<T>)
    ensures Distinct(Dedup(s))
    ensures forall x :: x in Dedup(s) <==> x in s
    ensures |Dedup(s)| <= |s|
  {
    if s != [] {
      DedupProps(s[..|s| - 1]);
      assert s == s[..|s| - 1] + [s[|s| - 1]];
    }
  }

  lemma DedupSnoc<T>(s: seq<T>, x: T)
    ensures Dedup(s + [x]) == if x in Dedup(s) then Dedup(s) else Dedup(s) + [x]
  {
    assert (s + [x])[..|s + [x]| - 1] == s;
  }

  /** Filtering and deduplicating a prefix gives a prefix of the result for
      the whole sequence. */
  lemma {:induction false} DedupFilterPrefix<T>(s: seq<T>, j: nat, p: T -> bool)
    requires j <= |s|
    ensures var a := Dedup(Filter(s[..j], p)); var b := Dedup(Filter(s, p));
      |a| <= |b| && b[..|a|] == a
    decreases |s| - j
  {
    if j < |s| {
      DedupFilterPrefix(s, j + 1, p);
      DedupFilterStep(s, j, p);
      PrefixOfPrefix(Dedup(Filter(s[..j], p)), Dedup(Filter(s[..j + 1], p)), Dedup(Filter(s, p)));
    } else {
      assert s[..j] == s;
    }
  }

  lemma DedupFilterStep<T>(s: seq<T>, j: nat, p: T -> bool)
    requires j < |s|
    ensures var a := Dedup(Filter(s[..j], p)); var a' := Dedup(Filter(s[..j + 1], p));
      |a| <= |a'| && a'[..|a|] == a
  {
    assert s[..j + 1] == s[..j] + [s[j]];
    FilterSnoc(s[..j], s[j], p);
    if p(s[j]) {
      DedupSnoc(Filter(s[..j], p), s[j]);
    } else {
      assert Filter(s[..j + 1], p) == Filter(s[..j], p);
    }
  }

  lemma PrefixOfPrefix<T>(a: seq<T>, b: seq<T>, c: seq<T>)
    requires |a| <= |b| && b[..|a|] == a
    requires |b| <= |c| && c[..|b|] == b
    ensures |a| <= |c| && c[..|a|] == a
  {
    assert c[..|a|] == c[..|b|][..|a|];
  }

  lemma {:induction false} DistinctCount<T>(s: seq<T>, x: T)
    requires Distinct(s)
    ensures multiset(s)[x] <= 1
  {
    if s != [] {
      var init := s[..|s| - 1];
      DistinctCount(init, x);
      assert s == init + [s[|s| - 1]];
      if s[|s| - 1] == x {
        assert x !in init;
      }
    }
  }

  lemma RepeatCount<T>(s: seq<T>, i: nat, j: nat)
    requires i < j < |s| && s[i] == s[j]
    ensures multiset(s)[s[i]] >= 2
  {
    assert s == s[..j] + s[j..];
    assert s[i] in s[..j];
    assert s[j] == s[j..][0];
    assert multiset(s)[s[i]] == multiset(s[..j])[s[i]] + multiset(s[j..])[s[i]];
  }

  /** A permutation of a duplicate-free sequence is duplicate-free. */
  lemma DistinctPerm<T>(a: seq<T>, b: seq<T>)
    requires Distinct(a) && multiset(a) == multiset(b)
    ensures Distinct(b)
  {
    forall i, j | 0 <= i < j < |b| ensures b[i] != b[j] {
      if b[i] == b[j] {
        RepeatCount(b, i, j);
        DistinctCount(a, b[i]);
      }
    }
  }

  // ---------------------------------------------------------------------------
  // Stable sort by a string key (Python's sorted / list.sort)
  // ---------------------------------------------------------------------------

  /** Code-point lexicographic order, as Python and JavaScript compare strings. */
  predicate StrLe(a: string, b: string) {
    if a == [] then true
    else if b == [] then false
    else if a[0] != b[0] then a[0] < b[0]
    else StrLe(a[1..], b[1..])
  }

  lemma {:induction false} StrLeTotal(a: string, b: string)
    ensures StrLe(a, b) || StrLe(b, a)
  {
    if a != [] && b != [] && a[0] == b[0] {
      StrLeTotal(a[1..], b[1..]);
    }
  }

  lemma {:induction false} StrLeTrans(a: string, b: string, c: string)
    requires StrLe(a, b) && StrLe(b, c)
    ensures StrLe(a, c)
  {
    if a != [] && b != [] && c != [] && a[0] == b[0] && b[0] == c[0] {
      StrLeTrans(a[1..], b[1..], c[1..]);
    }
  }

  lemma {:induction false} StrLeAntisym(a: string, b: string)
    requires StrLe(a, b) && StrLe(b, a)
    ensures a == b
  {
    if a != [] && b != [] {
      StrLeAntisym(a[1..], b[1..]);
      assert a == [a[0]] + a[1..];
      assert b == [b[0]] + b[1..];
    }
  }

  predicate SortedBy<T>(s: seq<T>, key: T -> string) {
    forall i, j :: 0 <= i < j < |s| ==> StrLe(key(s[i]), key(s[j]))
  }

  /** Insert x after every element whose key is not greater than x's key
      (after equal keys, which keeps the sort stable). */
  function InsertBy<T>(s: seq<T>, x: T, key: T -> string): seq<T>
  {
    if s == [] then [x]
    else if StrLe(key(s[0]), key(x)) then [s[0]] + InsertBy(s[1..], x, key)
    else [x] + s
  }

  lemma {:induction false} InsertByPerm<T>(s: seq<T>, x: T, key: T -> string)
    ensures multiset(InsertBy(s, x, key)) == multiset(s) + multiset{x}
  {
    if s != [] && StrLe(key(s[0]), key(x)) {
      InsertByPerm(s[1..], x, key);
      assert s == [s[0]] + s[1..];
    }
  }

  /** A key that is not above any key of a sorted list can head it. */
  lemma SortedCons<T>(h: T, t: seq<T>, key: T -> string)
    requires SortedBy(t, key)
    requires forall k :: 0 <= k < |t| ==> StrLe(key(h), key(t[k]))
    ensures SortedBy([h] + t, key)
  {
    forall i, j | 0 <= i < j < |[h] + t| ensures StrLe(key(([h] + t)[i]), key(([h] + t)[j])) {
      assert ([h] + t)[j] == t[j - 1];
      if i > 0 {
        assert ([h] + t)[i] == t[i - 1];
      }
    }
  }

  lemma {:induction false} InsertBySorted<T>(s: seq<T>, x: T, key: T -> string)
    requires SortedBy(s, key)
    ensures SortedBy(InsertBy(s, x, key), key)
  {
    if s == [] {
    } else if StrLe(key(s[0]), key(x)) {
      var tail := s[1..];
      assert SortedBy(tail, key);
      InsertBySorted(tail, x, key);
      InsertByPerm(tail, x, key);
      var t := InsertBy(tail, x, key);
      forall k | 0 <= k < |t| ensures StrLe(key(s[0]), key(t[k])) {
        assert t[k] in multiset(t);
        if t[k] != x {
          assert t[k] in multiset(tail);
          var m :| 0 <= m < |tail| && tail[m] == t[k];
          assert s[1 + m] == t[k];
        }
      }
      SortedCons(s[0], t, key);
    } else {
      StrLeTotal(key(s[0]), key(x));
      forall j | 0 <= j < |s| ensures StrLe(key(x), key(s[j])) {
        if j > 0 {
          StrLeTrans(key(x), key(s[0]), key(s[j]));
        }
      }
      SortedCons(x, s, key);
    }
  }

  /** Stable insertion sort by key. */
  function SortBy<T>(s: seq<T>, key: T -> string): seq<T>
  {
    if s == [] then [] else InsertBy(SortBy(s[..|s| - 1], key), s[|s| - 1], key)
  }

  /** The sort returns a permutation of its input, ordered by key. */
  lemma {:induction false} SortByProps<T>(s: seq<T>, key: T -> string)
    ensures SortedBy(SortBy(s, key), key)
    ensures multiset(SortBy(s, key)) == multiset(s)
    ensures |SortBy(s, key)| == |s|
  {
    if s != [] {
      SortByProps(s[..|s| - 1], key);
      InsertBySorted(SortBy(s[..|s| - 1], key), s[|s| - 1], key);
      InsertByPerm(SortBy(s[..|s| - 1], key), s[|s| - 1], key);
      assert s == s[..|s| - 1] + [s[|s| - 1]];
      assert multiset(s) == multiset(s[..|s| - 1]) + multiset{s[|s| - 1]};
    }
    assert |SortBy(s, key)| == |multiset(SortBy(s, key))|;
  }

  function Identity(s: string): string { s }

  /** Python `sorted(strings)`. */
  function SortStrings(s: seq<string>): (r: seq<string>)
    ensures SortedBy(r, Identity) && multiset(r) == multiset(s) && |r| == |s|
  {
    SortByProps(s, Identity);
    SortBy(s, Identity)
  }

  /** Two non-empty sorted lists with the same elements start alike. */
  lemma SortedHeads(a: seq<string>, b: seq<string>)
    requires a != [] && b != []
    requires SortedBy(a, Identity) && SortedBy(b, Identity)
    requires multiset(a) == multiset(b)
    ensures a[0] == b[0]
  {
    assert a[0] in multiset(b) && b[0] in multiset(a);
    var i :| 0 <= i < |b| && b[i] == a[0];
    var j :| 0 <= j < |a| && a[j] == b[0];
    if a[0] != b[0] {
      assert i > 0 && j > 0;
      assert StrLe(b[0], b[i]) && StrLe(a[0], a[j]);
      StrLeAntisym(a[0], b[0]);
    }
  }

  /** The tail holds the elements less the head. */
  lemma TailMultiset<T>(a: seq<T>)
    requires a != []
    ensures multiset(a[1..]) == multiset(a) - multiset{a[0]}
  {
    assert a == [a[0]] + a[1..];
  }

  /** Two sorted lists with the same elements are the same list. */
  lemma {:induction false} SortedUnique(a: seq<string>, b: seq<string>)
    requires SortedBy(a, Identity) && SortedBy(b, Identity)
    requires multiset(a) == multiset(b)
    ensures a == b
    decreases |a|
  {
    assert |a| == |multiset(a)| == |multiset(b)| == |b|;
    if a != [] {
      SortedHeads(a, b);
      TailMultiset(a);
      TailMultiset(b);
      SortedUnique(a[1..], b[1..]);
      assert a == [a[0]] + a[1..];
      assert b == [b[0]] + b[1..];
    }
  }

  // ---------------------------------------------------------------------------
  // Strings
  // ---------------------------------------------------------------------------

  predicate StartsWith(s: string, p: string) { |p| <= |s| && s[..|p|] == p }

  predicate EndsWith(s: string, p: string) { |p| <= |s| && s[|s| - |p|..] == p }

  /** sub occurs in s starting at position k. */
  predicate OccursAt(s: string, sub: string, k: nat) {
    k + |sub| <= |s| && s[k..k + |sub|] == sub
  }

  /** The index of the first occurrence of sub in s at or after position from
      (Python `str.find` / regular-expression search for a literal). */
  function FindFrom(s: string, sub: string, from: nat): (r: Option<nat>)
    requires from <= |s|
    ensures r.Some? ==> from <= r.value && OccursAt(s, sub, r.value)
    ensures r.Some? ==> forall k :: from <= k < r.value ==> !OccursAt(s, sub, k)
    ensures r.None? ==> forall k :: from <= k ==> !OccursAt(s, sub, k)
    decreases |s| - from
  {
    if |s| - from < |sub| then None
    else if s[from..from + |sub|] == sub then Some(from)
    else FindFrom(s, sub, from + 1)
  }

  function Find(s: string, sub: string): Option<nat> { FindFrom(s, sub, 0) }

  /** Python `sub in s`. */
  predicate Contains(s: string, sub: string) { Find(s, sub).Some? }

  lemma ContainsWitness(s: string, sub: string, k: nat)
    requires OccursAt(s, sub, k)
    ensures Contains(s, sub)
  {
  }

  /** Python `s.replace(pat, repl)`: a left-to-right scan replacing
      non-overlapping occurrences. */
  function ReplaceAll(s: string, pat: string, repl: string): string
    requires |pat| > 0
    decreases |s|
  {
    if |s| < |pat| then s
    else if s[..|pat|] == pat then repl + ReplaceAll(s[|pat|..], pat, repl)
    else [s[0]] + ReplaceAll(s[1..], pat, repl)
  }

  /** A string without the pattern is left as it is. */
  lemma {:induction false} ReplaceAbsent(s: string, pat: string, repl: string)
    requires |pat| > 0 && !Contains(s, pat)
    ensures ReplaceAll(s, pat, repl) == s
    decreases |s|
  {
    if |s| >= |pat| {
      assert !OccursAt(s, pat, 0);
      assert !Contains(s[1..], pat) by {
        if Contains(s[1..], pat) {
          var k := Find(s[1..], pat).value;
          assert OccursAt(s[1..], pat, k);
          assert s[1..][k..k + |pat|] == s[k + 1..k + 1 + |pat|];
          ContainsWitness(s, pat, k + 1);
        }
      }
      ReplaceAbsent(s[1..], pat, repl);
    }
  }

  /** Replacing a single character by text that lacks it removes it entirely. */
  lemma {:induction false} ReplaceCharGone(s: string, c: char, repl: string)
    requires c !in repl
    ensures c !in ReplaceAll(s, [c], repl)
    ensures forall x :: x in ReplaceAll(s, [c], repl) ==> x in s || x in repl
    decreases |s|
  {
    if |s| >= 1 {
      ReplaceCharGone(s[1..], c, repl);
    }
  }

  /** Replacement brings in no character that is in neither the text nor
      the replacement. */
  lemma {:induction false} ReplaceChars(s: string, pat: string, repl: string)
    requires |pat| > 0
    ensures forall x :: x in ReplaceAll(s, pat, repl) ==> x in s || x in repl
    decreases |s|
  {
    if |s| >= |pat| {
      if s[..|pat|] == pat {
        ReplaceChars(s[|pat|..], pat, repl);
      } else {
        ReplaceChars(s[1..], pat, repl);
      }
    }
  }

  /** Whitespace as Python's `str.strip()` and JavaScript's `trim()` see it
      (the ASCII controls, space, and the Unicode spaces these pages carry). */
  predicate IsSpace(c: char) {
    c == ' ' || c == '\t' || c == '\n' || c == '\r' || c == '\U{000B}' || c == '\U{000C}'
    || c == '\U{001C}' || c == '\U{001D}' || c == '\U{001E}' || c == '\U{001F}'
    || c == '\U{0085}' || c == '\U{00A0}' || c == '\U{1680}' || ('\U{2000}' <= c <= '\U{200A}')
    || c == '\U{2028}' || c == '\U{2029}' || c == '\U{202F}' || c == '\U{205F}' || c == '\U{3000}'
  }

  function StripLeft(s: string): (r: string)
    ensures |r| <= |s| && r == s[|s| - |r|..]
    ensures r == [] || !IsSpace(r[0])
    ensures forall k :: 0 <= k < |s| - |r| ==> IsSpace(s[k])
  {
    if s != [] && IsSpace(s[0]) then StripLeft(s[1..]) else s
  }

  function StripRight(s: string): (r: string)
    ensures |r| <= |s| && r == s[..|r|]
    ensures r == [] || !IsSpace(r[|r| - 1])
    ensures forall k :: |r| <= k < |s| ==> IsSpace(s[k])
  {
    if s != [] && IsSpace(s[|s| - 1]) then StripRight(s[..|s| - 1]) else s
  }

  /** Python `s.strip()`. */
  function Strip(s: string): string { StripRight(StripLeft(s)) }

  /** Where the stripped text starts in the input. */
  function StripStart(s: string): nat { |s| - |StripLeft(s)| }

  /** strip() removes exactly the surrounding whitespace: the result is a
      slice of the input with no whitespace at either end, and everything
      cut on either side was whitespace. */
  lemma StripProps(s: string)
    ensures var r := Strip(s); var i := StripStart(s);
      && (r == [] || (!IsSpace(r[0]) && !IsSpace(r[|r| - 1])))
      && i + |r| <= |s| && r == s[i..i + |r|]
      && (forall k :: 0 <= k < i ==> IsSpace(s[k]))
      && (forall k :: i + |r| <= k < |s| ==> IsSpace(s[k]))
  {
    StripEnds(s);
    StripSlice(s);
    StripCuts(s);
  }

  lemma StripEnds(s: string)
    ensures var r := Strip(s); r == [] || (!IsSpace(r[0]) && !IsSpace(r[|r| - 1]))
  {
    var l := StripLeft(s);
    var r := StripRight(l);
    if r != [] {
      assert r[0] == l[0];
    }
  }

  lemma StripSlice(s: string)
    ensures var r := Strip(s); var i := StripStart(s); i + |r| <= |s| && r == s[i..i + |r|]
  {
    var l := StripLeft(s);
    SliceOfSlice(s, |s| - |l|, |s|, 0, |StripRight(l)|);
  }

  lemma StripCuts(s: string)
    ensures var r := Strip(s); var i := StripStart(s);
      && (forall k :: 0 <= k < i ==> IsSpace(s[k]))
      && (forall k :: i + |r| <= k < |s| ==> IsSpace(s[k]))
  {
    var l := StripLeft(s);
    var r := StripRight(l);
    var i := |s| - |l|;
    forall k | i + |r| <= k < |s| ensures IsSpace(s[k]) {
      SuffixIndex(s, i, k);
    }
  }

  /** An index into a suffix of s is an index into s, shifted. */
  lemma SuffixIndex<T>(s: seq<T>, i: nat, k: nat)
    requires i <= k < |s|
    ensures s[i..][k - i] == s[k]
  {
  }

  /** An occurrence in a slice is an occurrence in the whole, shifted. */
  lemma OccursInSlice(s: string, i: nat, j: nat, sub: string, k: nat)
    requires i <= j <= |s| && OccursAt(s[i..j], sub, k)
    ensures OccursAt(s, sub, i + k)
  {
    SliceOfSlice(s, i, j, k, k + |sub|);
  }

  /** Text found in the stripped string is found in the string. */
  lemma ContainsStrip(s: string, sub: string)
    requires Contains(Strip(s), sub)
    ensures Contains(s, sub)
  {
    StripSlice(s);
    ContainsInSlice(s, StripStart(s), Strip(s), sub);
  }

  /** Text found in a slice is found in the whole. */
  lemma ContainsInSlice(s: string, i: nat, r: string, sub: string)
    requires i + |r| <= |s| && r == s[i..i + |r|] && Contains(r, sub)
    ensures Contains(s, sub)
  {
    var k := Find(r, sub).value;
    OccursInSlice(s, i, i + |r|, sub, k);
    ContainsWitness(s, sub, i + k);
  }

  /** Stripping twice is stripping once. */
  lemma StripIdempotent(s: string)
    ensures Strip(Strip(s)) == Strip(s)
  {
    var r := Strip(s);
    StripProps(s);
    assert StripLeft(r) == r;
  }

  /** JavaScript `s.replace(/c+$/, "")`: drop a trailing run of c. */
  function TrimTrailing(s: string, c: char): (r: string)
    ensures |r| <= |s| && r == s[..|r|]
    ensures r == [] || r[|r| - 1] != c
    ensures forall k :: |r| <= k < |s| ==> s[k] == c
  {
    if s != [] && s[|s| - 1] == c then TrimTrailing(s[..|s| - 1], c) else s
  }

  /** Python `sep.join(parts)` / JavaScript `parts.join(sep)`. */
  function Join(parts: seq<string>, sep: string): string
  {
    if parts == [] then ""
    else if |parts| == 1 then parts[0]
    else Join(parts[..|parts| - 1], sep) + sep + parts[|parts| - 1]
  }

  /** Python `s.split(c)` for a one-character separator. */
  function Split(s: string, c: char): (r: seq<string>)
    ensures |r| >= 1
    ensures forall k :: 0 <= k < |r| ==> c !in r[k]
    decreases |s|
  {
    if s == [] then [""]
    else
      var rest := Split(s[1..], c);
      if s[0] == c then [""] + rest else [[s[0]] + rest[0]] + rest[1..]
  }

  lemma JoinCons(x: string, parts: seq<string>, sep: string)
    requires parts != []
    ensures Join([x] + parts, sep) == x + sep + Join(parts, sep)
    decreases |parts|
  {
    if |parts| > 1 {
      assert ([x] + parts)[..|[x] + parts| - 1] == [x] + parts[..|parts| - 1];
      JoinCons(x, parts[..|parts| - 1], sep);
    }
  }

  /** Splitting and re-joining on the same separator gives the text back. */
  lemma {:induction false} SplitJoin(s: string, c: char)
    ensures Join(Split(s, c), [c]) == s
    decreases |s|
  {
    if s != [] {
      var rest := Split(s[1..], c);
      SplitJoin(s[1..], c);
      if s[0] == c {
        JoinCons("", rest, [c]);
        assert s == [s[0]] + s[1..];
      } else {
        JoinHeadPrefix(s[0], rest, [c]);
        assert s == [s[0]] + s[1..];
      }
    }
  }

  lemma {:induction false} SplitNoSep(x: string, c: char)
    requires c !in x
    ensures Split(x, c) == [x]
    decreases |x|
  {
    if x != [] {
      SplitNoSep(x[1..], c);
      assert x == [x[0]] + x[1..];
    }
  }

  lemma {:induction false} SplitAt(x: string, y: string, c: char)
    requires c !in x
    ensures Split(x + [c] + y, c) == [x] + Split(y, c)
    decreases |x|
  {
    var s := x + [c] + y;
    if x == [] {
      assert s[1..] == y;
    } else {
      assert s[1..] == x[1..] + [c] + y;
      SplitAt(x[1..], y, c);
      assert x == [x[0]] + x[1..];
    }
  }

  /** Splitting at an occurrence of the separator splits the two sides
      apart. */
  lemma {:induction false} SplitAppend(x: string, y: string, c: char)
    ensures Split(x + [c] + y, c) == Split(x, c) + Split(y, c)
    decreases |x|
  {
    var s := x + [c] + y;
    if x == [] {
      SplitAt(x, y, c);
    } else {
      var t := x[1..] + [c] + y;
      assert s != [] && s[0] == x[0] && s[1..] == t;
      SplitAppend(x[1..], y, c);
      var a := Split(x[1..], c);
      var b := Split(y, c);
      var rest := Split(t, c);
      assert rest == a + b;
      if x[0] == c {
        assert Split(s, c) == [""] + rest;
        assert Split(x, c) == [""] + a;
      } else {
        assert Split(s, c) == [[x[0]] + rest[0]] + rest[1..];
        assert Split(x, c) == [[x[0]] + a[0]] + a[1..];
        ExtendHead([x[0]], a, b);
      }
    }
  }

  /** Prefixing the first part commutes with appending more parts. */
  lemma ExtendHead(h: string, a: seq<string>, b: seq<string>)
    requires a != []
    ensures [h + (a + b)[0]] + (a + b)[1..] == ([h + a[0]] + a[1..]) + b
  {
    assert (a + b)[1..] == a[1..] + b;
  }

  /** Joining parts that do not contain the separator and splitting again
      gives the parts back, so such a join is injective. */
  lemma {:induction false} JoinSplit(parts: seq<string>, c: char)
    requires parts != []
    requires forall k :: 0 <= k < |parts| ==> c !in parts[k]
    ensures Split(Join(parts, [c]), c) == parts
    decreases |parts|
  {
    if |parts| == 1 {
      SplitNoSep(parts[0], c);
    } else {
      var rest := parts[1..];
      assert parts == [parts[0]] + rest;
      JoinCons(parts[0], rest, [c]);
      SplitAt(parts[0], Join(rest, [c]), c);
      JoinSplit(rest, c);
    }
  }

  lemma {:induction false} JoinHeadPrefix(ch: char, parts: seq<string>, sep: string)
    requires parts != []
    ensures Join([[ch] + parts[0]] + parts[1..], sep) == [ch] + Join(parts, sep)
    decreases |parts|
  {
    if |parts| == 1 {
    } else {
      var init := parts[..|parts| - 1];
      JoinHeadPrefix(ch, init, sep);
      assert ([[ch] + parts[0]] + parts[1..])[..|parts| - 1] == [[ch] + init[0]] + init[1..];
    }
  }

  // ---------------------------------------------------------------------------
  // Decimal numbers
  // ---------------------------------------------------------------------------

  predicate IsDigit(c: char) { '0' <= c <= '9' }

  predicate AllDigits(s: string) { forall k :: 0 <= k < |s| ==> IsDigit(s[k]) }

  function DigitChar(d: nat): char
    requires d < 10
  {
    ['0', '1', '2', '3', '4', '5', '6', '7', '8', '9'][d]
  }

  function DigitValue(c: char): nat
    requires IsDigit(c)
  {
    (c as int - '0' as int) as nat
  }

  /** Decimal form of a natural number, without leading zeros ("0" for 0). */
  function NatToString(n: nat): (r: string)
    ensures |r| >= 1 && AllDigits(r)
  {
    if n < 10 then [DigitChar(n)] else NatToString(n / 10) + [DigitChar(n % 10)]
  }

  /** k zero digits. */
  function Zeros(k: nat): (r: string)
    ensures |r| == k
  {
    seq(k, _ => '0')
  }

  /** Python `f"{n:0Wd}"` for n >= 0: left-pad with zeros to at least width. */
  function ZeroPad(n: nat, width: nat): (r: string)
    ensures AllDigits(r) && |r| >= width
  {
    var d := NatToString(n);
    if |d| >= width then d else Zeros(width - |d|) + d
  }

  /** Value of a string of decimal digits. */
  function DigitsValue(s: string): nat
    requires AllDigits(s)
  {
    if s == [] then 0 else DigitsValue(s[..|s| - 1]) * 10 + DigitValue(s[|s| - 1])
  }

  /** Formatting then reading back a number gives the number. */
  lemma {:induction false} NatToStringRoundTrip(n: nat)
    ensures DigitsValue(NatToString(n)) == n
  {
    var r := NatToString(n);
    if n >= 10 {
      NatToStringRoundTrip(n / 10);
      assert r[..|r| - 1] == NatToString(n / 10);
    }
  }

  lemma {:induction false} LeadingZerosValue(k: nat, s: string)
    requires AllDigits(s)
    ensures AllDigits(Zeros(k) + s) && DigitsValue(Zeros(k) + s) == DigitsValue(s)
    decreases |s|
  {
    var z := Zeros(k);
    if s == [] {
      assert z + s == z;
      ZerosValue(k);
    } else {
      LeadingZerosValue(k, s[..|s| - 1]);
      assert (z + s)[..|z + s| - 1] == z + s[..|s| - 1];
    }
  }

  lemma {:induction false} ZerosValue(k: nat)
    ensures AllDigits(Zeros(k)) && DigitsValue(Zeros(k)) == 0
  {
    if k > 0 {
      ZerosValue(k - 1);
      assert Zeros(k)[..k - 1] == Zeros(k - 1);
    }
  }

  /** Zero padding does not change the value that is read back. */
  lemma ZeroPadRoundTrip(n: nat, width: nat)
    ensures DigitsValue(ZeroPad(n, width)) == n
  {
    NatToStringRoundTrip(n);
    var d := NatToString(n);
    var p := ZeroPad(n, width);
    if |d| < width {
      var z := Zeros(width - |d|);
      LeadingZerosValue(width - |d|, d);
      assert p == z + d;
      assert DigitsValue(p) == DigitsValue(z + d) == DigitsValue(d);
    } else {
      assert p == d;
    }
  }

  /** Python `int(s)` on text: surrounding whitespace, an optional sign and
      at least one decimal digit; anything else raises ValueError (None). */
  function ParseInt(s: string): (r: Option<int>)
    ensures r.Some? ==> Strip(s) != []
  {
    var t := Strip(s);
    if t == [] then None
    else if t[0] == '-' || t[0] == '+' then
      var body := t[1..];
      if body != [] && AllDigits(body) then
        Some(if t[0] == '-' then -(DigitsValue(body) as int) else DigitsValue(body) as int)
      else None
    else if AllDigits(t) then Some(DigitsValue(t) as int)
    else None
  }

  /** Reading back a formatted natural number with int() succeeds. */
  lemma ParseIntOfNat(n: nat)
    ensures ParseInt(NatToString(n)) == Some(n as int)
  {
    var d := NatToString(n);
    NatToStringRoundTrip(n);
    DigitNotSpace(d[0]);
    DigitNotSpace(d[|d| - 1]);
    StripFixed(d);
  }

  lemma DigitNotSpace(c: char)
    requires IsDigit(c)
    ensures !IsSpace(c)
  {
  }

  /** A text without whitespace at either end is its own strip. */
  lemma StripFixed(s: string)
    requires s != [] && !IsSpace(s[0]) && !IsSpace(s[|s| - 1])
    ensures Strip(s) == s
  {
    assert StripLeft(s) == s;
  }

  /** Python's `int(x)` on a number and `//` toward zero: truncation, not flooring. */
  function TruncDiv(a: int, b: int): (r: int)
    requires b > 0
    ensures a >= 0 ==> r * b <= a < (r + 1) * b
    ensures a < 0 ==> (r - 1) * b < a <= r * b
  {
    if a >= 0 then a / b else -((-a) / b)
  }
}
