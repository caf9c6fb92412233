/** Ordering candidates by logit: the bucket sort and the small insertion buffer against a plain sort. */
module Selection {
  import opened Types

  /** A logit: a number, or minus infinity for an excluded candidate. */
  datatype Logit = NegInf | Fin(value: real)

  predicate Greater(x: Logit, y: Logit) { x.Fin? && (y.Fin? ==> x.value > y.value) }

  /** a comes before b: a larger logit, or the same one and a smaller id. */
  predicate Desc(v: seq<Logit>, a: nat, b: nat)
    requires a < |v| && b < |v|
  {
    Greater(v[a], v[b]) || (v[a] == v[b] && a < b)
  }

  predicate InVocab(v: seq<Logit>, ids: seq<nat>) { forall i :: 0 <= i < |ids| ==> ids[i] < |v| }

  /** Nothing stands before something that should come first. */
  ghost predicate Sorted(v: seq<Logit>, ids: seq<nat>) {
    InVocab(v, ids) && forall i, j :: 0 <= i < j < |ids| ==> !Desc(v, ids[j], ids[i])
  }

  ghost predicate Permutes(a: seq<nat>, b: seq<nat>) { multiset(a) == multiset(b) }

  // ---- a plain sort ----

  function Place(v: seq<Logit>, ids: seq<nat>, a: nat): (k: nat)
    requires InVocab(v, ids) && a < |v|
    ensures k <= |ids| && (k > 0 ==> !Desc(v, a, ids[k - 1])) && forall i :: k <= i < |ids| ==> Desc(v, a, ids[i])
  {
    if ids == [] then 0
    else if Desc(v, a, ids[|ids| - 1]) then Place(v, ids[..|ids| - 1], a)
    else |ids|
  }

  lemma PlaceIs(v: seq<Logit>, ids: seq<nat>, a: nat, k: nat)
    requires InVocab(v, ids) && a < |v| && k <= |ids|
    requires (k > 0 ==> !Desc(v, a, ids[k - 1])) && forall i :: k <= i < |ids| ==> Desc(v, a, ids[i])
    ensures Place(v, ids, a) == k
  {
    var p := Place(v, ids, a);
    assert k > 0 ==> !Desc(v, a, ids[k - 1]);
  }

  function InsertAt(ids: seq<nat>, k: nat, a: nat): (r: seq<nat>)
    requires k <= |ids|
    ensures |r| == |ids| + 1
  {
    ids[..k] + [a] + ids[k..]
  }

  lemma InsertedAt(ids: seq<nat>, k: nat, a: nat, i: nat)
    requires k <= |ids| && i <= |ids|
    ensures InsertAt(ids, k, a)[i] == if i < k then ids[i] else if i == k then a else ids[i - 1]
  {
  }

  lemma InsertedMembers(ids: seq<nat>, k: nat, a: nat)
    requires k <= |ids|
    ensures multiset(InsertAt(ids, k, a)) == multiset(ids + [a])
    ensures forall x :: x in InsertAt(ids, k, a) <==> x == a || x in ids
  {
    assert ids == ids[..k] + ids[k..];
    forall x ensures x in InsertAt(ids, k, a) <==> x == a || x in ids {
      assert x in ids <==> x in ids[..k] || x in ids[k..];
    }
  }

  function Insert(v: seq<Logit>, ids: seq<nat>, a: nat): (r: seq<nat>)
    requires InVocab(v, ids) && a < |v|
    ensures InVocab(v, r) && |r| == |ids| + 1
  {
    InsertedMembers(ids, Place(v, ids, a), a);
    forall i | 0 <= i <= |ids| ensures InsertAt(ids, Place(v, ids, a), a)[i] < |v| { InsertedAt(ids, Place(v, ids, a), a, i); }
    InsertAt(ids, Place(v, ids, a), a)
  }

  lemma NotDescTrans(v: seq<Logit>, a: nat, b: nat, c: nat)
    requires a < |v| && b < |v| && c < |v| && !Desc(v, a, b) && !Desc(v, b, c)
    ensures !Desc(v, a, c)
  {
  }

  lemma InsertSorts(v: seq<Logit>, ids: seq<nat>, a: nat)
    requires Sorted(v, ids) && a < |v|
    ensures Sorted(v, Insert(v, ids, a)) && Permutes(Insert(v, ids, a), ids + [a])
  {
    var r := Insert(v, ids, a);
    InsertedMembers(ids, Place(v, ids, a), a);
    forall i, j | 0 <= i < j < |r| ensures !Desc(v, r[j], r[i]) { InsertPair(v, ids, a, i, j); }
  }

  lemma InsertPair(v: seq<Logit>, ids: seq<nat>, a: nat, i: nat, j: nat)
    requires Sorted(v, ids) && a < |v| && i < j <= |ids|
    ensures !Desc(v, Insert(v, ids, a)[j], Insert(v, ids, a)[i])
  {
    var k := Place(v, ids, a);
    InsertedAt(ids, k, a, i);
    InsertedAt(ids, k, a, j);
    if j == k {
      if i < k - 1 { NotDescTrans(v, a, ids[k - 1], ids[i]); }
    } else if i == k {
      assert Desc(v, a, ids[j - 1]);
    }
  }

  /** std::sort */
  method Sort(v: seq<Logit>, ids: seq<nat>) returns (r: seq<nat>)
    requires InVocab(v, ids)
    ensures Sorted(v, r) && Permutes(r, ids)
  {
    r := [];
    for i := 0 to |ids|
      invariant Sorted(v, r) && Permutes(r, ids[..i])
    {
      InsertSorts(v, r, ids[i]);
      assert ids[..i + 1] == ids[..i] + [ids[i]];
      r := Insert(v, r, ids[i]);
    }
    assert ids[..|ids|] == ids;
  }

  lemma DescTotal(v: seq<Logit>, a: nat, b: nat)
    requires a < |v| && b < |v|
    ensures a == b || Desc(v, a, b) || Desc(v, b, a)
  {
  }

  lemma TailOf(v: seq<Logit>, a: seq<nat>)
    requires Sorted(v, a) && a != []
    ensures Sorted(v, a[1..]) && multiset(a[1..]) == multiset(a) - multiset{a[0]} && a == [a[0]] + a[1..]
  {
    assert a == [a[0]] + a[1..];
  }

  /** There is only one sorted order, so every correct sort gives the same result. */
  lemma {:induction false} SortedUnique(v: seq<Logit>, a: seq<nat>, b: seq<nat>)
    requires Sorted(v, a) && Sorted(v, b) && Permutes(a, b)
    ensures a == b
    decreases |a|
  {
    assert |multiset(a)| == |a| && |multiset(b)| == |b|;
    if a != [] {
      FirstSame(v, a, b);
      TailOf(v, a);
      TailOf(v, b);
      SortedUnique(v, a[1..], b[1..]);
    }
  }

  lemma FirstSame(v: seq<Logit>, a: seq<nat>, b: seq<nat>)
    requires Sorted(v, a) && Sorted(v, b) && Permutes(a, b) && a != [] && b != []
    ensures a[0] == b[0]
  {
    assert a[0] in multiset(b) && b[0] in multiset(a);
    var i :| 0 <= i < |b| && b[i] == a[0];
    var j :| 0 <= j < |a| && a[j] == b[0];
    DescTotal(v, a[0], b[0]);
  }

  // ---- top_k ----

  /** All ids below n, each once, in order. */
  ghost predicate Ranks(v: seq<Logit>, r: seq<nat>, n: nat) {
    Sorted(v, r) && NoDup(r) && forall x: nat :: x in r <==> x < n
  }

  lemma RankMore(v: seq<Logit>, ids: seq<nat>, n: nat)
    requires Ranks(v, ids, n) && n < |v|
    ensures Ranks(v, Insert(v, ids, n), n + 1)
  {
    InsertSorts(v, ids, n);
    InsertNoDup(ids, Place(v, ids, n), n);
    InsertedMembers(ids, Place(v, ids, n), n);
  }

  lemma InsertNoDup(ids: seq<nat>, k: nat, a: nat)
    requires k <= |ids| && NoDup(ids) && a !in ids
    ensures NoDup(InsertAt(ids, k, a))
  {
    var r := InsertAt(ids, k, a);
    forall i, j | 0 <= i < j < |r| ensures r[i] != r[j] {
      InsertedAt(ids, k, a, i);
      InsertedAt(ids, k, a, j);
    }
  }

  /** The buffer scan: as the ids so far are smaller, only a larger logit moves the new one forward. */
  method Scan(v: seq<Logit>, out: seq<nat>, a: nat) returns (k: nat)
    requires a < |v| && InVocab(v, out) && forall i :: 0 <= i < |out| ==> out[i] < a
    ensures k == Place(v, out, a)
  {
    k := |out|;
    while k > 0 && Greater(v[a], v[out[k - 1]])
      invariant k <= |out| && Place(v, out, a) == Place(v, out[..k], a)
    {
      assert out[..k][..k - 1] == out[..k - 1];
      k := k - 1;
    }
  }

  /** In a prefix the place is the same, as far as the prefix goes. */
  lemma PlaceCut(v: seq<Logit>, ids: seq<nat>, a: nat, m: nat)
    requires Sorted(v, ids) && a < |v| && m <= |ids|
    ensures Place(v, ids[..m], a) == Min(Place(v, ids, a), m)
  {
    var k := Place(v, ids, a);
    if m > 0 && k > m { NotDescTrans(v, a, ids[k - 1], ids[m - 1]); }
    PlaceIs(v, ids[..m], a, Min(k, m));
  }

  lemma CutAt(ids: seq<nat>, p: nat, a: nat, k: nat)
    requires p <= |ids|
    ensures var m := Min(k, |ids|); var r := InsertAt(ids[..m], Min(p, m), a);
      InsertAt(ids, p, a)[..Min(k, |ids| + 1)] == r[..Min(k, |r|)]
  {
    var m := Min(k, |ids|);
    var r, full := InsertAt(ids[..m], Min(p, m), a), InsertAt(ids, p, a);
    forall i | 0 <= i < Min(k, |ids| + 1) ensures full[i] == r[i] {
      InsertedAt(ids, p, a, i);
      InsertedAt(ids[..m], Min(p, m), a, i);
    }
  }

  /** Cutting the order off after k entries before or after the insertion makes no difference. */
  lemma InsertCut(v: seq<Logit>, ids: seq<nat>, a: nat, k: nat)
    requires Sorted(v, ids) && a < |v|
    ensures var m := Min(k, |ids|); var r := InsertAt(ids[..m], Place(v, ids[..m], a), a);
      Insert(v, ids, a)[..Min(k, |ids| + 1)] == r[..Min(k, |r|)]
  {
    PlaceCut(v, ids, a, Min(k, |ids|));
    CutAt(ids, Place(v, ids, a), a, k);
  }

  /** One more id in the buffer of the best k. */
  method Admit(v: seq<Logit>, out: seq<nat>, i: nat, k: nat) returns (r: seq<nat>)
    requires 0 < k && |out| == Min(k, i) && i < |v| && InVocab(v, out) && forall j :: 0 <= j < |out| ==> out[j] < i
    ensures var s := InsertAt(out, Place(v, out, i), i); r == s[..Min(k, |s|)]
  {
    if |out| == k && !Greater(v[i], v[out[|out| - 1]]) {
      PlaceIs(v, out, i, |out|);
      r := out;
    } else {
      var pos := Scan(v, out, i);
      r := InsertAt(out, pos, i);
      if |r| > k { r := r[..|r| - 1]; }
    }
  }

  /** The ids below n from the best to the worst. */
  ghost function Ranking(v: seq<Logit>, n: nat): (r: seq<nat>)
    requires n <= |v|
    ensures InVocab(v, r) && |r| == n
  {
    if n == 0 then [] else Insert(v, Ranking(v, n - 1), n - 1)
  }

  lemma {:induction false} RankingRanks(v: seq<Logit>, n: nat)
    requires n <= |v|
    ensures Ranks(v, Ranking(v, n), n)
  {
    if n > 0 {
      var r := Ranking(v, n - 1);
      assert Ranking(v, n) == Insert(v, r, n - 1);
      assert Ranks(v, Insert(v, r, n - 1), n) by {
        RankingRanks(v, n - 1);
        RankMore(v, r, n - 1);
      }
    }
  }

  /** top_k: the best k of all ids. */
  method TopK(v: seq<Logit>, k: int) returns (out: seq<nat>)
    ensures out == Ranking(v, |v|)[..Max(0, Min(k, |v|))]
  {
    out := [];
    if k <= 0 { return; }
    for i := 0 to |v|
      invariant out == Ranking(v, i)[..Min(k, i)]
    {
      BufferCut(v, i, k);
      out := Admit(v, out, i, k);
    }
  }

  lemma BufferCut(v: seq<Logit>, i: nat, k: nat)
    requires i < |v|
    ensures var out := Ranking(v, i)[..Min(k, i)];
      && InVocab(v, out) && (forall j :: 0 <= j < |out| ==> out[j] < i)
      && var r := InsertAt(out, Place(v, out, i), i); Ranking(v, i + 1)[..Min(k, i + 1)] == r[..Min(k, |r|)]
  {
    RankingRanks(v, i);
    Below(v, Ranking(v, i), i, Min(k, i));
    InsertCut(v, Ranking(v, i), i, k);
  }

  lemma Below(v: seq<Logit>, order: seq<nat>, n: nat, m: nat)
    requires Ranks(v, order, n) && m <= |order|
    ensures InVocab(v, order[..m]) && forall j :: 0 <= j < m ==> order[..m][j] < n
  {
    forall j | 0 <= j < m ensures order[j] < n { assert order[j] in order; }
  }

  /** There is only one ranking. */
  lemma RanksUnique(v: seq<Logit>, a: seq<nat>, b: seq<nat>, n: nat)
    requires Ranks(v, a, n) && Ranks(v, b, n)
    ensures a == b
  {
    OnceEach(a);
    OnceEach(b);
    SortedUnique(v, a, b);
  }

  lemma {:induction false} OnceEach(a: seq<nat>)
    requires NoDup(a)
    ensures forall x :: multiset(a)[x] == if x in a then 1 else 0
  {
    if a != [] {
      var b := a[..|a| - 1];
      assert a == b + [a[|a| - 1]];
      OnceEach(b);
    }
  }
}
