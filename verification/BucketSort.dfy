/** The bucket sort of large candidate sets. */
module BucketSort {
  import opened Types
  import opened Selection

  const NB := 256

  // ---- buckets ----

  /** How far up between lo and hi a value is, in NB - 1 steps. */
  function Level(x: real, lo: real, hi: real): (b: int)
    requires lo < hi
  {
    ((x - lo) * ((NB - 1) as real / (hi - lo))).Floor
  }

  /** The bucket of a logit: 0 holds the largest values. */
  function BucketOf(x: Logit, lo: real, hi: real): (b: nat)
    requires lo < hi
    ensures b < NB
  {
    var b := if x.Fin? then Level(x.value, lo, hi) else 0;
    NB - 1 - Min(Max(b, 0), NB - 1)
  }

  lemma ScaleMono(x: real, y: real, scale: real)
    requires x <= y && scale > 0.0
    ensures x * scale <= y * scale
  {
    assert (y - x) * scale >= 0.0;
  }

  lemma LevelMono(x: real, y: real, lo: real, hi: real)
    requires x <= y && lo < hi
    ensures Level(x, lo, hi) <= Level(y, lo, hi)
  {
    ScaleMono(x - lo, y - lo, (NB - 1) as real / (hi - lo));
  }

  /** What comes first is not in a later bucket. */
  lemma BucketsInOrder(v: seq<Logit>, a: nat, b: nat, lo: real, hi: real)
    requires a < |v| && b < |v| && lo < hi && Desc(v, a, b)
    ensures BucketOf(v[a], lo, hi) <= BucketOf(v[b], lo, hi)
  {
    if v[b].Fin? { LevelMono(v[b].value, v[a].value, lo, hi); }
  }

  // ---- the ids of one bucket, and of all buckets before it ----

  function Only(ids: seq<nat>, bk: seq<nat>, b: nat): (r: seq<nat>)
    requires |ids| == |bk|
  {
    if ids == [] then [] else
      var n := |ids| - 1;
      Only(ids[..n], bk[..n], b) + if bk[n] == b then [ids[n]] else []
  }

  function Before(ids: seq<nat>, bk: seq<nat>, b: nat): (r: seq<nat>)
    requires |ids| == |bk|
  {
    if ids == [] then [] else
      var n := |ids| - 1;
      Before(ids[..n], bk[..n], b) + if bk[n] < b then [ids[n]] else []
  }

  lemma {:induction false} BeforeNext(ids: seq<nat>, bk: seq<nat>, b: nat)
    requires |ids| == |bk|
    ensures multiset(Before(ids, bk, b + 1)) == multiset(Before(ids, bk, b)) + multiset(Only(ids, bk, b))
    ensures |Before(ids, bk, b + 1)| == |Before(ids, bk, b)| + |Only(ids, bk, b)|
  {
    if ids != [] { BeforeNext(ids[..|ids| - 1], bk[..|ids| - 1], b); }
  }

  lemma {:induction false} BeforeNone(ids: seq<nat>, bk: seq<nat>)
    requires |ids| == |bk|
    ensures Before(ids, bk, 0) == []
  {
    if ids != [] { BeforeNone(ids[..|ids| - 1], bk[..|ids| - 1]); }
  }

  lemma {:induction false} BeforeAll(ids: seq<nat>, bk: seq<nat>, nb: nat)
    requires |ids| == |bk| && forall i :: 0 <= i < |bk| ==> bk[i] < nb
    ensures Before(ids, bk, nb) == ids
  {
    if ids != [] {
      BeforeAll(ids[..|ids| - 1], bk[..|ids| - 1], nb);
      assert ids == ids[..|ids| - 1] + [ids[|ids| - 1]];
    }
  }

  lemma {:induction false} BeforeGrows(ids: seq<nat>, bk: seq<nat>, a: nat, b: nat)
    requires |ids| == |bk| && a <= b
    ensures |Before(ids, bk, a)| <= |Before(ids, bk, b)|
    decreases b
  {
    if a < b {
      BeforeGrows(ids, bk, a, b - 1);
      BeforeNext(ids, bk, b - 1);
    }
  }

  lemma {:induction false} OnlyMembers(ids: seq<nat>, bk: seq<nat>, b: nat, k: nat)
    requires |ids| == |bk| && k < |Only(ids, bk, b)|
    ensures exists i :: 0 <= i < |ids| && ids[i] == Only(ids, bk, b)[k] && bk[i] == b
  {
    var n := |ids| - 1;
    var front := Only(ids[..n], bk[..n], b);
    if k < |front| {
      OnlyMembers(ids[..n], bk[..n], b, k);
      var i :| 0 <= i < n && ids[..n][i] == front[k] && bk[..n][i] == b;
      assert ids[i] == Only(ids, bk, b)[k];
    } else {
      assert ids[n] == Only(ids, bk, b)[k];
    }
  }

  // ---- counting ----

  ghost predicate Counted(counts: seq<nat>, ids: seq<nat>, bk: seq<nat>, b: nat)
    requires |ids| == |bk| && b + 1 < |counts|
  {
    counts[b + 1] == |Only(ids, bk, b)|
  }

  /** One pass: every candidate's bucket, and how many candidates each bucket has. */
  method Count(v: seq<Logit>, ids: seq<nat>, lo: real, hi: real) returns (bk: seq<nat>, counts: seq<nat>)
    requires InVocab(v, ids) && lo < hi
    ensures |bk| == |ids| && forall i :: 0 <= i < |ids| ==> bk[i] == BucketOf(v[ids[i]], lo, hi)
    ensures |counts| == NB + 1 && counts[0] == 0 && forall b :: 0 <= b < NB ==> Counted(counts, ids, bk, b)
  {
    bk, counts := [], seq(NB + 1, b => 0);
    for j := 0 to |ids|
      invariant |bk| == j && forall i :: 0 <= i < j ==> bk[i] == BucketOf(v[ids[i]], lo, hi)
      invariant |counts| == NB + 1 && counts[0] == 0 && forall b :: 0 <= b < NB ==> Counted(counts, ids[..j], bk, b)
    {
      var b := BucketOf(v[ids[j]], lo, hi);
      var more := counts[b + 1 := counts[b + 1] + 1];
      ghost var ids', bk' := ids[..j + 1], bk + [b];
      forall c | 0 <= c < NB ensures Counted(more, ids', bk', c) {
        OnlySnoc(ids[..j], bk, ids[j], b, c);
        assert ids' == ids[..j] + [ids[j]] && Counted(counts, ids[..j], bk, c);
      }
      bk := bk + [b];
      counts := more;
    }
    assert ids[..|ids|] == ids;
  }

  lemma OnlySnoc(ids: seq<nat>, bk: seq<nat>, a: nat, b: nat, c: nat)
    requires |ids| == |bk|
    ensures Only(ids + [a], bk + [b], c) == Only(ids, bk, c) + if b == c then [a] else []
  {
    assert (ids + [a])[..|ids|] == ids && (bk + [b])[..|bk|] == bk;
  }

  /** Where each bucket starts. */
  ghost predicate Starts(ids: seq<nat>, bk: seq<nat>, starts: seq<nat>)
    requires |ids| == |bk|
  {
    |starts| == NB + 1 && forall b :: 0 <= b <= NB ==> starts[b] == |Before(ids, bk, b)|
  }

  method Sums(ghost ids: seq<nat>, ghost bk: seq<nat>, counts: seq<nat>) returns (starts: seq<nat>)
    requires |bk| == |ids| && |counts| == NB + 1 && counts[0] == 0
    requires forall b :: 0 <= b < NB ==> Counted(counts, ids, bk, b)
    ensures Starts(ids, bk, starts)
  {
    BeforeNone(ids, bk);
    starts := counts;
    for b := 0 to NB
      invariant |starts| == NB + 1 && forall c :: 0 <= c <= b ==> starts[c] == |Before(ids, bk, c)|
      invariant forall c :: b < c <= NB ==> starts[c] == counts[c]
    {
      BeforeNext(ids, bk, b);
      assert Counted(counts, ids, bk, b);
      starts := starts[b + 1 := starts[b + 1] + starts[b]];
    }
  }

  // ---- scattering ----

  /** Bucket b's part of the result, as far as it is filled. */
  ghost predicate Filled(sorted: seq<nat>, start: nat, pos: nat, part: seq<nat>) {
    pos == start + |part| && pos <= |sorted| && sorted[start..pos] == part
  }

  lemma FillHere(sorted: seq<nat>, start: nat, pos: nat, part: seq<nat>, a: nat)
    requires Filled(sorted, start, pos, part) && pos < |sorted|
    ensures Filled(sorted[pos := a], start, pos + 1, part + [a])
  {
    var s' := sorted[pos := a];
    assert s'[start..pos + 1] == s'[start..pos] + [a];
    assert s'[start..pos] == sorted[start..pos];
  }

  lemma FillElsewhere(sorted: seq<nat>, start: nat, pos: nat, part: seq<nat>, i: nat, a: nat)
    requires Filled(sorted, start, pos, part) && i < |sorted| && (i < start || pos <= i)
    ensures Filled(sorted[i := a], start, pos, part)
  {
    assert sorted[i := a][start..pos] == sorted[start..pos];
  }

  ghost predicate FilledTo(sorted: seq<nat>, starts: seq<nat>, pos: seq<nat>, ids: seq<nat>, bk: seq<nat>, j: nat, b: nat)
    requires |ids| == |bk| && j <= |ids| && b < |starts| && b < |pos|
  {
    Filled(sorted, starts[b], pos[b], Only(ids[..j], bk[..j], b))
  }

  ghost predicate PartAt(sorted: seq<nat>, starts: seq<nat>, ids: seq<nat>, bk: seq<nat>, b: nat)
    requires |ids| == |bk| && b + 1 < |starts|
  {
    Filled(sorted, starts[b], starts[b + 1], Only(ids, bk, b))
  }

  /** A bucket is not fuller than it will be. */
  lemma {:induction false} OnlyPrefix(ids: seq<nat>, bk: seq<nat>, j: nat, b: nat)
    requires |ids| == |bk| && j <= |ids|
    ensures |Only(ids[..j], bk[..j], b)| <= |Only(ids, bk, b)|
    ensures j < |ids| && bk[j] == b ==> |Only(ids[..j], bk[..j], b)| < |Only(ids, bk, b)|
    decreases |ids|
  {
    var n := |ids| - 1;
    if j == |ids| {
      assert ids[..j] == ids && bk[..j] == bk;
    } else if j == n {
    } else {
      assert ids[..n][..j] == ids[..j] && bk[..n][..j] == bk[..j];
      OnlyPrefix(ids[..n], bk[..n], j, b);
    }
  }

  ghost predicate Bucketed(bk: seq<nat>) { forall i :: 0 <= i < |bk| ==> bk[i] < NB }

  /** A bucket ends where the next one starts. */
  lemma PartEnds(ids: seq<nat>, bk: seq<nat>, starts: seq<nat>, b: nat)
    requires |ids| == |bk| && Starts(ids, bk, starts) && b < NB
    ensures starts[b] + |Only(ids, bk, b)| == starts[b + 1]
  {
    BeforeNext(ids, bk, b);
    assert starts[b + 1] == |Before(ids, bk, b + 1)|;
  }

  lemma StartsGrow(ids: seq<nat>, bk: seq<nat>, starts: seq<nat>, b: nat, c: nat)
    requires |ids| == |bk| && Starts(ids, bk, starts) && b <= c <= NB
    ensures starts[b] <= starts[c]
  {
    BeforeGrows(ids, bk, b, c);
  }

  lemma StartsEnd(ids: seq<nat>, bk: seq<nat>, starts: seq<nat>)
    requires |ids| == |bk| && Starts(ids, bk, starts) && Bucketed(bk)
    ensures starts[0] == 0 && starts[NB] == |ids|
  {
    BeforeNone(ids, bk);
    BeforeAll(ids, bk, NB);
  }

  /** Parts of different buckets do not meet. */
  lemma PartsApart(ids: seq<nat>, bk: seq<nat>, starts: seq<nat>, b: nat, c: nat)
    requires |ids| == |bk| && Starts(ids, bk, starts) && b < NB && c < NB && Bucketed(bk)
    ensures starts[b] + |Only(ids, bk, b)| == starts[b + 1] <= |ids|
    ensures b < c ==> starts[b + 1] <= starts[c]
    ensures c < b ==> starts[c + 1] <= starts[b]
  {
    PartEnds(ids, bk, starts, b);
    StartsEnd(ids, bk, starts);
    StartsGrow(ids, bk, starts, b + 1, NB);
    if b < c { StartsGrow(ids, bk, starts, b + 1, c); }
    if c < b { StartsGrow(ids, bk, starts, c + 1, b); }
  }

  method Scatter(ids: seq<nat>, bk: seq<nat>, starts: seq<nat>) returns (sorted: seq<nat>)
    requires |ids| == |bk| && Starts(ids, bk, starts) && Bucketed(bk)
    ensures |sorted| == |ids|
    ensures forall b :: 0 <= b < NB ==> PartAt(sorted, starts, ids, bk, b)
  {
    sorted := seq(|ids|, i => 0);
    var pos := starts[..NB];
    forall b | 0 <= b < NB ensures FilledTo(sorted, starts, pos, ids, bk, 0, b) { PartsApart(ids, bk, starts, b, b); }
    for j := 0 to |ids|
      invariant |sorted| == |ids| && |pos| == NB && forall b :: 0 <= b < NB ==> FilledTo(sorted, starts, pos, ids, bk, j, b)
    {
      var b := bk[j];
      assert FilledTo(sorted, starts, pos, ids, bk, j, b);
      OnlyPrefix(ids, bk, j, b);
      PartsApart(ids, bk, starts, b, b);
      var next, sorted', pos' := j + 1, sorted[pos[b] := ids[j]], pos[b := pos[b] + 1];
      forall c | 0 <= c < NB ensures FilledTo(sorted', starts, pos', ids, bk, next, c) {
        assert FilledTo(sorted, starts, pos, ids, bk, j, c);
        ScatterStep(ids, bk, starts, sorted, pos, j, sorted', pos', next, c);
      }
      sorted, pos := sorted', pos';
    }
    forall b | 0 <= b < NB ensures PartAt(sorted, starts, ids, bk, b) {
      assert FilledTo(sorted, starts, pos, ids, bk, |ids|, b);
      assert ids[..|ids|] == ids && bk[..|bk|] == bk;
      PartsApart(ids, bk, starts, b, b);
    }
  }

  lemma ScatterStep(ids: seq<nat>, bk: seq<nat>, starts: seq<nat>, sorted: seq<nat>, pos: seq<nat>, j: nat,
                    sorted': seq<nat>, pos': seq<nat>, j': nat, c: nat)
    requires |ids| == |bk| == |sorted| && Starts(ids, bk, starts) && Bucketed(bk) && c < NB
    requires j < |ids| && |pos| == NB && pos[bk[j]] < |sorted| && j' == j + 1
    requires FilledTo(sorted, starts, pos, ids, bk, j, c) && FilledTo(sorted, starts, pos, ids, bk, j, bk[j])
    requires sorted' == sorted[pos[bk[j]] := ids[j]] && pos' == pos[bk[j] := pos[bk[j]] + 1]
    ensures FilledTo(sorted', starts, pos', ids, bk, j', c)
  {
    var b := bk[j];
    OnlySnoc(ids[..j], bk[..j], ids[j], b, c);
    assert ids[..j'] == ids[..j] + [ids[j]] && bk[..j'] == bk[..j] + [b];
    var part := Only(ids[..j], bk[..j], c);
    if c == b {
      FillHere(sorted, starts[b], pos[b], part, ids[j]);
    } else {
      OnlyPrefix(ids, bk, j, b);
      OnlyPrefix(ids, bk, j, c);
      PartsApart(ids, bk, starts, b, c);
      PartEnds(ids, bk, starts, c);
      FillElsewhere(sorted, starts[c], pos[c], part, pos[b], ids[j]);
    }
  }

  // ---- sorting bucket by bucket ----

  ghost predicate InBucket(v: seq<Logit>, part: seq<nat>, lo: real, hi: real, b: nat)
    requires lo < hi
  {
    InVocab(v, part) && forall i :: 0 <= i < |part| ==> BucketOf(v[part[i]], lo, hi) == b
  }

  ghost predicate InEarlier(v: seq<Logit>, part: seq<nat>, lo: real, hi: real, b: nat)
    requires lo < hi
  {
    InVocab(v, part) && forall i :: 0 <= i < |part| ==> BucketOf(v[part[i]], lo, hi) < b
  }

  ghost predicate BucketsAre(v: seq<Logit>, ids: seq<nat>, bk: seq<nat>, lo: real, hi: real)
    requires lo < hi
  {
    InVocab(v, ids) && |bk| == |ids| && forall i :: 0 <= i < |ids| ==> bk[i] == BucketOf(v[ids[i]], lo, hi)
  }

  lemma OnlyInBucket(v: seq<Logit>, ids: seq<nat>, bk: seq<nat>, lo: real, hi: real, b: nat)
    requires lo < hi && BucketsAre(v, ids, bk, lo, hi)
    ensures InBucket(v, Only(ids, bk, b), lo, hi, b)
  {
    forall k | 0 <= k < |Only(ids, bk, b)|
      ensures Only(ids, bk, b)[k] < |v| && BucketOf(v[Only(ids, bk, b)[k]], lo, hi) == b
    {
      OnlyMembers(ids, bk, b, k);
    }
  }

  lemma SameMembers(v: seq<Logit>, part: seq<nat>, r: seq<nat>, lo: real, hi: real, b: nat)
    requires lo < hi && InBucket(v, part, lo, hi, b) && Permutes(r, part)
    ensures InBucket(v, r, lo, hi, b)
  {
    forall i | 0 <= i < |r| ensures r[i] < |v| && BucketOf(v[r[i]], lo, hi) == b {
      assert r[i] in multiset(part);
    }
  }

  /** A sorted bucket after sorted earlier ones. */
  lemma AppendBucket(v: seq<Logit>, out: seq<nat>, r: seq<nat>, lo: real, hi: real, b: nat)
    requires lo < hi && Sorted(v, out) && Sorted(v, r) && InEarlier(v, out, lo, hi, b) && InBucket(v, r, lo, hi, b)
    ensures Sorted(v, out + r) && InEarlier(v, out + r, lo, hi, b + 1)
  {
    var t := out + r;
    forall i, j | 0 <= i < j < |t| ensures !Desc(v, t[j], t[i]) {
      if i < |out| <= j {
        var x, y := out[i], r[j - |out|];
        if Desc(v, y, x) { BucketsInOrder(v, y, x, lo, hi); }
      }
    }
  }

  /** The buckets before b are sorted. */
  ghost predicate SortedTo(v: seq<Logit>, ids: seq<nat>, bk: seq<nat>, lo: real, hi: real, out: seq<nat>, b: nat)
    requires lo < hi && |ids| == |bk|
  {
    Sorted(v, out) && InEarlier(v, out, lo, hi, b) && Permutes(out, Before(ids, bk, b))
  }

  lemma OneBucketMore(v: seq<Logit>, ids: seq<nat>, bk: seq<nat>, lo: real, hi: real, out: seq<nat>, r: seq<nat>, b: nat)
    requires lo < hi && BucketsAre(v, ids, bk, lo, hi) && SortedTo(v, ids, bk, lo, hi, out, b)
    requires Sorted(v, r) && Permutes(r, Only(ids, bk, b))
    ensures SortedTo(v, ids, bk, lo, hi, out + r, b + 1)
  {
    OnlyInBucket(v, ids, bk, lo, hi, b);
    SameMembers(v, Only(ids, bk, b), r, lo, hi, b);
    AppendBucket(v, out, r, lo, hi, b);
    BeforeNext(ids, bk, b);
  }

  method SortPart(v: seq<Logit>, part: seq<nat>) returns (r: seq<nat>)
    requires InVocab(v, part)
    ensures Sorted(v, r) && Permutes(r, part)
  {
    if |part| > 1 { r := Sort(v, part); } else { r := part; }
  }

  method NextBucket(v: seq<Logit>, ghost ids: seq<nat>, ghost bk: seq<nat>, ghost lo: real, ghost hi: real,
                    starts: seq<nat>, scattered: seq<nat>, sorted: seq<nat>, b: nat)
    returns (out: seq<nat>)
    requires lo < hi && BucketsAre(v, ids, bk, lo, hi) && b + 1 < |starts| && PartAt(scattered, starts, ids, bk, b)
    requires SortedTo(v, ids, bk, lo, hi, sorted, b)
    ensures SortedTo(v, ids, bk, lo, hi, out, b + 1)
  {
    OnlyInBucket(v, ids, bk, lo, hi, b);
    var r := SortPart(v, scattered[starts[b]..starts[b + 1]]);
    OneBucketMore(v, ids, bk, lo, hi, sorted, r, b);
    out := sorted + r;
  }

  lemma AllBuckets(v: seq<Logit>, ids: seq<nat>, bk: seq<nat>, lo: real, hi: real, out: seq<nat>, nb: nat)
    requires lo < hi && |ids| == |bk| && (forall i :: 0 <= i < |bk| ==> bk[i] < nb) && SortedTo(v, ids, bk, lo, hi, out, nb)
    ensures Sorted(v, out) && Permutes(out, ids)
  {
    BeforeAll(ids, bk, nb);
  }

  lemma NoBucket(v: seq<Logit>, ids: seq<nat>, bk: seq<nat>, lo: real, hi: real)
    requires lo < hi && |ids| == |bk|
    ensures SortedTo(v, ids, bk, lo, hi, [], 0)
  {
    BeforeNone(ids, bk);
  }

  method SortBuckets(v: seq<Logit>, ghost ids: seq<nat>, ghost bk: seq<nat>, ghost lo: real, ghost hi: real,
                     starts: seq<nat>, scattered: seq<nat>)
    returns (out: seq<nat>)
    requires lo < hi && BucketsAre(v, ids, bk, lo, hi) && |starts| == NB + 1
    requires forall b :: 0 <= b < NB ==> PartAt(scattered, starts, ids, bk, b)
    ensures Sorted(v, out) && Permutes(out, ids)
  {
    NoBucket(v, ids, bk, lo, hi);
    out := [];
    for b := 0 to NB
      invariant SortedTo(v, ids, bk, lo, hi, out, b)
    {
      assert PartAt(scattered, starts, ids, bk, b);
      out := NextBucket(v, ids, bk, lo, hi, starts, scattered, out, b);
    }
    AllBuckets(v, ids, bk, lo, hi, out, NB);
  }

  /** The finite logits' range; found is false where there is none. */
  method Range(v: seq<Logit>, ids: seq<nat>) returns (found: bool, lo: real, hi: real)
    requires InVocab(v, ids)
    ensures found ==> lo <= hi
  {
    found, lo, hi := false, 0.0, 0.0;
    for j := 0 to |ids|
      invariant found ==> lo <= hi
    {
      var x := v[ids[j]];
      if x.Fin? {
        if !found || x.value < lo { lo := x.value; }
        if !found || x.value > hi { hi := x.value; }
        found := true;
      }
    }
  }

  /** sort_desc: below the threshold a plain sort, above it the bucket pass; the result is the same. */
  method SortDesc(v: seq<Logit>, ids: seq<nat>) returns (out: seq<nat>)
    requires InVocab(v, ids)
    ensures Sorted(v, out) && Permutes(out, ids)
  {
    if |ids| < 4096 {
      out := Sort(v, ids);
      return;
    }
    var found, lo, hi := Range(v, ids);
    if !found || !(hi > lo) {
      out := Sort(v, ids);
      return;
    }
    var bk, counts := Count(v, ids, lo, hi);
    var starts := Sums(ids, bk, counts);
    var scattered := Scatter(ids, bk, starts);
    out := SortBuckets(v, ids, bk, lo, hi, starts, scattered);
  }
}
