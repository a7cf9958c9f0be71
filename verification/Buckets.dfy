/** Minute buckets: what is still filed ahead of a position, as a multiset. */
module Buckets {
  /** `buckets[k].append(x)` */
  function File<T>(buckets: seq<seq<T>>, k: nat, x: T): (filed: seq<seq<T>>)
    requires k < |buckets|
    ensures |filed| == |buckets|
  {
    buckets[k := buckets[k] + [x]]
  }

  /** Everything filed in bucket `m` or later. */
  function Agenda<T(==)>(buckets: seq<seq<T>>, m: nat): multiset<T>
    requires m <= |buckets|
    decreases |buckets| - m
  {
    if m == |buckets| then multiset{} else multiset(buckets[m]) + Agenda(buckets, m + 1)
  }

  /** Everything still ahead when the first `i` entries of bucket `m` have been processed. */
  function Rest<T(==)>(buckets: seq<seq<T>>, m: nat, i: nat): multiset<T>
    requires m < |buckets| && i <= |buckets[m]|
  {
    multiset(buckets[m][i..]) + Agenda(buckets, m + 1)
  }

  lemma RestBounds<T>(buckets: seq<seq<T>>, m: nat)
    requires m < |buckets|
    ensures Rest(buckets, m, 0) == Agenda(buckets, m)
    ensures Rest(buckets, m, |buckets[m]|) == Agenda(buckets, m + 1)
  {
    assert buckets[m][0..] == buckets[m];
    assert buckets[m][|buckets[m]|..] == [];
  }

  lemma RestNext<T>(buckets: seq<seq<T>>, m: nat, i: nat)
    requires m < |buckets| && i < |buckets[m]|
    ensures Rest(buckets, m, i) == Rest(buckets, m, i + 1) + multiset{buckets[m][i]}
    ensures buckets[m][i] in Rest(buckets, m, i)
    ensures Rest(buckets, m, i + 1) == Rest(buckets, m, i) - multiset{buckets[m][i]}
  {
    assert buckets[m][i..] == [buckets[m][i]] + buckets[m][i + 1..];
  }

  lemma {:induction false} AgendaFile<T>(buckets: seq<seq<T>>, m: nat, k: nat, x: T)
    requires m <= |buckets| && k < |buckets|
    ensures Agenda(File(buckets, k, x), m) == Agenda(buckets, m) + if m <= k then multiset{x} else multiset{}
    decreases |buckets| - m
  {
    if m < |buckets| {
      AgendaFile(buckets, m + 1, k, x);
    }
  }

  /** Filing into the current bucket or a later one adds the entry to what is ahead, also in the
      very bucket being processed: nothing filed is ever missed. */
  lemma RestFile<T>(buckets: seq<seq<T>>, m: nat, i: nat, k: nat, x: T)
    requires m <= k < |buckets| && i <= |buckets[m]|
    ensures i <= |File(buckets, k, x)[m]|
    ensures Rest(File(buckets, k, x), m, i) == Rest(buckets, m, i) + multiset{x}
  {
    var filed := File(buckets, k, x);
    AgendaFile(buckets, m + 1, k, x);
    if k == m {
      AppendThenDrop(buckets[m], i, x);
      RegroupAdded(multiset(filed[m][i..]), multiset(buckets[m][i..]), Agenda(buckets, m + 1), x);
    } else {
      assert filed[m] == buckets[m];
    }
  }

  lemma RegroupAdded<T>(new_: multiset<T>, old_: multiset<T>, later: multiset<T>, x: T)
    requires new_ == old_ + multiset{x}
    ensures new_ + later == old_ + later + multiset{x}
  {
  }

  lemma AppendThenDrop<T>(xs: seq<T>, i: nat, x: T)
    requires i <= |xs|
    ensures multiset((xs + [x])[i..]) == multiset(xs[i..]) + multiset{x}
  {
    assert (xs + [x])[i..] == xs[i..] + [x];
  }

  lemma {:induction false} FiledIsAhead<T>(buckets: seq<seq<T>>, m: nat, k: nat, x: T)
    requires m <= k < |buckets| && x in buckets[k]
    ensures x in Agenda(buckets, m)
    decreases k - m
  {
    if m < k {
      FiledIsAhead(buckets, m + 1, k, x);
    }
  }

  lemma {:induction false} EmptyAgenda<T>(buckets: seq<seq<T>>, m: nat)
    requires m <= |buckets| && forall k :: 0 <= k < |buckets| ==> buckets[k] == []
    ensures Agenda(buckets, m) == multiset{}
    decreases |buckets| - m
  {
    if m < |buckets| {
      EmptyAgenda(buckets, m + 1);
    }
  }

  // ---- a list of filings, done in order ----

  datatype Filing<T> = Filing(bucket: nat, item: T)

  /** What a list of filings leaves in bucket `k`: its items, in the order of the list. */
  function ItemsIn<T>(filings: seq<Filing<T>>, k: nat): seq<T> {
    if filings == [] then []
    else
      var n := |filings| - 1;
      ItemsIn(filings[..n], k) + if filings[n].bucket == k then [filings[n].item] else []
  }

  function Filled<T>(filings: seq<Filing<T>>, buckets: nat): (filled: seq<seq<T>>)
    ensures |filled| == buckets
  {
    seq(buckets, k requires 0 <= k < buckets => ItemsIn(filings, k))
  }

  function Items<T>(filings: seq<Filing<T>>): seq<T> {
    seq(|filings|, i requires 0 <= i < |filings| => filings[i].item)
  }

  lemma FilledNext<T>(filings: seq<Filing<T>>, e: Filing<T>, buckets: nat)
    requires e.bucket < buckets
    ensures Filled(filings + [e], buckets) == File(Filled(filings, buckets), e.bucket, e.item)
  {
    assert (filings + [e])[..|filings|] == filings;
    var filled, more := Filled(filings, buckets), Filled(filings + [e], buckets);
    assert forall k :: 0 <= k < buckets ==> more[k] == File(filled, e.bucket, e.item)[k];
  }

  /** Each filing is found in its bucket, and a bucket holds nothing that was not filed in it. */
  lemma {:induction false} ItemsInMembers<T>(filings: seq<Filing<T>>, k: nat, x: T)
    ensures x in ItemsIn(filings, k) <==> Filing(k, x) in filings
  {
    if filings != [] {
      var n := |filings| - 1;
      ItemsInMembers(filings[..n], k, x);
      assert filings == filings[..n] + [filings[n]];
    }
  }

  /** Everything filed is there, exactly as often as it was filed. */
  lemma {:induction false} FilledHoldsAll<T>(filings: seq<Filing<T>>, buckets: nat)
    requires forall i :: 0 <= i < |filings| ==> filings[i].bucket < buckets
    ensures Agenda(Filled(filings, buckets), 0) == multiset(Items(filings))
  {
    if filings == [] {
      EmptyAgenda(Filled(filings, buckets), 0);
    } else {
      var n := |filings| - 1;
      var rest, e := filings[..n], filings[n];
      FilledHoldsAll(rest, buckets);
      assert filings == rest + [e];
      FilledNext(rest, e, buckets);
      AgendaFile(Filled(rest, buckets), 0, e.bucket, e.item);
      assert Items(filings) == Items(rest) + [e.item];
    }
  }
}
