/** What holds when the simulated day is over, for every plan and every sequence of random draws. */
module Day {
  import opened Domain
  import opened Lists
  import opened StoreSpec
  import opened Lifecycle
  import opened Engine
  import opened EngineInvariant

  ghost predicate NothingAhead(ahead: Ahead) {
    && ahead.starts == ahead.fareEnds == ahead.checks == ahead.ends == multiset{}
    && ahead.demand == multiset{}
  }

  /** The tally the repository's tests state: every exempt fare is either returned or not returned. */
  predicate TallyLaw(stats: Stats) {
    stats.returned + |stats.notReturnedByReason| == ExemptFares(stats)
  }

  ghost predicate DayDone(sim: Sim, cast: Cast) {
    var s, stats := sim.store, sim.stats;
    && s.taxis.Keys == cast.drivers && s.queue == [] && OnFareSet(s) == {}
    && (forall b :: b in s.taxis ==>
          s.taxis[b].status in {Offline, Called, ReturnExempt} && (s.taxis[b].status != Called ==> b in sim.finished))
    && ShadowAgrees(sim) && RanksHold(s) && SnapshotsFit(sim, cast)
    && (forall b :: b in sim.retries ==> sim.retries[b] <= MAX_RETURN_RETRIES)
    && stats.unmet + stats.completed == cast.totalDemand && |stats.faresByClass| == stats.completed
    && ExemptFares(stats) == ExemptOutcomes(stats)
  }

  lemma DayEnds(sim: Sim, ahead: Ahead, cast: Cast)
    requires Inv(sim, ahead, cast) && NothingAhead(ahead)
    ensures DayDone(sim, cast)
    ensures TallyLaw(sim.stats) <==> sim.stats.notReturnedByReason[NeverFreedUp] == 0
  {
    var s := sim.store;
    forall b | b in s.taxis
      ensures s.taxis[b].status != InFeederPark && s.taxis[b].status != OnFare
      ensures s.taxis[b].status != Called ==> b in sim.finished
    {
      assert Accounted(sim, ahead, b);
      assert s.taxis[b].status == OnFare ==> b in multiset(OnFareSet(s));
    }
    NobodyParked(s);
    NobodyOnFare(s);
  }

  lemma HeadIsMember<T>(xs: seq<T>)
    ensures xs == [] || exists x :: x in xs
  {
    if xs != [] {
      assert xs[0] in xs;
    }
  }

  lemma NobodyParked(s: State)
    requires QueueListsParked(s) && forall b :: b in s.taxis ==> s.taxis[b].status != InFeederPark
    ensures s.queue == []
  {
    HeadIsMember(s.queue);
  }

  lemma NobodyOnFare(s: State)
    requires forall b :: b in s.taxis ==> s.taxis[b].status != OnFare
    ensures OnFareSet(s) == OnExemptFareSet(s) == {}
  {
  }

  // ---- the final count of statuses ----

  /** How often a status occurs among the first `n` taxis of the store. */
  ghost function WithStatus(s: State, status: Status, n: nat): set<Badge>
    requires n <= |s.order|
  {
    set b | b in s.order[..n] && b in s.taxis && s.taxis[b].status == status
  }

  lemma WithStatusNext(s: State, status: Status, n: nat)
    requires OrderListsTaxis(s) && n < |s.order|
    ensures |WithStatus(s, status, n + 1)| ==
            |WithStatus(s, status, n)| + if s.taxis[s.order[n]].status == status then 1 else 0
  {
    var b := s.order[n];
    assert s.order[..n + 1] == s.order[..n] + [b];
    assert b !in WithStatus(s, status, n);
    if s.taxis[b].status == status {
      assert WithStatus(s, status, n + 1) == WithStatus(s, status, n) + {b};
    } else {
      assert WithStatus(s, status, n + 1) == WithStatus(s, status, n);
    }
  }

  lemma NobodyCounted(s: State)
    ensures forall st :: WithStatus(s, st, 0) == {}
  {
  }

  lemma CountOneMore(s: State, n: nat, counts: multiset<Status>)
    requires OrderListsTaxis(s) && n < |s.order|
    requires forall st :: counts[st] == |WithStatus(s, st, n)|
    ensures s.order[n] in s.taxis
    ensures forall st :: (counts + multiset{s.taxis[s.order[n]].status})[st] == |WithStatus(s, st, n + 1)|
  {
    forall st ensures (counts + multiset{s.taxis[s.order[n]].status})[st] == |WithStatus(s, st, n + 1)| {
      WithStatusNext(s, st, n);
    }
  }

  lemma CountsOfADoneDay(sim: Sim, cast: Cast)
    requires Valid(sim.store) && DayDone(sim, cast)
    ensures |sim.store.order| == |cast.drivers|
    ensures WithStatus(sim.store, OnFare, |sim.store.order|) == {}
    ensures WithStatus(sim.store, InFeederPark, |sim.store.order|) == {}
  {
    DistinctCardinality(sim.store.order);
    assert Elements(sim.store.order) == cast.drivers;
  }
}
