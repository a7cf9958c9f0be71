/** The engine's way of noticing who was newly seated by a promotion: it remembers all pending
    returns before, and looks at each of them after. */
module Sweep {
  import opened Domain
  import opened StoreSpec
  import opened Lifecycle
  import opened Promotion
  import opened Engine

  type Pending = (Badge, TerminalId)

  /** The pending returns among the first `n` taxis, with the terminals they intend. */
  function PendingUpTo(s: State, n: nat): seq<Pending>
    requires n <= |s.order| && forall b :: b in s.order ==> b in s.taxis
  {
    if n == 0 then []
    else
      var b := s.order[n - 1];
      PendingUpTo(s, n - 1) + if StillPending(s, b) then [(b, s.taxis[b].pendingTerminal.value)] else []
  }

  /** This remembered return was to `t`, and its taxi is now on a rank. */
  predicate ArrivedAt(p: Pending, after: State, t: TerminalId) {
    p.1 == t && p.0 in after.taxis && after.taxis[p.0].status == Called
  }

  /** Those among the first `k` remembered returns that have arrived at `t`. */
  function Newcomers(pending: seq<Pending>, k: nat, after: State, t: TerminalId): seq<Badge>
    requires k <= |pending|
  {
    if k == 0 then []
    else Newcomers(pending, k - 1, after, t) + if ArrivedAt(pending[k - 1], after, t) then [pending[k - 1].0] else []
  }

  lemma {:induction false} NewcomersOfPrefix(pending: seq<Pending>, more: seq<Pending>, k: nat, after: State, t: TerminalId)
    requires k <= |pending|
    ensures Newcomers(pending + more, k, after, t) == Newcomers(pending, k, after, t)
  {
    if k > 0 {
      NewcomersOfPrefix(pending, more, k - 1, after, t);
    }
  }

  lemma ArrivedIffSeated(s: State, t: TerminalId, b: Badge)
    requires Valid(s) && t in s.terminals && t != "" && StillPending(s, b)
    ensures ArrivedAt((b, s.taxis[b].pendingTerminal.value), PromoteDueReturns(s), t) <==> b in SeatedList(s, t)
  {
    assert PromoteDueReturns(s).taxis[b] == PromotedTaxi(s, b);
    SeatedAreDue(s, t, b);
  }

  lemma SeatedAreDue(s: State, t: TerminalId, b: Badge)
    requires Valid(s)
    ensures b in SeatedList(s, t) ==> DueAt(s, b, t) && StillPending(s, b)
  {
    DueUpToMembers(s, t, |s.order|);
    assert b in SeatedList(s, t) ==> b in DueList(s, t);
  }

  /** Looking at every remembered return finds exactly the taxis seated at `t`, in store order. */
  lemma {:induction false} NewcomersAreSeated(s: State, t: TerminalId, n: nat)
    requires Valid(s) && n <= |s.order| && t in s.terminals && t != ""
    ensures Newcomers(PendingUpTo(s, n), |PendingUpTo(s, n)|, PromoteDueReturns(s), t) == SeatedUpTo(s, t, n)
  {
    hide PromoteDueReturns, DueAt, FreeSlots, TaxisCoherent, QueueListsParked, FaresHeld;
    if n > 0 {
      var b, before := s.order[n - 1], PendingUpTo(s, n - 1);
      NewcomersAreSeated(s, t, n - 1);
      SeatedUpToNext(s, t, n - 1);
      SeatedAreDue(s, t, b);
      if StillPending(s, b) {
        ArrivedIffSeated(s, t, b);
        NewcomersOfPrefix(before, [(b, s.taxis[b].pendingTerminal.value)], |before|, PromoteDueReturns(s), t);
      } else {
        assert PendingUpTo(s, n) == before;
      }
    }
  }
}
