/** Dispatches as a sequential trace of start and settle events.

    Overlapping dispatches, of one kind or of several, interleave their two
    steps; any such interleaving is a sequence of `Begin` and `Finish` events,
    each applied to the states the previous one left. */
module DispatchTrace {
  import opened Wrappers
  import opened StockBot

  datatype Event = Begin(kind: Kind) | Finish(kind: Kind, stock: string, outcome: Outcome)

  function Step(s: States, e: Event): States {
    match e
    case Begin(k) => Start(s, k)
    case Finish(k, stock, o) => Settle(s, k, stock, o).0
  }

  /** The states after the events of `evs`, in order, starting from `s`. */
  function Run(s: States, evs: seq<Event>): States
    decreases |evs|
  {
    if |evs| == 0 then s else Step(Run(s, evs[..|evs| - 1]), evs[|evs| - 1])
  }

  /** What every state reachable from the initial one satisfies:
      - a stored message is never the empty string;
      - a loading kind carries neither a message nor the error flag;
      - a failed kind carries a message and no response;
      - a succeeded kind (message, no error) carries a response. */
  predicate Consistent(a: ActionState) {
    && (a.message.Some? ==> a.message.value != "")
    && (a.loading ==> !a.error && a.message.None?)
    && (a.error ==> a.message.Some? && a.response.None?)
    && (a.message.Some? && !a.error ==> a.response.Some?)
  }

  predicate AllConsistent(s: States) {
    forall k :: Consistent(s.Get(k))
  }

  lemma InitialConsistent()
    ensures AllConsistent(Initial())
  {
  }

  lemma StepKeepsConsistent(s: States, e: Event)
    requires AllConsistent(s)
    ensures AllConsistent(Step(s, e))
  {
  }

  /** Every trace of start and settle events preserves consistency. */
  lemma {:induction false} RunKeepsConsistent(s: States, evs: seq<Event>)
    requires AllConsistent(s)
    ensures AllConsistent(Run(s, evs))
    decreases |evs|
  {
    if |evs| > 0 {
      RunKeepsConsistent(s, evs[..|evs| - 1]);
      StepKeepsConsistent(Run(s, evs[..|evs| - 1]), evs[|evs| - 1]);
    }
  }

  /** Every state the hook can reach is consistent. */
  lemma ReachableConsistent(evs: seq<Event>)
    ensures AllConsistent(Run(Initial(), evs))
  {
  }

  /** Events of other kinds never touch kind `k`. */
  lemma {:induction false} OtherKindsUntouched(s: States, evs: seq<Event>, k: Kind)
    requires forall i :: 0 <= i < |evs| ==> evs[i].kind != k
    ensures Run(s, evs).Get(k) == s.Get(k)
    decreases |evs|
  {
    if |evs| > 0 {
      OtherKindsUntouched(s, evs[..|evs| - 1], k);
    }
  }

  /** `e` is the event at position `i` of `evs`, of kind `k`, and no later
      event is of kind `k`. */
  predicate LastOfAt(evs: seq<Event>, k: Kind, e: Event, i: int) {
    0 <= i < |evs| && evs[i] == e && e.kind == k
    && forall j :: i < j < |evs| ==> evs[j].kind != k
  }

  /** The most recent event of kind `k` in `evs`, if any. */
  function LastOf(evs: seq<Event>, k: Kind): (r: Option<Event>)
    ensures r.None? <==> forall i :: 0 <= i < |evs| ==> evs[i].kind != k
    ensures r.Some? ==> exists i :: LastOfAt(evs, k, r.value, i)
    decreases |evs|
  {
    if |evs| == 0 then None
    else
      var n := |evs| - 1;
      if evs[n].kind == k then
        assert LastOfAt(evs, k, evs[n], n);
        Some(evs[n])
      else
        var r := LastOf(evs[..n], k);
        assert forall i :: 0 <= i < n ==> evs[..n][i] == evs[i];
        if r.Some? then
          var i :| LastOfAt(evs[..n], k, r.value, i);
          assert LastOfAt(evs, k, r.value, i);
          r
        else
          r
  }

  /** A kind is loading exactly when its most recent event is a start step
      (or, with no event of that kind, when it was loading to begin with):
      the last settle wins. */
  lemma {:induction false} LoadingIffPending(s: States, evs: seq<Event>, k: Kind)
    ensures Run(s, evs).Get(k).loading <==>
      match LastOf(evs, k)
      case None => s.Get(k).loading
      case Some(e) => e.Begin?
    decreases |evs|
  {
    if |evs| > 0 {
      LoadingIffPending(s, evs[..|evs| - 1], k);
    }
  }

  /** When the most recent event of kind `k` is a settle, the state of `k` is
      exactly what that settle stores, whatever came earlier: the last writer
      wins. */
  lemma {:induction false} LastSettleWins(s: States, evs: seq<Event>, k: Kind)
    requires LastOf(evs, k).Some? && LastOf(evs, k).value.Finish?
    ensures var e := LastOf(evs, k).value;
      Run(s, evs).Get(k) == Settle(s, k, e.stock, e.outcome).0.Get(k)
    decreases |evs|
  {
    var last := evs[|evs| - 1];
    if last.kind != k {
      LastSettleWins(s, evs[..|evs| - 1], k);
    }
  }

  /** Steps on different kinds commute: dispatches of different kinds do not
      interfere, whatever their interleaving. */
  lemma StepsCommute(s: States, e1: Event, e2: Event)
    requires e1.kind != e2.kind
    ensures Step(Step(s, e1), e2) == Step(Step(s, e2), e1)
  {
  }

  /** Two overlapping dispatches of different kinds end where running them one
      after the other ends, whether the first to start settles first (crossed)
      or last (nested). */
  lemma OverlappedDispatchesIndependent(s: States, k1: Kind, st1: string, o1: Outcome, k2: Kind, st2: string, o2: Outcome)
    requires k1 != k2
    ensures Run(s, [Begin(k1), Begin(k2), Finish(k1, st1, o1), Finish(k2, st2, o2)])
      == Dispatch(Dispatch(s, k1, st1, o1).0, k2, st2, o2).0
    ensures Run(s, [Begin(k1), Begin(k2), Finish(k2, st2, o2), Finish(k1, st1, o1)])
      == Dispatch(Dispatch(s, k1, st1, o1).0, k2, st2, o2).0
  {
    var started := Start(Start(s, k1), k2);
    var crossed := [Begin(k1), Begin(k2), Finish(k1, st1, o1), Finish(k2, st2, o2)];
    assert crossed[..3][..2] == crossed[..2] && crossed[..2][..1] == crossed[..1] && crossed[..1][..0] == [];
    assert Run(s, crossed[..1]) == Start(s, k1) by {
      assert Run(s, crossed[..1][..0]) == s;
    }
    assert Run(s, crossed[..2]) == started;
    StepsCommute(Start(s, k1), Begin(k2), Finish(k1, st1, o1));
    assert Run(s, crossed[..3]) == Start(Dispatch(s, k1, st1, o1).0, k2);

    var nested := [Begin(k1), Begin(k2), Finish(k2, st2, o2), Finish(k1, st1, o1)];
    assert nested[..3][..2] == nested[..2] && nested[..2][..1] == nested[..1] && nested[..1][..0] == [];
    assert Run(s, nested[..1]) == Start(s, k1) by {
      assert Run(s, nested[..1][..0]) == s;
    }
    assert Run(s, nested[..2]) == started;
    assert Run(s, nested[..3]) == Step(started, Finish(k2, st2, o2));
    StepsCommute(Start(s, k1), Finish(k1, st1, o1), Finish(k2, st2, o2));
  }
}
