/** The subscription machine of a proxy event and the samples it hands out.

    The binding is an environment: it may refuse a subscription, move between
    pending and subscribed, and offer any samples it likes.  Two things its
    interface promises are relied on: it leaves the subscribed states only in
    `Unsubscribe`, and while not subscribed it delivers no data. */
module ProxyEvents {

  import opened Tally
  import opened Wrappers
  import opened SampleReferences

  datatype SubscriptionState = Subscribed | NotSubscribed | SubscriptionPending

  datatype ComError =
    | BindingFailure
    | MaxSampleCountNotRealizable
    | MaxSamplesReached
    | NotSubscribedError

  /** How a binding's delivery goes wrong: after how many samples, and with which
      of the two errors the event tells apart. */
  datatype Failure = Failure(after: nat, notSubscribed: bool)

  class ProxyEvent {
    const tracker: SampleReferenceTracker
    var state: SubscriptionState      // the binding's answer to GetSubscriptionState
    var maxSampleCount: nat           // the binding's answer to GetMaxSampleCount
    var terminated: bool              // std::terminate was called

    /** While the event is not subscribed no reference is outstanding. */
    ghost predicate Valid()
      reads this, tracker
    {
      && tracker.Valid() && tracker.reserved == 0
      && (state.NotSubscribed? && !terminated ==> tracker.owner == map[])
      && (!state.NotSubscribed? ==> tracker.max == maxSampleCount)
    }

    /** A new event starts with an empty tracker. */
    constructor ()
      ensures Valid() && fresh(tracker) && state == NotSubscribed && maxSampleCount == 0 && !terminated
      ensures tracker.Books() == Ledger(0, 0, 0, 0, map[], {})
    {
      tracker := new SampleReferenceTracker(0);
      state, maxSampleCount, terminated := NotSubscribed, 0, false;
    }

    /** The binding acknowledges or loses its provider. */
    method BindingChangesState(newState: SubscriptionState)
      requires Valid() && !state.NotSubscribed? && !newState.NotSubscribed?
      modifies this`state
      ensures Valid() && state == newState
    {
      state := newState;
    }

    /** `accepted` and `newState` are the binding's reaction to a subscription.
        The call to `Reset` needs a proof that nothing is outstanding. */
    method Subscribe(n: nat, accepted: bool, newState: SubscriptionState) returns (result: Result<(), ComError>)
      requires Valid() && !terminated
      modifies this`state, this`maxSampleCount, tracker`available, tracker`max
      ensures Valid() && !terminated
      ensures old(state).NotSubscribed? ==>
                && state == newState && (result == if accepted then Ok(()) else Err(BindingFailure))
                && tracker.available == tracker.max == n
      ensures !old(state).NotSubscribed? ==>
                && state == old(state) && tracker.Books() == old(tracker.Books())
                && (result == if n == old(tracker.max) then Ok(()) else Err(MaxSampleCountNotRealizable))
    {
      if state == NotSubscribed {
        tracker.Reset(n);
        state := newState;
        maxSampleCount := n;
        if !accepted {
          return Err(BindingFailure);
        }
      } else if n != maxSampleCount {
        return Err(MaxSampleCountNotRealizable);
      }
      return Ok(());
    }

    /** Terminates the process exactly when a sample is still held. */
    method Unsubscribe()
      requires Valid() && !terminated
      modifies this`state, this`terminated
      ensures Valid() && state == NotSubscribed
      ensures terminated <==> !old(state).NotSubscribed? && tracker.owner != map[]
    {
      if state != NotSubscribed {
        state := NotSubscribed;
        if tracker.IsUsed() {
          assert tracker.owner != map[];
          terminated := true;
        }
      }
    }

    /** `offered` are the samples the binding has; a failure strikes after it has
        delivered some of them.  One call hands out at most the free slots and at
        most what was asked for, in the binding's order, and every reference
        reserved but not used is back when it returns. */
    method GetNewSamples(maxNumSamples: nat, offered: seq<nat>, failure: Option<Failure>, spurious: seq<bool>,
                         ghost gs: set<SampleReferenceGuard>, ghost ts: set<SampleReferenceTracker>)
        returns (result: Result<nat, ComError>, samples: seq<SamplePtr>)
      requires Valid() && !terminated && Pool(gs, ts) && tracker in ts
      modifies tracker
      ensures Valid() && Pool(gs + Guards(samples), ts)
      ensures Answered(Min(old(tracker.available), maxNumSamples), state, offered, failure, result, |samples|)
      ensures result.Ok? ==> result.value == |samples|
      ensures result == Err(MaxSamplesReached) <==> Min(old(tracker.available), maxNumSamples) == 0
      ensures Min(old(tracker.available), maxNumSamples) > 0 ==>
                && (result == Err(NotSubscribedError) <==>
                      state.NotSubscribed? || (failure.Some? && failure.value.notSubscribed))
                && (result == Err(BindingFailure) <==>
                      !state.NotSubscribed? && failure.Some? && !failure.value.notSubscribed)
                && (result.Ok? <==> !state.NotSubscribed? && failure.None?)
      ensures !state.NotSubscribed? ==>
                |samples| == Min(Min(old(tracker.available), maxNumSamples),
                                 if failure.Some? then Min(failure.value.after, |offered|) else |offered|)
      ensures state.NotSubscribed? ==> samples == []
      ensures Delivered(samples, offered, old(tracker.issued), tracker.owner) && Distinct(samples)
      ensures fresh(samples) && fresh(Guards(samples))
      ensures tracker.available + |samples| == old(tracker.available)
      ensures tracker.max == old(tracker.max) && tracker.released == old(tracker.released)
    {
      hide Pool, Delivered, Guards, Distinct;
      var factory := Reserve(maxNumSamples, spurious, gs, ts);
      result, samples := Receive(factory, offered, failure, gs, ts);
      GiveBack(factory, gs + Guards(samples), ts);
      TrackersValid(gs + Guards(samples), ts);
      assert state.NotSubscribed? ==> samples == [];
    }

    method Reserve(n: nat, spurious: seq<bool>, ghost gs: set<SampleReferenceGuard>,
                   ghost ts: set<SampleReferenceTracker>) returns (factory: TrackerGuardFactory)
      requires Pool(gs, ts) && tracker in ts
      modifies tracker`available, tracker`reserved
      ensures fresh(factory) && factory.tracker == tracker && Pool(gs, ts)
      ensures factory.count == Min(old(tracker.available), n)
      ensures tracker.Books() == old(tracker.Books()).(available := old(tracker.available) - factory.count,
                                                       reserved := old(tracker.reserved) + factory.count)
    {
      hide Ledger.Balanced, Booked, Holding;
      factory := tracker.Allocate(n, spurious);
    }

    method GiveBack(factory: TrackerGuardFactory, ghost gs: set<SampleReferenceGuard>,
                    ghost ts: set<SampleReferenceTracker>)
      requires Pool(gs, ts) && tracker in ts && factory.tracker == tracker && factory.count <= tracker.reserved
      modifies factory, tracker`available, tracker`reserved
      ensures Pool(gs, ts)
      ensures tracker.Books() == old(tracker.Books()).(available := old(tracker.available) + old(factory.count),
                                                       reserved := old(tracker.reserved) - old(factory.count))
    {
      hide Ledger.Balanced, Booked, Holding;
      factory.Destroy();
    }

    /** What happens between the allocation and the end of the factory's life. */
    method Receive(factory: TrackerGuardFactory, offered: seq<nat>, failure: Option<Failure>,
                   ghost gs: set<SampleReferenceGuard>, ghost ts: set<SampleReferenceTracker>)
        returns (result: Result<nat, ComError>, samples: seq<SamplePtr>)
      requires Pool(gs, ts) && tracker in ts && factory.tracker == tracker && factory.count <= tracker.reserved
      modifies factory, tracker
      ensures Answered(old(factory.count), state, offered, failure, result, |samples|)
      ensures Delivered(samples, offered, old(tracker.issued), tracker.owner) && Distinct(samples)
      ensures Pool(gs + Guards(samples), ts) && fresh(samples) && fresh(Guards(samples))
      ensures factory.count == old(factory.count) - |samples|
      ensures tracker.Books() == old(tracker.Books()).(
                reserved := old(tracker.reserved) - |samples|, issued := old(tracker.issued) + |samples|,
                owner := tracker.owner)
      ensures samples == [] ==> tracker.owner == old(tracker.owner)
    {
      hide Pool, Delivered, Guards, Distinct;
      samples := [];
      NoneDelivered(offered, tracker.issued, tracker.owner);
      assert gs + {} == gs;
      if factory.count == 0 {
        result := Err(MaxSamplesReached);
      } else if state == NotSubscribed {
        result := Err(NotSubscribedError);
      } else {
        samples := Deliver(factory, Reachable(offered, failure), gs, ts);
        DeliveredOfAll(samples, offered, failure, old(tracker.issued), tracker.owner);
        result := if failure.None? then Ok(|samples|)
                  else Err(if failure.value.notSubscribed then NotSubscribedError else BindingFailure);
      }
    }

    static ghost function Guards(samples: seq<SamplePtr>): set<SampleReferenceGuard>
    {
      set p | p in samples :: p.guard
    }

    /** One guard from the factory for one sample. */
    method DeliverOne(factory: TrackerGuardFactory, sample: nat, ghost gs: set<SampleReferenceGuard>,
                      ghost ts: set<SampleReferenceTracker>) returns (p: SamplePtr)
      requires Pool(gs, ts) && tracker in ts && factory.tracker == tracker && 0 < factory.count <= tracker.reserved
      modifies factory, tracker
      ensures Pool(gs + {p.guard}, ts) && fresh(p.guard) && p.guard !in gs
      ensures fresh(p) && p.sample == Some(sample)
      ensures factory.count == old(factory.count) - 1
      ensures tracker.Books() == old(tracker.Books()).(
                reserved := old(tracker.reserved) - 1, issued := old(tracker.issued) + 1,
                owner := old(tracker.owner)[old(tracker.issued) := p.guard])
    {
      hide Pool, OnlyFreed, BooksOf, Ledger.Balanced;
      TrackersValid(gs, ts);
      var guard := factory.TakeGuard();
      assert NewGuard(guard, tracker, gs, ts);
      p := new SamplePtr(Some(sample), guard, gs + {guard}, ts);
      PoolShrinks(gs + {guard} + {p.guard}, ts, guard);
      assert gs + {guard} + {p.guard} - {guard} == gs + {p.guard};
      assert old(tracker.owner)[old(tracker.issued) := guard][old(tracker.issued) := p.guard]
          == old(tracker.owner)[old(tracker.issued) := p.guard];
    }

    /** Sample `k` is the binding's sample `k` and holds the reference numbered `first + k`. */
    static ghost predicate Delivered(samples: seq<SamplePtr>, offered: seq<nat>, first: nat,
                                     owner: map<nat, SampleReferenceGuard>)
      reads samples
    {
      && |samples| <= |offered|
      && forall k :: 0 <= k < |samples| ==>
           && samples[k].sample == Some(offered[k])
           && first + k in owner && owner[first + k] == samples[k].guard
    }

    static ghost predicate Distinct(samples: seq<SamplePtr>)
    {
      forall i, j :: 0 <= i < j < |samples| ==> samples[i].guard != samples[j].guard
    }

    static lemma NoneDelivered(offered: seq<nat>, first: nat, owner: map<nat, SampleReferenceGuard>)
      ensures Delivered([], offered, first, owner) && Distinct([]) && Guards([]) == {}
    {
    }

    static lemma OneMoreDelivered(samples: seq<SamplePtr>, offered: seq<nat>, first: nat,
                                  owner: map<nat, SampleReferenceGuard>, p: SamplePtr)
      requires Delivered(samples, offered, first, owner) && Distinct(samples) && p.guard !in Guards(samples)
      requires |samples| < |offered| && p.sample == Some(offered[|samples|])
      ensures Delivered(samples + [p], offered, first, owner[first + |samples| := p.guard])
      ensures Distinct(samples + [p]) && Guards(samples + [p]) == Guards(samples) + {p.guard}
    {
      forall g | g in Guards(samples) + {p.guard} ensures g in Guards(samples + [p]) {
        var q :| q in samples + [p] && q.guard == g;
      }
      assert forall i :: 0 <= i < |samples| ==> samples[i].guard in Guards(samples);
    }

    static lemma DeliveredOfAll(samples: seq<SamplePtr>, offered: seq<nat>, failure: Option<Failure>, first: nat,
                                owner: map<nat, SampleReferenceGuard>)
      requires Delivered(samples, Reachable(offered, failure), first, owner)
      ensures Delivered(samples, offered, first, owner)
    {
    }

    /** The binding's part: samples go to the receiver until they or the guards
        run out. */
    method Deliver(factory: TrackerGuardFactory, offered: seq<nat>, ghost gs: set<SampleReferenceGuard>,
                   ghost ts: set<SampleReferenceTracker>) returns (samples: seq<SamplePtr>)
      requires Pool(gs, ts) && tracker in ts && factory.tracker == tracker && factory.count <= tracker.reserved
      modifies factory, tracker
      ensures |samples| == Min(old(factory.count), |offered|) && factory.count == old(factory.count) - |samples|
      ensures Delivered(samples, offered, old(tracker.issued), tracker.owner) && Distinct(samples)
      ensures Pool(gs + Guards(samples), ts) && fresh(samples) && fresh(Guards(samples))
      ensures tracker.Books() == old(tracker.Books()).(
                reserved := old(tracker.reserved) - |samples|, issued := old(tracker.issued) + |samples|,
                owner := tracker.owner)
      ensures samples == [] ==> tracker.owner == old(tracker.owner)
    {
      hide Pool, Delivered, Guards, Distinct;
      ghost var books, held := tracker.Books(), factory.count;
      samples := [];
      NoneDelivered(offered, tracker.issued, tracker.owner);
      assert gs + {} == gs;
      while |samples| < |offered| && factory.count > 0
        invariant |samples| <= |offered| && factory.count + |samples| == held
        invariant Delivered(samples, offered, books.issued, tracker.owner) && Distinct(samples)
        invariant Pool(gs + Guards(samples), ts) && fresh(samples) && fresh(Guards(samples))
        invariant tracker.Books() == books.(reserved := books.reserved - |samples|, issued := books.issued + |samples|,
                                            owner := tracker.owner)
        invariant samples == [] ==> tracker.owner == books.owner
        decreases |offered| - |samples|
      {
        ghost var owner, guards := tracker.owner, Guards(samples);
        var p := DeliverOne(factory, offered[|samples|], gs + guards, ts);
        OneMoreDelivered(samples, offered, books.issued, owner, p);
        samples := samples + [p];
        assert gs + guards + {p.guard} == gs + Guards(samples);
      }
    }
  }

  /** The samples a failing binding still delivers. */
  function Reachable(offered: seq<nat>, failure: Option<Failure>): seq<nat>
  {
    if failure.None? then offered else offered[..Min(failure.value.after, |offered|)]
  }

  /** What `GetNewSamples` may return with `free` slots reserved, and how many samples
      it hands out: no sample without a free slot or a subscription, otherwise as
      many as fit and can be had; the number returned is the number handed out. */
  predicate Answered(free: nat, state: SubscriptionState, offered: seq<nat>, failure: Option<Failure>,
                     result: Result<nat, ComError>, count: nat)
  {
    if free == 0 then result == Err(MaxSamplesReached) && count == 0
    else if state.NotSubscribed? then result == Err(NotSubscribedError) && count == 0
    else
      && count == Min(free, |Reachable(offered, failure)|)
      && result == if failure.None? then Ok(count)
                   else Err(if failure.value.notSubscribed then NotSubscribedError else BindingFailure)
  }

  lemma TrackersValid(gs: set<SampleReferenceGuard>, ts: set<SampleReferenceTracker>)
    requires Pool(gs, ts)
    ensures forall t :: t in ts ==> t.Valid()
  {
  }

  /** A guard that has just turned a reserved reference into a live one. */
  twostate predicate NewGuard(new g: SampleReferenceGuard, t: SampleReferenceTracker, gs: set<SampleReferenceGuard>,
                              ts: set<SampleReferenceTracker>)
    requires old(Pool(gs, ts)) && t in ts && t.Valid() && g !in gs
    requires g.tracker == t && g.ref == old(t.issued) && t.owner == old(t.owner)[g.ref := g]
    requires forall u :: u in ts && u != t ==> u.Valid() && u.owner == old(u.owner)
    requires forall h :: h in gs ==> h.tracker == old(h.tracker) && h.ref == old(h.ref)
    reads g, t, gs, ts
    ensures Pool(gs + {g}, ts)
  {
    true
  }

  // ----- whole runs of any number of events and their sample pointers

  datatype EventOp =
    | Subscribe(e: nat, n: nat, accepted: bool, newState: SubscriptionState)
    | Unsubscribe(e: nat)
    | BindingChanges(e: nat, newState: SubscriptionState)
    | GetNewSamples(e: nat, maxNumSamples: nat, offered: seq<nat>, failure: Option<Failure>, spurious: seq<bool>)
    | Pointer(op: PtrOp)

  ghost function TrackersOf(es: seq<ProxyEvent>): set<SampleReferenceTracker>
  {
    set e | e in es :: e.tracker
  }

  /** Each event has its own tracker, and while it is not subscribed nothing of it
      is outstanding, whichever pointers hold its references. */
  ghost predicate AllValid(es: seq<ProxyEvent>)
    reads es, TrackersOf(es)
  {
    && (forall i :: 0 <= i < |es| ==> es[i].Valid())
    && (forall i, j :: 0 <= i < j < |es| ==> es[i].tracker != es[j].tracker)
  }

  /** The process has not been terminated by any of the events. */
  predicate Alive(es: seq<ProxyEvent>)
    reads es
  {
    forall i :: 0 <= i < |es| ==> !es[i].terminated
  }

  /** The state of the event with number `i` after an operation on any event. */
  function StateAfter(state: SubscriptionState, op: EventOp, i: nat): SubscriptionState
  {
    match op
    case Subscribe(j, _, _, newState) => if j == i && state.NotSubscribed? then newState else state
    case Unsubscribe(j) => if j == i then NotSubscribed else state
    case BindingChanges(j, newState) =>
      if j == i && !state.NotSubscribed? && !newState.NotSubscribed? then newState else state
    case _ => state
  }

  function StateAfterAll(state: SubscriptionState, ops: seq<EventOp>, i: nat): SubscriptionState
  {
    if ops == [] then state else StateAfter(StateAfterAll(state, ops[..|ops| - 1], i), ops[|ops| - 1], i)
  }

  /** Sample pointers only pass references on or give them back. */
  lemma NoReferenceAppears(before: Ledger, after: Ledger)
    requires before.Balanced() && after.Balanced() && Continues(before, after)
    ensures after.owner.Keys <= before.owner.Keys
  {
    forall r | r in after.owner.Keys ensures r in before.owner.Keys {
      assert r < after.issued && r !in after.released;
    }
  }

  /** New samples bring guards nobody had. */
  lemma Delivery(ptrs: seq<SamplePtr>, gs: set<SampleReferenceGuard>, samples: seq<SamplePtr>)
    requires GuardsOf(ptrs, gs) && ProxyEvent.Distinct(samples) && gs !! ProxyEvent.Guards(samples)
    ensures GuardsOf(ptrs + samples, gs + ProxyEvent.Guards(samples))
  {
    var all := ptrs + samples;
    assert forall i :: 0 <= i < |samples| ==>
             all[|ptrs| + i] == samples[i] && samples[i].guard in ProxyEvent.Guards(samples);
    forall g | g in gs + ProxyEvent.Guards(samples) ensures exists i :: 0 <= i < |all| && all[i].guard == g {
      if g in gs {
        var i :| 0 <= i < |ptrs| && ptrs[i].guard == g;
        assert all[i].guard == g;
      } else {
        var i :| 0 <= i < |samples| && samples[i].guard == g;
        assert all[|ptrs| + i].guard == g;
      }
    }
  }

  method PerformSubscribe(es: seq<ProxyEvent>, i: nat, n: nat, accepted: bool, newState: SubscriptionState,
                          ghost gs: set<SampleReferenceGuard>)
    requires AllValid(es) && Alive(es) && Pool(gs, TrackersOf(es)) && i < |es|
    modifies es, TrackersOf(es)
    ensures AllValid(es) && Alive(es) && Pool(gs, TrackersOf(es))
    ensures es[i].state == if old(es[i].state).NotSubscribed? then newState else old(es[i].state)
    ensures forall j :: 0 <= j < |es| && j != i ==> es[j].state == old(es[j].state)
    ensures old(es[i].state).NotSubscribed? ==> es[i].tracker.available == n
  {
    hide Ledger.Balanced, Booked, Holding;
    var _ := es[i].Subscribe(n, accepted, newState);
  }

  method PerformUnsubscribe(es: seq<ProxyEvent>, i: nat, ghost gs: set<SampleReferenceGuard>)
    requires AllValid(es) && Alive(es) && Pool(gs, TrackersOf(es)) && i < |es|
    modifies es
    ensures AllValid(es) && Pool(gs, TrackersOf(es)) && es[i].state == NotSubscribed
    ensures forall j :: 0 <= j < |es| && j != i ==> es[j].state == old(es[j].state)
    ensures Alive(es) <==> old(es[i].state).NotSubscribed? || es[i].tracker.owner == map[]
  {
    hide Ledger.Balanced, Booked, Holding, Pool;
    es[i].Unsubscribe();
  }

  method PerformDelivery(es: seq<ProxyEvent>, i: nat, op: EventOp, ptrs: seq<SamplePtr>,
                         ghost gs: set<SampleReferenceGuard>)
      returns (ptrs': seq<SamplePtr>, ghost gs': set<SampleReferenceGuard>)
    requires AllValid(es) && Alive(es) && Pool(gs, TrackersOf(es)) && GuardsOf(ptrs, gs)
    requires op.GetNewSamples? && i < |es|
    modifies TrackersOf(es)
    ensures AllValid(es) && Alive(es) && Pool(gs', TrackersOf(es)) && GuardsOf(ptrs', gs')
    ensures ptrs <= ptrs' && forall i :: |ptrs| <= i < |ptrs'| ==> fresh(ptrs'[i])
    ensures fresh(gs' - gs)
    ensures |ptrs'| == |ptrs| + (if es[i].state.NotSubscribed? then 0
                                 else Min(Min(old(es[i].tracker.available), op.maxNumSamples),
                                          |Reachable(op.offered, op.failure)|))
  {
    hide Pool, GuardsOf, ProxyEvent.Delivered, ProxyEvent.Distinct, ProxyEvent.Guards, Ledger.Balanced;
    var _, samples := es[i].GetNewSamples(op.maxNumSamples, op.offered, op.failure, op.spurious, gs, TrackersOf(es));
    Delivery(ptrs, gs, samples);
    ptrs', gs' := ptrs + samples, gs + ProxyEvent.Guards(samples);
  }

  /** Pointer operations leave every event as it is, except that references come back. */
  lemma StillValid(before: Ledger, e: ProxyEvent)
    requires before.Balanced() && e.tracker.Valid() && Continues(before, e.tracker.Books())
    requires before.reserved == 0 && (e.state.NotSubscribed? && !e.terminated ==> before.owner == map[])
    requires !e.state.NotSubscribed? ==> before.max == e.maxSampleCount
    ensures e.Valid()
  {
    NoReferenceAppears(before, e.tracker.Books());
  }

  method PerformPointerOp(es: seq<ProxyEvent>, op: PtrOp, ptrs: seq<SamplePtr>, ghost gs: set<SampleReferenceGuard>)
      returns (ptrs': seq<SamplePtr>, ghost gs': set<SampleReferenceGuard>)
    requires AllValid(es) && Alive(es) && Pool(gs, TrackersOf(es)) && GuardsOf(ptrs, gs) && InRange(op, |ptrs|)
    modifies ptrs, TrackersOf(es), gs
    ensures AllValid(es) && Alive(es) && Pool(gs', TrackersOf(es)) && GuardsOf(ptrs', gs')
    ensures Holds(ptrs') == Effect(old(Holds(ptrs)), op)
    ensures forall i :: 0 <= i < |ptrs'| ==> ptrs'[i] in ptrs || fresh(ptrs'[i])
    ensures forall g :: g in gs' ==> g in gs || fresh(g)
  {
    hide Pool, GuardsOf, Ledger.Balanced, Holds, Effect, Freed, OnlyFreed, Continues;
    ghost var ts := TrackersOf(es);
    ghost var books, held := BooksOf(ts), Holds(ptrs);
    ptrs', gs' := PerformOne(ptrs, op, gs, ts);
    TrackersValid(gs', ts);
    Unchanged(books);
    FreeingContinues(books, books, BooksOf(ts), Freed(held, op));
    forall i | 0 <= i < |es| ensures es[i].Valid() {
      assert es[i].tracker in ts;
      StillValid(books[es[i].tracker], es[i]);
    }
  }

  method PerformBindingChange(es: seq<ProxyEvent>, i: nat, newState: SubscriptionState,
                              ghost gs: set<SampleReferenceGuard>)
    requires AllValid(es) && Alive(es) && Pool(gs, TrackersOf(es)) && i < |es|
    modifies es
    ensures AllValid(es) && Alive(es) && Pool(gs, TrackersOf(es))
    ensures es[i].state == if old(es[i].state).NotSubscribed? || newState.NotSubscribed? then old(es[i].state)
                           else newState
    ensures forall j :: 0 <= j < |es| && j != i ==> es[j].state == old(es[j].state)
  {
    hide Pool, Ledger.Balanced;
    if !es[i].state.NotSubscribed? && !newState.NotSubscribed? {
      es[i].BindingChangesState(newState);
    }
  }

  /** One operation of a program that may also not be possible, and is then skipped. */
  method PerformEventOp(es: seq<ProxyEvent>, op: EventOp, ptrs: seq<SamplePtr>, ghost gs: set<SampleReferenceGuard>)
      returns (ptrs': seq<SamplePtr>, ghost gs': set<SampleReferenceGuard>)
    requires AllValid(es) && Alive(es) && Pool(gs, TrackersOf(es)) && GuardsOf(ptrs, gs)
    modifies es, TrackersOf(es), gs, ptrs
    ensures AllValid(es) && Pool(gs', TrackersOf(es)) && GuardsOf(ptrs', gs')
    ensures forall i :: 0 <= i < |es| ==> es[i].state == StateAfter(old(es[i].state), op, i)
    ensures op.GetNewSamples? && op.e < |es| && !es[op.e].state.NotSubscribed? ==>
              |ptrs'| == |ptrs| + Min(Min(old(es[op.e].tracker.available), op.maxNumSamples),
                                      |Reachable(op.offered, op.failure)|)
    ensures op.Pointer? && InRange(op.op, |ptrs|) ==> Holds(ptrs') == Effect(old(Holds(ptrs)), op.op)
    ensures forall i :: 0 <= i < |ptrs'| ==> ptrs'[i] in ptrs || fresh(ptrs'[i])
    ensures forall g :: g in gs' ==> g in gs || fresh(g)
  {
    hide Pool, GuardsOf, AllValid;
    ptrs', gs' := ptrs, gs;
    match op
    case Subscribe(i, n, accepted, newState) =>
      if i < |es| { PerformSubscribe(es, i, n, accepted, newState, gs); }
    case Unsubscribe(i) => if i < |es| { PerformUnsubscribe(es, i, gs); }
    case BindingChanges(i, newState) => if i < |es| { PerformBindingChange(es, i, newState, gs); }
    case GetNewSamples(i, _, _, _, _) => if i < |es| { ptrs', gs' := PerformDelivery(es, i, op, ptrs, gs); }
    case Pointer(ptrOp) => if InRange(ptrOp, |ptrs|) { ptrs', gs' := PerformPointerOp(es, ptrOp, ptrs, gs); }
  }

  /** Any subscriptions, unsubscriptions, state changes, deliveries and sample
      pointer operations, on any number of events and of pointers that may pass
      references from one event's pointer to another's, until the script ends or
      the process terminates.  After every script each event is in the state the
      operations performed lead to and still has the books
      right, and one that is not subscribed has nothing outstanding; on the way
      no tracker is reset with a reference outstanding (`Subscribe` calls
      `Reset`, which demands it). */
  method RunEvents(es: seq<ProxyEvent>, start: seq<SamplePtr>, ops: seq<EventOp>, ghost gs0: set<SampleReferenceGuard>)
      returns (done: nat, ptrs: seq<SamplePtr>, ghost gs: set<SampleReferenceGuard>)
    requires AllValid(es) && Alive(es) && Pool(gs0, TrackersOf(es)) && GuardsOf(start, gs0)
    modifies es, TrackersOf(es), gs0, start
    ensures AllValid(es) && Pool(gs, TrackersOf(es)) && GuardsOf(ptrs, gs)
    ensures done <= |ops| && (done < |ops| ==> !Alive(es))
    ensures forall i :: 0 <= i < |es| ==> es[i].state == StateAfterAll(old(es[i].state), ops[..done], i)
    ensures forall i :: 0 <= i < |ptrs| ==> ptrs[i] in start || fresh(ptrs[i])
    ensures forall g :: g in gs ==> g in gs0 || fresh(g)
  {
    hide Pool, GuardsOf, AllValid;
    done, ptrs, gs := 0, start, gs0;
    ghost var before := seq(|es|, i requires 0 <= i < |es| reads es => es[i].state);
    while done < |ops| && Alive(es)
      invariant done <= |ops|
      invariant forall i :: 0 <= i < |es| ==> es[i].state == StateAfterAll(before[i], ops[..done], i)
      invariant AllValid(es) && Pool(gs, TrackersOf(es)) && GuardsOf(ptrs, gs)
      invariant forall i :: 0 <= i < |ptrs| ==> ptrs[i] in start || fresh(ptrs[i])
      invariant forall g :: g in gs ==> g in gs0 || fresh(g)
    {
      ptrs, gs := PerformEventOp(es, ops[done], ptrs, gs);
      assert ops[..done + 1][..done] == ops[..done];
      done := done + 1;
    }
  }

  /** After such a run all pointers are destroyed: every reference ever issued by
      any event has come back, and every counter is complete. */
  method AnyRun(es: seq<ProxyEvent>, start: seq<SamplePtr>, ops: seq<EventOp>, ghost gs0: set<SampleReferenceGuard>)
    requires AllValid(es) && Alive(es) && Pool(gs0, TrackersOf(es)) && GuardsOf(start, gs0)
    modifies es, TrackersOf(es), gs0, start
    ensures forall i :: 0 <= i < |es| ==>
              && es[i].tracker.owner == map[] && es[i].tracker.available == es[i].tracker.max
              && forall r :: 0 <= r < es[i].tracker.issued ==> r in es[i].tracker.released
  {
    hide Pool, GuardsOf, AllValid, Ledger.Balanced, Continues;
    var done, ptrs;
    ghost var gs;
    done, ptrs, gs := RunEvents(es, start, ops, gs0);
    ghost var ts := TrackersOf(es);
    ghost var books := BooksOf(ts);
    AllValidReserve(es);
    DestroyAll(ptrs, gs, ts);
    forall i | 0 <= i < |es| ensures es[i].tracker in ts && es[i].tracker.reserved == books[es[i].tracker].reserved {
      assert es[i].tracker in ts;
      SameReserve(books, BooksOf(ts), es[i].tracker);
    }
  }

  lemma AllValidReserve(es: seq<ProxyEvent>)
    requires AllValid(es)
    ensures forall i :: 0 <= i < |es| ==> es[i].tracker.reserved == 0
  {
  }

  lemma SameReserve(before: map<SampleReferenceTracker, Ledger>, after: map<SampleReferenceTracker, Ledger>,
                    t: SampleReferenceTracker)
    requires AllContinue(before, after) && t in after
    ensures t in before && after[t].reserved == before[t].reserved
  {
  }
}
