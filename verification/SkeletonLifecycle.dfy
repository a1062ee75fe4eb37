/** Offering, stopping and destroying skeletons, and whole runs over any number
    of them. */
module SkeletonLifecycle {

  import opened Wrappers
  import opened Skeletons
  import opened SkeletonMoves

  datatype Outcome =
    | Halted                     // a production assertion failed or the process terminated
    | Returned(result: Answer)

  predicate Succeeded(outcome: Outcome) { outcome.Returned? && outcome.result.Ok? }

  /** What the environment answers to the calls one `OfferService` makes. */
  datatype Answers = Answers(
    root: Answer,
    events: map<Name, Answer>,
    fields: map<Name, Answer>,
    values: map<Name, Answer>,   // the deferred update of each field
    finalize: Answer,
    discovery: Answer)

  function At(answers: map<Name, Answer>, n: Name): Answer
  {
    if n in answers then answers[n] else Ok(())
  }

  // ----- what the outside may rely on when a service becomes discoverable

  /** The field has had its value accepted by its binding: the last one `Update`
      saved before the field was offered.  It is the first value there, unless
      memory of another binding was sent to this one earlier. */
  ghost predicate Complete(f: SkeletonField, w: World)
    reads w.fields, w.events, w.bindings
  {
    && f in w.fields && f.prepared && f.initial == None
    && f.event in w.events && f.event.offered && f.event.binding in w.bindings
    && f.history.saved.Some? && f.history.early < |f.event.binding.values|
    && f.event.binding.values[f.history.early] == f.history.saved.value
  }

  /** Every registered event is offered and every registered field complete. */
  ghost predicate ReadyForUsers(s: Skeleton, w: World)
    reads s`events, s`fields, w.fields, w.events, w.bindings
  {
    && (forall n :: n in s.events ==> s.events[n] in w.events && s.events[n].offered)
    && (forall n :: n in s.fields ==> Complete(s.fields[n], w))
  }

  /** The call into the binding that makes the offer visible. */
  method FinalizeOffer(s: Skeleton, answer: Answer, ghost w: World) returns (result: Answer)
    requires s.binding != null && s.binding.prepared && ReadyForUsers(s, w)
    ensures result == answer
  {
    result := answer;
  }

  /** The call that announces the service to its users. */
  method OfferInServiceDiscovery(s: Skeleton, answer: Answer, ghost w: World) returns (result: Answer)
    requires s.serviceOffered && ReadyForUsers(s, w)
    ensures result == answer
  {
    result := answer;
  }

  // ----- OfferService

  ghost predicate Bound(s: Skeleton, w: World)
    reads s`events, s`fields, w.fields`event, w.events`binding
  {
    && (forall n :: n in s.events ==> s.events[n] in w.events && s.events[n].binding != null)
    && (forall n :: n in s.fields ==>
          s.fields[n] in w.fields && s.fields[n].event in w.events && s.fields[n].event.binding != null)
  }

  /** The assertions of both functions that collect the element bindings. */
  method AllBound(s: Skeleton, ghost w: World) returns (ok: bool)
    requires Sound(w) && s in w.skeletons && s.events == s.ownEvents && s.fields == s.ownFields
    ensures ok <==> Bound(s, w)
  {
    forall n | n in s.events ensures s.events[n] in w.events { Members(w, s, n); }
    forall n | n in s.fields
      ensures s.fields[n] in w.fields && (s.fields[n].event != null ==> s.fields[n].event in w.events)
    {
      FieldMembers(w, s, n);
    }
    hide Sound;
    ok := true;
    var todo := s.events.Keys;
    while todo != {}
      invariant todo <= s.events.Keys
      invariant ok <==> forall n :: n in s.events && n !in todo ==> s.events[n].binding != null
      decreases todo
    {
      var n :| n in todo;
      ok := ok && s.events[n].binding != null;
      todo := todo - {n};
    }
    todo := s.fields.Keys;
    ghost var eventsOk := ok;
    while todo != {}
      invariant todo <= s.fields.Keys
      invariant ok <==> eventsOk && forall n :: n in s.fields && n !in todo ==>
                  s.fields[n].event != null && s.fields[n].event.binding != null
      decreases todo
    {
      var n :| n in todo;
      ok := ok && s.fields[n].event != null && s.fields[n].event.binding != null;
      todo := todo - {n};
    }
  }

  /** The events are prepared one by one until one fails. */
  method OfferServiceEvents(s: Skeleton, answers: map<Name, Answer>, ghost w: World) returns (result: Answer)
    requires Sound(w) && s in w.skeletons && Bound(s, w)
    modifies w.events`offered, w.bindings`offered
    ensures Sound(w)
    ensures result.Ok? ==> EventsReady(s, w, s.events.Keys)
    ensures result.Ok? <==> forall n :: n in s.events ==> At(answers, n).Ok?
    ensures result.Err? ==> result == Err(BindingFailure)
    ensures forall e :: e in w.events && old(e.offered) ==> e.offered
  {
    hide Sound;
    var todo := s.events.Keys;
    while todo != {}
      invariant todo <= s.events.Keys && Sound(w)
      invariant EventsReady(s, w, s.events.Keys - todo)
      invariant forall n :: n in s.events && n !in todo ==> At(answers, n).Ok?
      invariant forall e :: e in w.events && old(e.offered) ==> e.offered
      decreases todo
    {
      var n :| n in todo;
      OfferEvent(s.events[n], At(answers, n), w);
      if At(answers, n).Err? {
        return Err(BindingFailure);
      }
      todo := todo - {n};
    }
    return Ok(());
  }

  ghost predicate EventsReady(s: Skeleton, w: World, names: set<Name>)
    reads s`events, w.events`offered
  {
    forall n :: n in names && n in s.events ==> s.events[n] in w.events && s.events[n].offered
  }

  /** The environment and the saved value let the field be offered. */
  predicate CanOffer(f: SkeletonField, answer: Answer, valueAnswer: Answer)
    reads f`prepared, f`initial
  {
    answer.Ok? && (f.prepared || (f.initial.Some? && valueAnswer.Ok?))
  }

  /** The field refuses for want of a value, as far as it can tell. */
  predicate LacksValue(f: SkeletonField, answer: Answer)
    reads f`prepared, f`initial
  {
    (!f.prepared && f.initial.None?) || answer == Err(FieldValueIsNotValid)
  }

  /** Some registered field refuses for want of a value. */
  ghost predicate SomeLacksValue(s: Skeleton, answers: map<Name, Answer>)
    reads s`fields, s.fields.Values`prepared, s.fields.Values`initial
  {
    exists n :: n in s.fields && LacksValue(s.fields[n], At(answers, n))
  }

  /** Some registered field is refused for another reason. */
  ghost predicate SomeRefused(s: Skeleton, answers: map<Name, Answer>, values: map<Name, Answer>)
    reads s`fields, s.fields.Values`prepared, s.fields.Values`initial
  {
    exists n :: n in s.fields && !LacksValue(s.fields[n], At(answers, n))
                && !CanOffer(s.fields[n], At(answers, n), At(values, n))
  }

  /** No field forgets the value saved for it before its binding has taken it,
      and none becomes unprepared. */
  twostate predicate SavedValuesKept(fields: set<SkeletonField>)
    reads fields`prepared, fields`initial
  {
    forall f :: f in fields ==>
      && (old(f.prepared) ==> f.prepared)
      && (f.prepared == old(f.prepared) ==> f.initial == old(f.initial))
  }

  ghost predicate FieldsReady(s: Skeleton, w: World, names: set<Name>)
    reads s`fields, w.fields`prepared, w.fields`event, w.events`binding, w.events`offered
  {
    forall n :: n in names && n in s.fields ==>
      && s.fields[n] in w.fields && s.fields[n].prepared
      && s.fields[n].event in w.events && s.fields[n].event.offered && s.fields[n].event.binding != null
  }

  /** The error of one field as `OfferService` reports it. */
  function Reported(result: Answer): Answer
  {
    match result
    case Ok(_) => result
    case Err(FieldValueIsNotValid) => result
    case Err(_) => Err(BindingFailure)
  }

  method OfferNextField(s: Skeleton, f: SkeletonField, n: Name, answer: Answer, valueAnswer: Answer,
                        ghost todo: set<Name>,
                        ghost w: World) returns (result: Answer)
    requires Sound(w) && Bound(s, w) && n in todo && todo <= s.fields.Keys && s.fields[n] == f
    requires FieldsReady(s, w, s.fields.Keys - todo)
    modifies f`initial, f`prepared, w.events`offered, w.bindings`offered, w.bindings`values
    ensures Sound(w) && Bound(s, w)
    ensures result.Ok? <==> old(CanOffer(f, answer, valueAnswer))
    ensures result == Err(FieldValueIsNotValid) <==> old(LacksValue(f, answer))
    ensures result.Ok? ==> FieldsReady(s, w, s.fields.Keys - (todo - {n}))
    ensures f.prepared == (old(f.prepared) || result.Ok?)
    ensures f.prepared == old(f.prepared) ==> f.initial == old(f.initial)
    ensures forall e :: e in w.events && old(e.offered) ==> e.offered
  {
    hide Sound;
    result := OfferField(f, answer, valueAnswer, w);
  }

  /** The fields are prepared one by one until one fails. */
  method OfferServiceFields(s: Skeleton, answers: map<Name, Answer>, values: map<Name, Answer>, ghost w: World)
      returns (result: Answer)
    requires Sound(w) && s in w.skeletons && Bound(s, w)
    requires forall n :: n in s.fields ==> s.fields[n].name == n
    modifies w.fields`initial, w.fields`prepared, w.events`offered, w.bindings`offered, w.bindings`values
    ensures Sound(w) && SavedValuesKept(w.fields)
    ensures result.Ok? <==> forall n :: n in s.fields ==> old(CanOffer(s.fields[n], At(answers, n), At(values, n)))
    ensures result.Ok? ==> FieldsReady(s, w, s.fields.Keys)
    ensures result.Err? ==> result == Err(FieldValueIsNotValid) || result == Err(BindingFailure)
    ensures result == Err(FieldValueIsNotValid) ==> old(SomeLacksValue(s, answers))
    ensures result == Err(BindingFailure) ==> old(SomeRefused(s, answers, values))
    ensures forall e :: e in w.events && old(e.offered) ==> e.offered
  {
    hide Sound, Bound, FieldsReady, CanOffer, LacksValue;
    BoundFieldsExist(s, w);
    var todo := s.fields.Keys;
    NoFieldReadyYet(s, w);
    assert s.fields.Keys - todo == {};
    while todo != {}
      invariant todo <= s.fields.Keys && Sound(w) && Bound(s, w) && SavedValuesKept(w.fields)
      invariant forall n :: n in todo ==>
                  s.fields[n].prepared == old(s.fields[n].prepared) && s.fields[n].initial == old(s.fields[n].initial)
      invariant forall n :: n in s.fields && n !in todo ==>
                  old(CanOffer(s.fields[n], At(answers, n), At(values, n)))
      invariant FieldsReady(s, w, s.fields.Keys - todo)
      invariant forall e :: e in w.events && old(e.offered) ==> e.offered
      decreases todo
    {
      var n :| n in todo;
      var one := OfferNextField(s, s.fields[n], n, At(answers, n), At(values, n), todo, w);
      if one.Err? {
        return Reported(one);
      }
      todo := todo - {n};
    }
    assert s.fields.Keys - todo == s.fields.Keys;
    return Ok(());
  }

  lemma BoundFieldsExist(s: Skeleton, w: World)
    requires Bound(s, w)
    ensures forall n :: n in s.fields ==> s.fields[n] in w.fields
  {
  }

  lemma NoFieldReadyYet(s: Skeleton, w: World)
    ensures FieldsReady(s, w, {})
  {
  }

  lemma ReadyIsComplete(s: Skeleton, w: World)
    requires Sound(w) && EventsReady(s, w, s.events.Keys) && FieldsReady(s, w, s.fields.Keys)
    ensures ReadyForUsers(s, w)
  {
  }

  /** Events first, then fields; whatever happens no saved value is lost. */
  method OfferElements(s: Skeleton, a: Answers, ghost w: World) returns (result: Answer)
    requires Sound(w) && s in w.skeletons && Bound(s, w)
    requires forall n :: n in s.fields ==> s.fields[n].name == n
    modifies w.fields`initial, w.fields`prepared, w.events`offered, w.bindings`offered, w.bindings`values
    ensures Sound(w) && SavedValuesKept(w.fields)
    ensures result.Ok? <==> old(EventsCanBeOffered(s, a) && FieldsCanBeOffered(s, a))
    ensures result.Ok? ==> ReadyForUsers(s, w)
    ensures result.Err? ==> result == Err(FieldValueIsNotValid) || result == Err(BindingFailure)
    ensures result == Err(FieldValueIsNotValid) ==> old(EventsCanBeOffered(s, a) && SomeLacksValue(s, a.fields))
    ensures result == Err(BindingFailure) ==> old(!EventsCanBeOffered(s, a) || SomeRefused(s, a.fields, a.values))
    ensures old(EventsCanBeOffered(s, a)) ==> EventsReady(s, w, s.events.Keys)
  {
    hide Sound, Bound, EventsReady, FieldsReady, ReadyForUsers, SomeLacksValue, SomeRefused;
    result := OfferServiceEvents(s, a.events, w);
    if result.Err? {
      return;
    }
    result := OfferFieldsToo(s, a, w);
  }

  method OfferFieldsToo(s: Skeleton, a: Answers, ghost w: World) returns (result: Answer)
    requires Sound(w) && s in w.skeletons && Bound(s, w) && EventsReady(s, w, s.events.Keys)
    requires forall n :: n in s.fields ==> s.fields[n].name == n
    modifies w.fields`initial, w.fields`prepared, w.events`offered, w.bindings`offered, w.bindings`values
    ensures Sound(w) && SavedValuesKept(w.fields)
    ensures result.Ok? <==> old(FieldsCanBeOffered(s, a))
    ensures result.Ok? ==> ReadyForUsers(s, w)
    ensures result.Err? ==> result == Err(FieldValueIsNotValid) || result == Err(BindingFailure)
    ensures result == Err(FieldValueIsNotValid) ==> old(SomeLacksValue(s, a.fields))
    ensures result == Err(BindingFailure) ==> old(SomeRefused(s, a.fields, a.values))
    ensures EventsReady(s, w, s.events.Keys)
  {
    hide Sound, Bound, FieldsReady, ReadyForUsers, SavedValuesKept, SomeLacksValue, SomeRefused;
    result := OfferServiceFields(s, a.fields, a.values, w);
    if result.Ok? {
      ReadyIsComplete(s, w);
    }
  }

  ghost predicate EventsCanBeOffered(s: Skeleton, a: Answers)
    reads s`events
  {
    forall n :: n in s.events ==> At(a.events, n).Ok?
  }

  ghost predicate FieldsCanBeOffered(s: Skeleton, a: Answers)
    reads s`fields, s.fields.Values`prepared, s.fields.Values`initial
  {
    forall n :: n in s.fields ==> CanOffer(s.fields[n], At(a.fields, n), At(a.values, n))
  }

  /** `OfferService`.  It halts without a binding, or if an element has none.  It
      succeeds exactly if every answer does and every field has a value to start
      with.  The calls that make the service visible demand that every event is
      offered and every field has its value, and whatever fails on the way, no
      saved value is lost. */
  method OfferService(s: Skeleton, a: Answers, ghost w: World) returns (outcome: Outcome)
    requires Sound(w) && s in w.skeletons && (s.binding != null ==> Linked(s))
    modifies s`serviceOffered, w.roots`prepared,
             w.fields`initial, w.fields`prepared, w.events`offered, w.bindings`offered, w.bindings`values
    ensures Sound(w) && SavedValuesKept(w.fields)
    ensures outcome.Halted? <==> s.binding == null || !old(Bound(s, w))
    ensures Succeeded(outcome) <==>
              && !outcome.Halted? && a.root.Ok? && a.finalize.Ok? && a.discovery.Ok?
              && old(EventsCanBeOffered(s, a) && FieldsCanBeOffered(s, a))
    ensures Succeeded(outcome) ==> s.serviceOffered && ReadyForUsers(s, w)
    ensures s.serviceOffered <==>
              || old(s.serviceOffered)
              || (!outcome.Halted? && a.root.Ok? && old(EventsCanBeOffered(s, a) && FieldsCanBeOffered(s, a)))
    ensures s.serviceOffered ==> old(s.serviceOffered) || ReadyForUsers(s, w)
    ensures outcome.Returned? && outcome.result.Err? ==>
              outcome.result == Err(FieldValueIsNotValid) || outcome.result == Err(BindingFailure)
    ensures outcome == Returned(Err(FieldValueIsNotValid)) ==>
              a.root.Ok? && old(EventsCanBeOffered(s, a) && SomeLacksValue(s, a.fields))
    ensures outcome == Returned(Err(BindingFailure)) ==>
              || a.root.Err? || a.finalize.Err? || a.discovery.Err?
              || old(!EventsCanBeOffered(s, a) || SomeRefused(s, a.fields, a.values))
    ensures Prepared(s, w.roots, !outcome.Halted? && a.root.Ok?)
    ensures !outcome.Halted? && a.root.Ok? && old(EventsCanBeOffered(s, a)) ==> EventsReady(s, w, s.events.Keys)
  {
    hide Sound, Bound, Linked, ReadyForUsers, EventsCanBeOffered, FieldsCanBeOffered, EventsReady, SomeLacksValue,
         SomeRefused;
    if s.binding == null {
      return Halted;
    }
    LinkedParts(s);
    var bound := AllBound(s, w);
    if !bound {
      return Halted;
    }
    var result := OfferBoundService(s, a, w);
    return Returned(result);
  }

  method OfferBoundService(s: Skeleton, a: Answers, ghost w: World) returns (result: Answer)
    requires Sound(w) && s in w.skeletons && s.binding != null && Linked(s) && Bound(s, w)
    modifies s`serviceOffered, w.roots`prepared,
             w.fields`initial, w.fields`prepared, w.events`offered, w.bindings`offered, w.bindings`values
    ensures Sound(w) && SavedValuesKept(w.fields)
    ensures result.Ok? <==>
              && a.root.Ok? && a.finalize.Ok? && a.discovery.Ok?
              && old(EventsCanBeOffered(s, a) && FieldsCanBeOffered(s, a))
    ensures result.Ok? ==> s.serviceOffered && ReadyForUsers(s, w)
    ensures s.serviceOffered <==>
              old(s.serviceOffered) || (a.root.Ok? && old(EventsCanBeOffered(s, a) && FieldsCanBeOffered(s, a)))
    ensures s.serviceOffered ==> old(s.serviceOffered) || ReadyForUsers(s, w)
    ensures result.Err? ==> result == Err(FieldValueIsNotValid) || result == Err(BindingFailure)
    ensures result == Err(FieldValueIsNotValid) ==>
              a.root.Ok? && old(EventsCanBeOffered(s, a) && SomeLacksValue(s, a.fields))
    ensures result == Err(BindingFailure) ==>
              || a.root.Err? || a.finalize.Err? || a.discovery.Err?
              || old(!EventsCanBeOffered(s, a) || SomeRefused(s, a.fields, a.values))
    ensures Prepared(s, w.roots, a.root.Ok?)
    ensures a.root.Ok? && old(EventsCanBeOffered(s, a)) ==> EventsReady(s, w, s.events.Keys)
  {
    hide Sound, Bound, ReadyForUsers, Linked, EventsCanBeOffered, FieldsCanBeOffered, EventsReady, SomeLacksValue,
         SomeRefused, Prepared;
    PrepareRoot(s, a.root, w);
    if a.root.Err? {
      return Err(BindingFailure);
    }
    FieldNames(s, w);
    result := OfferElements(s, a, w);
    if result.Err? {
      return;
    }
    SetServiceOffered(s, w);
    var _ := FinalizeOffer(s, a.finalize, w);
    if a.finalize.Err? {
      return Err(BindingFailure);
    }
    var _ := OfferInServiceDiscovery(s, a.discovery, w);
    if a.discovery.Err? {
      return Err(BindingFailure);
    }
  }

  lemma FieldNames(s: Skeleton, w: World)
    requires Sound(w) && s in w.skeletons && Linked(s)
    ensures forall n :: n in s.fields ==> s.fields[n].name == n
  {
  }

  /** The skeleton's binding is prepared if it was or `accepted`; all others are as
      they were. */
  twostate predicate Prepared(s: Skeleton, roots: set<SkeletonBinding>, accepted: bool)
    reads s`binding, roots`prepared
  {
    forall r :: r in roots ==> r.prepared == (old(r.prepared) || (r == s.binding && accepted))
  }

  method PrepareRoot(s: Skeleton, answer: Answer, ghost w: World)
    requires Sound(w) && s in w.skeletons && s.binding != null
    modifies w.roots`prepared
    ensures Sound(w) && s.binding.prepared == (old(s.binding.prepared) || answer.Ok?)
    ensures Prepared(s, w.roots, answer.Ok?)
  {
    hide Owned, Held, AllValued, EventsAtHome, FieldsAtHome;
    s.binding.PrepareOffer(answer);
  }

  method SetServiceOffered(s: Skeleton, ghost w: World)
    requires Sound(w) && s in w.skeletons && s.binding != null && s.binding.prepared
    modifies s`serviceOffered
    ensures Sound(w) && s.serviceOffered
  {
    hide Owned, Held, AllValued, EventsAtHome, FieldsAtHome;
    s.serviceOffered := true;
  }

  // ----- StopOfferService and destruction

  /** The event is registered with the skeleton, or dispatched to by a registered field. */
  ghost predicate Registered(s: Skeleton, e: SkeletonEvent)
    reads s`events, s`fields, s.fields.Values`event
  {
    || (exists n :: n in s.events && s.events[n] == e)
    || (exists n :: n in s.fields && s.fields[n].event == e)
  }

  method StopEvents(s: Skeleton, ghost w: World)
    requires Sound(w) && s in w.skeletons && s.events == s.ownEvents
    modifies w.events`offered, w.bindings`offered
    ensures Sound(w) && (forall n :: n in s.events ==> !s.events[n].offered)
    ensures forall e :: e in w.events && e.offered ==> old(e.offered)
    ensures forall e :: e in w.events && !Registered(s, e) ==> e.offered == old(e.offered)
  {
    hide Sound;
    var todo := s.events.Keys;
    while todo != {}
      invariant todo <= s.events.Keys && Sound(w)
      invariant forall n :: n in s.events && n !in todo ==> !s.events[n].offered
      invariant forall e :: e in w.events && e.offered ==> old(e.offered)
      invariant forall e :: e in w.events && !Registered(s, e) ==> e.offered == old(e.offered)
      decreases todo
    {
      var n :| n in todo;
      Members(w, s, n);
      StopEvent(s.events[n], w);
      todo := todo - {n};
    }
  }

  method StopFields(s: Skeleton, ghost w: World)
    requires Sound(w) && s in w.skeletons && s.fields == s.ownFields
    modifies w.events`offered, w.bindings`offered
    ensures Sound(w)
    ensures forall n :: n in s.fields && s.fields[n].event != null ==> !s.fields[n].event.offered
    ensures forall e :: e in w.events && e.offered ==> old(e.offered)
    ensures forall e :: e in w.events && !Registered(s, e) ==> e.offered == old(e.offered)
  {
    hide Sound;
    var todo := s.fields.Keys;
    while todo != {}
      invariant todo <= s.fields.Keys && Sound(w)
      invariant forall n :: n in s.fields && n !in todo && s.fields[n].event != null ==> !s.fields[n].event.offered
      invariant forall e :: e in w.events && e.offered ==> old(e.offered)
      invariant forall e :: e in w.events && !Registered(s, e) ==> e.offered == old(e.offered)
      decreases todo
    {
      var n :| n in todo;
      FieldMembers(w, s, n);
      if s.fields[n].event != null {
        StopField(s.fields[n], w);
      }
      todo := todo - {n};
    }
  }

  method StopRoot(s: Skeleton, ghost w: World)
    requires Sound(w) && s in w.skeletons
    modifies s`serviceOffered, w.roots`prepared
    ensures Sound(w) && !s.serviceOffered && StoppedOnly(s, w.roots)
  {
    hide Owned, Held, AllValued, EventsAtHome, FieldsAtHome;
    s.Cleanup();
  }

  /** Stops everything exactly if the service was offered, the skeleton's binding
      included, and nothing of anybody else.  After an offer that failed half way it
      does nothing: what was prepared by then stays so. */
  method StopOfferService(s: Skeleton, ghost w: World)
    requires Sound(w) && s in w.skeletons && (s.binding != null ==> Linked(s))
    modifies s`serviceOffered, w.roots`prepared, w.events`offered, w.bindings`offered
    ensures Sound(w) && !s.serviceOffered && StoppedOnly(s, w.roots)
    ensures old(s.serviceOffered) ==> s.binding != null && !s.binding.prepared
    ensures !old(s.serviceOffered) ==> forall e :: e in w.events ==> e.offered == old(e.offered)
    ensures old(s.serviceOffered) ==>
              && (forall n :: n in s.events ==> !s.events[n].offered)
              && (forall n :: n in s.fields && s.fields[n].event != null ==> !s.fields[n].event.offered)
    ensures forall e :: e in w.events && e.offered ==> old(e.offered)
    ensures forall e :: e in w.events && !Registered(s, e) ==> e.offered == old(e.offered)
  {
    hide Sound, Linked, Registered;
    if s.binding != null && s.serviceOffered {
      LinkedParts(s);
      StopEvents(s, w);
      EventsExist(s, w);
      StopFields(s, w);
      StopRoot(s, w);
    } else if s.binding == null {
      OnlyWithBinding(s, w);
    }
  }

  lemma EventsExist(s: Skeleton, w: World)
    requires Sound(w) && s in w.skeletons && s.events == s.ownEvents
    ensures forall n :: n in s.events ==> s.events[n] in w.events
  {
  }

  lemma OnlyWithBinding(s: Skeleton, w: World)
    requires Sound(w) && s in w.skeletons && s.binding == null
    ensures !s.serviceOffered
  {
  }
}
