/** Runs in which the code does not do what its users would expect. */
module SkeletonCases {

  import opened Wrappers
  import opened Skeletons
  import opened SkeletonMoves
  import opened SkeletonLifecycle
  import opened SkeletonRuns

  /** All members of `a` refer to `b`. */
  ghost predicate AllReferTo(a: Skeleton, b: Skeleton)
    reads a`ownEvents, a`ownFields, a.ownEvents.Values`skeleton, a.ownFields.Values`skeleton
  {
    && (forall n :: n in a.ownEvents ==> a.ownEvents[n].skeleton == b)
    && (forall n :: n in a.ownFields ==> a.ownFields[n].skeleton == b)
  }

  /** After a move the members of the source refer to the skeleton that took over. */
  twostate predicate TheyReferTo(new s: Skeleton, other: Skeleton, w: World)
    requires old(Sound(w)) && other in w.skeletons && old(Linked(other)) && Rebased(s, other, w)
    requires other.ownEvents == old(other.ownEvents) && other.ownFields == old(other.ownFields)
    reads other`ownEvents, other`ownFields, other.ownEvents.Values, other.ownFields.Values, w.events`skeleton,
          w.fields`skeleton
    ensures AllReferTo(other, s)
  {
    assert forall n :: n in other.ownEvents ==> other.ownEvents[n] in w.events;
    assert forall n :: n in other.ownFields ==> other.ownFields[n] in w.fields;
    true
  }

  /** Nobody else's members are concerned. */
  twostate predicate OthersReferAsBefore(new s: Skeleton, other: Skeleton, w: World)
    requires old(Sound(w)) && other in w.skeletons && old(Linked(other)) && Rebased(s, other, w)
    requires forall t :: t in w.skeletons ==> t.ownEvents == old(t.ownEvents) && t.ownFields == old(t.ownFields)
    reads w.skeletons, w.events, w.fields, set t, n | t in w.skeletons && n in t.ownEvents :: t.ownEvents[n],
          set t, n | t in w.skeletons && n in t.ownFields :: t.ownFields[n]
    ensures forall t, u :: t in w.skeletons && u in w.skeletons && t != other && old(AllReferTo(t, u)) ==>
              AllReferTo(t, u)
  {
    assert forall t, n :: t in w.skeletons && n in t.ownEvents ==>
             t.ownEvents[n] in w.events && t.ownEvents[n].home == t;
    assert forall t, n :: t in w.skeletons && n in t.ownFields ==>
             t.ownFields[n] in w.fields && t.ownFields[n].home == t;
    true
  }

  twostate predicate NamesCame(new s: Skeleton, other: Skeleton)
    requires TookOver(s, other)
    reads s, other, s.ownEvents.Values, s.ownFields.Values
    ensures Emptied(other) && s.ownEvents.Keys == old(other.ownEvents.Keys)
    ensures s.ownFields.Keys == old(other.ownFields.Keys)
  {
    assert CargoOf(s.ownEvents).Keys == old(CargoOf(other.ownEvents)).Keys;
    true
  }

  twostate predicate StillEmptied(a: Skeleton, skeletons: set<Skeleton>)
    requires forall t :: t in skeletons && t != a ==>
               && t.binding == old(t.binding) && t.serviceOffered == old(t.serviceOffered)
               && t.events.Keys == old(t.events.Keys) && t.fields.Keys == old(t.fields.Keys)
    reads skeletons
    ensures forall t :: t in skeletons && t != a && old(Emptied(t)) ==> Emptied(t)
  {
    true
  }

  /** The source, left without anything but its members, and the one that took over. */
  method MoveAway(a: Skeleton, ghost w: World) returns (b: Skeleton, ghost w': World)
    requires Sound(w) && a in w.skeletons && Linked(a)
    modifies w.skeletons, w.roots, w.events, w.fields, w.bindings
    ensures Sound(w') && Linked(b) && Emptied(a) && a != b && Grown(w, w')
    ensures w'.skeletons == w.skeletons + {b} && b !in w.skeletons
    ensures a.ownEvents == old(a.ownEvents) && a.ownFields == old(a.ownFields)
    ensures b.ownEvents.Keys == a.ownEvents.Keys && b.ownFields.Keys == a.ownFields.Keys
    ensures AllReferTo(a, b)
    ensures forall t :: t in w.skeletons && t != a ==>
              (old(Linked(t)) ==> Linked(t)) && (old(Emptied(t)) ==> Emptied(t))
    ensures forall t, u :: t in w.skeletons && u in w.skeletons && t != a && old(AllReferTo(t, u)) ==> AllReferTo(t, u)
    ensures forall t :: t in w.skeletons ==> t.ownEvents == old(t.ownEvents) && t.ownFields == old(t.ownFields)
  {
    hide Sound, Linked, LeftAlone, EventsKnown, FieldsKnown, EventsFollow, FieldsFollow, Followable, Rebased, TookOver,
         Emptied, AllReferTo;
    LinkedSource(a, w);
    var terminated;
    terminated, b, w' := MoveConstruct(a, w);
    assert TheyReferTo(b, a, w);
    assert NamesCame(b, a);
    assert OthersReferAsBefore(b, a, w);
    assert StillEmptied(a, w.skeletons);
  }

  /** `a` was moved away to `b`. */
  ghost predicate WentTo(a: Skeleton, b: Skeleton, w: World)
    reads a, b, a.ownEvents.Values, a.ownFields.Values
  {
    && a in w.skeletons && b in w.skeletons && a != b && Emptied(a)
    && b.ownEvents.Keys == a.ownEvents.Keys && b.ownFields.Keys == a.ownFields.Keys
    && AllReferTo(a, b)
  }

  lemma CanGoAgain(a: Skeleton, b: Skeleton, w: World)
    requires Sound(w) && WentTo(a, b, w) && Linked(b) && !Memberless(a)
    ensures Followable(a.ownEvents, a.ownFields, a, w)
    ensures EventsKnown(a.ownEvents, a, null, w.skeletons) && FieldsKnown(a.ownFields, a, null, w.skeletons)
    ensures !(EventsFollow(a.ownEvents, a, null) && FieldsFollow(a.ownFields, a, null))
    ensures !LeftAlone(b, a.ownEvents, a.ownFields, a, null)
  {
    forall n | n in a.ownEvents ensures a.ownEvents[n] in w.events { Members(w, a, n); }
    forall n | n in a.ownFields ensures a.ownFields[n] in w.fields { FieldMembers(w, a, n); }
    if a.ownEvents != map[] {
      var n :| n in a.ownEvents;
      assert a.ownEvents[n].skeleton == b;
    } else {
      var n :| n in a.ownFields;
      assert a.ownFields[n].skeleton == b;
    }
  }

  /** Whatever skeleton with members is moved from twice: the second move succeeds,
      but the new skeleton has no links, and the one that took over before has lost
      its own. */
  method MoveTwice(a: Skeleton, ghost w: World) returns (b: Skeleton, c: Skeleton, terminated: bool, ghost w': World)
    requires Sound(w) && a in w.skeletons && Linked(a) && !Memberless(a)
    modifies w.skeletons, w.roots, w.events, w.fields, w.bindings
    ensures Sound(w') && !terminated && !Linked(b) && !Linked(c)
  {
    hide Sound, Linked, LeftAlone, EventsKnown, FieldsKnown, EventsFollow, FieldsFollow, Followable, Rebased, TookOver,
         Emptied;
    b, w' := MoveAway(a, w);
    CanGoAgain(a, b, w');
    terminated, c, w' := MoveConstruct(a, w');
  }

  lemma CannotGoAgain(a: Skeleton, b: Skeleton, w: World)
    requires Sound(w) && WentTo(a, b, w) && Emptied(b) && !Memberless(a)
    ensures Followable(a.ownEvents, a.ownFields, a, w)
    ensures !EventsKnown(a.ownEvents, a, null, w.skeletons) || !FieldsKnown(a.ownFields, a, null, w.skeletons)
  {
    forall n | n in a.ownEvents ensures a.ownEvents[n] in w.events { Members(w, a, n); }
    forall n | n in a.ownFields ensures a.ownFields[n] in w.fields { FieldMembers(w, a, n); }
    if a.ownEvents != map[] {
      var n :| n in a.ownEvents;
      assert a.ownEvents[n].skeleton == b;
    } else {
      var n :| n in a.ownFields;
      assert a.ownFields[n].skeleton == b;
    }
  }

  /** If that one was moved away as well, moving from the first again ends the
      process: nobody knows the names any more. */
  method MoveAfterTheTaker(a: Skeleton, ghost w: World)
      returns (b: Skeleton, c: Skeleton, terminated: bool, ghost w': World)
    requires Sound(w) && a in w.skeletons && Linked(a) && !Memberless(a)
    modifies w.skeletons, w.roots, w.events, w.fields, w.bindings
    ensures Sound(w') && terminated
  {
    hide Sound, Linked, LeftAlone, EventsKnown, FieldsKnown, EventsFollow, FieldsFollow, Followable, Rebased, TookOver,
         Emptied;
    b, w' := MoveAway(a, w);
    c, w' := MoveAway(b, w');
    CannotGoAgain(a, b, w');
    terminated, c, w' := MoveConstruct(a, w');
  }

  lemma AssigningToTheEmptied(a: Skeleton, b: Skeleton, d: Skeleton, w: World)
    requires Sound(w) && WentTo(a, b, w) && Linked(b) && d in w.skeletons && d != a && d != b && Linked(d)
    requires a.ownEvents.Keys == d.ownEvents.Keys && a.ownFields.Keys == d.ownFields.Keys && a.ownEvents != map[]
    ensures Followable(a.ownEvents, d.ownFields, d, w)
    ensures EventsKnown(a.ownEvents, d, a, w.skeletons) && FieldsKnown(d.ownFields, d, a, w.skeletons)
    ensures !EventsFollow(a.ownEvents, d, a)
    ensures !LeftAlone(b, a.ownEvents, d.ownFields, d, a)
  {
    AssigningLinked(a, d, w);
    forall n | n in a.ownEvents ensures a.ownEvents[n] !in d.events.Values {
      Members(w, a, n);
      NoneRegistered(a.ownEvents[n], d, w);
    }
    var n :| n in a.ownEvents;
    assert a.ownEvents[n].skeleton == b;
    hide Sound;
  }

  /** A skeleton with events that was moved from gets another one of its class
      assigned: it has no links afterwards, and the one that took over before has
      lost its own. */
  method AssignToTheEmptied(a: Skeleton, d: Skeleton, ghost w: World)
      returns (b: Skeleton, terminated: bool, ghost w': World)
    requires Sound(w) && a in w.skeletons && d in w.skeletons && a != d && Linked(a) && Linked(d)
    requires a.ownEvents.Keys == d.ownEvents.Keys && a.ownFields.Keys == d.ownFields.Keys && a.ownEvents != map[]
    modifies w.skeletons, w.roots, w.events, w.fields, w.bindings
    ensures Sound(w') && !terminated && !Linked(a) && !Linked(b)
  {
    hide Sound, Linked, LeftAlone, EventsKnown, FieldsKnown, EventsFollow, FieldsFollow, Followable, Rebased, TookOver,
         Emptied;
    b, w' := MoveAway(a, w);
    AssigningToTheEmptied(a, b, d, w');
    terminated := MoveAssign(a, d, w');
  }

  method NewWithEvent(ghost w: World) returns (s: Skeleton, ghost w': World)
    requires Sound(w)
    ensures Sound(w') && s !in w.skeletons && w'.skeletons == w.skeletons + {s} && Grown(w, w')
    ensures Linked(s) && s.ownEvents.Keys == {"event"} && s.ownFields == map[]
    ensures forall t :: t in w.skeletons && old(Linked(t)) ==>
              Linked(t) && t.ownEvents == old(t.ownEvents) && t.ownFields == old(t.ownFields)
  {
    hide Sound, Linked;
    s, w' := NewSkeleton(true, w);
    var e;
    e, w' := NewEvent(s, "event", true, w');
  }

  /** Such skeletons can be built: one event each will do. */
  method BuiltAndMoved() returns (b: Skeleton, c: Skeleton, terminated: bool)
    ensures !terminated && !Linked(b) && !Linked(c)
  {
    hide Sound, Linked;
    ghost var w := World({}, {}, {}, {}, {});
    StartSound(w);
    var a;
    a, w := NewWithEvent(w);
    b, c, terminated, w := MoveTwice(a, w);
  }

  method BuiltAndAssigned() returns (a: Skeleton, b: Skeleton, terminated: bool)
    ensures !terminated && !Linked(a) && !Linked(b)
  {
    hide Sound, Linked;
    ghost var w := World({}, {}, {}, {}, {});
    StartSound(w);
    a, w := NewWithEvent(w);
    var d;
    d, w := NewWithEvent(w);
    b, terminated, w := AssignToTheEmptied(a, d, w);
  }

  lemma StartSound(w: World)
    requires w == World({}, {}, {}, {}, {})
    ensures Sound(w)
  {
  }

  // ----- offers

  /** An offer that fails in the fields leaves the skeleton's binding prepared and
      all events offered, and since the service itself is not, `StopOfferService`
      leaves them so too. */
  method HalfAnOffer(s: Skeleton, a: Answers, ghost w: World) returns (outcome: Outcome)
    requires Sound(w) && s in w.skeletons && s.binding != null && Linked(s) && Bound(s, w) && !s.serviceOffered
    requires a.root.Ok? && EventsCanBeOffered(s, a) && !FieldsCanBeOffered(s, a)
    modifies s`serviceOffered, w.roots`prepared,
             w.fields`initial, w.fields`prepared, w.events`offered, w.bindings`offered, w.bindings`values
    ensures Sound(w) && outcome.Returned? && outcome.result.Err? && !s.serviceOffered
    ensures s.binding.prepared
    ensures forall n :: n in s.events ==> s.events[n] in w.events && s.events[n].offered
  {
    hide Sound, Linked, Bound, EventsCanBeOffered, FieldsCanBeOffered, SavedValuesKept;
    RootExists(s, w);
    outcome := OfferService(s, a, w);
    StopOfferService(s, w);
  }

  lemma RootExists(s: Skeleton, w: World)
    requires Sound(w) && s in w.skeletons && s.binding != null
    ensures s.binding in w.roots
  {
  }

  /** Memory lent while an event was offered is accepted after the offer was
      stopped, when copying in a value is refused. */
  method MemoryOutlivesTheOffer(e: SkeletonEvent, v: Value) returns (sample: Sample, copied: Answer, sent: Answer)
    requires e.Valid() && e.offered
    modifies e`offered, BindingAt(e.binding)
    ensures !e.offered && sample.origin == e.binding && copied == Err(NotOffered) && sent.Ok?
    ensures sample.origin.values == old(e.binding.values) + [v]
  {
    var result := e.Allocate(Ok(()));
    sample := result.value;
    e.PrepareStopOffer();
    copied := e.Send(v, Ok(()));
    sent := e.SendSample(v, Ok(()));
  }

  /** Memory of another binding sent to a field before its offer comes first: the
      saved value is only the second one there. */
  method MemoryOfAnotherComesFirst(f: SkeletonField, sample: Sample, v: Value) returns (offer: Answer)
    requires f.Valued() && !f.prepared && f.initial.Some? && f.event != null && f.event.Valid()
    requires f.event.binding != null && f.event.binding.values == [] && sample.origin.lent
    modifies f, f.event, f.event.binding
    ensures offer.Ok? && f.event != null && f.event.binding != null
    ensures f.event.binding.values == [v, old(f.initial).value]
  {
    var _ := f.UpdateSample(sample, v, Ok(()));
    offer := f.PrepareOffer(Ok(()), Ok(()));
  }
}
