/** Creating and destroying skeletons, and whole runs over any number of them. */
module SkeletonRuns {

  import opened Wrappers
  import opened Skeletons
  import opened SkeletonMoves
  import opened SkeletonLifecycle

  // ----- creation

  /** What is in `w'` and not in `w` was created since, and no binding is lost
      sight of. */
  twostate predicate Grown(w: World, new w': World)
  {
    && w.bindings <= w'.bindings
    && fresh(w'.skeletons - w.skeletons) && fresh(w'.events - w.events) && fresh(w'.fields - w.fields)
    && fresh(w'.bindings - w.bindings) && fresh(w'.roots - w.roots)
  }

  method NewSkeleton(bound: bool, ghost w: World) returns (s: Skeleton, ghost w': World)
    requires Sound(w)
    ensures Sound(w') && w'.skeletons == w.skeletons + {s} && fresh(s) && Linked(s) && Grown(w, w')
    ensures w'.fields == w.fields && s.ownEvents == map[] && s.ownFields == map[] && (s.binding != null <==> bound)
    ensures old(Settled(w)) ==> Settled(w')
  {
    hide Owned, Held, AllValued, EventsAtHome, FieldsAtHome;
    var root: SkeletonBinding? := null;
    if bound {
      root := new SkeletonBinding();
    }
    s := new Skeleton(root);
    w' := w.(skeletons := w.skeletons + {s}, roots := w.roots + RootAt(root));
    NoMembersYet(s, w.skeletons, w.events, w.fields);
  }

  lemma OneMoreEvent(w: World, e: SkeletonEvent, bindings: set<EventBinding>)
    requires Owned(w.events, w.bindings) && Held(w.fields, w.events) && AllValued(w.fields, w.events, w.bindings)
    requires e !in w.events && bindings !! w.bindings && e.Valid() && bindings == BindingAt(e.binding)
    requires e.holder == null
    ensures Owned(w.events + {e}, w.bindings + bindings) && Held(w.fields, w.events + {e})
    ensures AllValued(w.fields, w.events + {e}, w.bindings + bindings)
  {
  }

  /** The event's constructor registers it with its parent. */
  method NewEvent(s: Skeleton, name: Name, bound: bool, ghost w: World) returns (e: SkeletonEvent, ghost w': World)
    requires Sound(w) && s in w.skeletons && Linked(s) && name !in s.ownEvents
    modifies s`events, s`ownEvents
    ensures Sound(w') && w'.skeletons == w.skeletons && Grown(w, w')
    ensures Linked(s) && s.ownEvents == old(s.ownEvents)[name := e] && w'.fields == w.fields
    ensures !e.offered && (e.binding != null <==> bound)
    ensures w'.roots == w.roots
  {
    hide Sound, Linked;
    ghost var own := s.ownEvents;
    LinkedParts(s);
    e, w' := NewEventAlone(s, name, bound, w);
    LinkedAgain(s, own, name, e);
  }

  /** The event and, if the factory succeeds, its binding. */
  method CreateEvent(s: Skeleton, name: Name, bound: bool, ghost w: World)
      returns (e: SkeletonEvent, ghost created: set<EventBinding>)
    requires Owned(w.events, w.bindings) && Held(w.fields, w.events) && AllValued(w.fields, w.events, w.bindings)
    ensures fresh(e) && fresh(created) && created == BindingAt(e.binding) && e.home == e.skeleton == s
    ensures e.name == name && e.holder == null
    ensures Owned(w.events + {e}, w.bindings + created) && Held(w.fields, w.events + {e})
    ensures AllValued(w.fields, w.events + {e}, w.bindings + created)
    ensures !e.offered && (e.binding != null <==> bound) && (bound ==> e.binding.values == [])
  {
    hide Owned, Held, AllValued;
    var b: EventBinding? := null;
    if bound {
      b := new EventBinding();
    }
    e := new SkeletonEvent(s, name, b);
    created := BindingAt(b);
    OneMoreEvent(w, e, created);
  }

  method NewEventAlone(s: Skeleton, name: Name, bound: bool, ghost w: World) returns (e: SkeletonEvent, ghost w': World)
    requires Sound(w) && s in w.skeletons && name !in s.ownEvents
    modifies s`events, s`ownEvents
    ensures Sound(w') && w'.skeletons == w.skeletons && Grown(w, w')
    ensures s.events == old(s.events)[name := e] && s.ownEvents == old(s.ownEvents)[name := e] && e.skeleton == s
    ensures w'.fields == w.fields && !e.offered && (e.binding != null <==> bound)
    ensures w'.roots == w.roots
  {
    hide Owned, Held, AllValued, EventsAtHome, FieldsAtHome, Rooted, BindingAt;
    ghost var created;
    e, created := CreateEvent(s, name, bound, w);
    s.events := s.events[name := e];
    AddEvent(s, e, w.skeletons, w.events);
    w' := w.(events := w.events + {e}, bindings := w.bindings + created);
  }

  lemma LinkedAgain(s: Skeleton, own: map<Name, SkeletonEvent>, name: Name, e: SkeletonEvent)
    requires s.ownEvents == own[name := e] && s.events == s.ownEvents && e.skeleton == s
    requires forall n :: n in own ==> own[n].skeleton == s
    requires s.fields == s.ownFields && forall n :: n in s.ownFields ==> s.ownFields[n].skeleton == s
    ensures Linked(s)
  {
  }

  lemma OneMoreField(w: World, f: SkeletonField, e: SkeletonEvent, bindings: set<EventBinding>)
    requires Owned(w.events, w.bindings) && Held(w.fields, w.events) && AllValued(w.fields, w.events, w.bindings)
    requires EventsAtHome(w.skeletons, w.events)
    requires e !in w.events && bindings !! w.bindings && e.Valid() && bindings == BindingAt(e.binding)
    requires f !in w.fields && f.event == e && e.holder == f && f.Valued()
    ensures Owned(w.events + {e}, w.bindings + bindings) && Held(w.fields + {f}, w.events + {e})
    ensures AllValued(w.fields + {f}, w.events + {e}, w.bindings + bindings)
    ensures EventsAtHome(w.skeletons, w.events + {e})
  {
  }

  method CreateField(s: Skeleton, name: Name, bound: bool, ghost w: World)
      returns (f: SkeletonField, ghost e: SkeletonEvent, ghost created: set<EventBinding>)
    requires Owned(w.events, w.bindings) && Held(w.fields, w.events) && AllValued(w.fields, w.events, w.bindings)
    requires EventsAtHome(w.skeletons, w.events) && s in w.skeletons
    modifies s`fields
    ensures fresh(f) && fresh(e) && fresh(created) && f.event == e && f.home == f.skeleton == s && f.name == name
    ensures Owned(w.events + {e}, w.bindings + created) && Held(w.fields + {f}, w.events + {e})
    ensures AllValued(w.fields + {f}, w.events + {e}, w.bindings + created)
    ensures EventsAtHome(w.skeletons, w.events + {e})
    ensures s.fields == old(s.fields)[name := f] && f.history == History(None, 0) && (e.binding != null <==> bound)
  {
    hide Owned, Held, AllValued, EventsAtHome;
    var b: EventBinding? := null;
    if bound {
      b := new EventBinding();
    }
    f := new SkeletonField(s, name, b);
    created := BindingAt(b);
    e := f.event;
    OneMoreField(w, f, e, created);
  }

  method NewFieldAlone(s: Skeleton, name: Name, bound: bool, ghost w: World) returns (f: SkeletonField, ghost w': World)
    requires Sound(w) && s in w.skeletons && name !in s.ownFields
    modifies s`fields, s`ownFields
    ensures Sound(w') && w'.skeletons == w.skeletons && Grown(w, w')
    ensures s.fields == old(s.fields)[name := f] && s.ownFields == old(s.ownFields)[name := f] && f.skeleton == s
    ensures w'.fields == w.fields + {f} && f.history == History(None, 0)
    ensures w'.roots == w.roots && f.event != null && (f.event.binding != null <==> bound)
  {
    hide Owned, Held, AllValued, EventsAtHome, FieldsAtHome, Rooted;
    ghost var e, created;
    f, e, created := CreateField(s, name, bound, w);
    AddField(s, f, w.skeletons, w.fields);
    w' := w.(events := w.events + {e}, fields := w.fields + {f}, bindings := w.bindings + created);
  }

  lemma LinkedAgainWithField(s: Skeleton, own: map<Name, SkeletonField>, name: Name, f: SkeletonField)
    requires s.ownFields == own[name := f] && s.fields == s.ownFields && f.skeleton == s
    requires forall n :: n in own ==> own[n].skeleton == s
    requires s.events == s.ownEvents && forall n :: n in s.ownEvents ==> s.ownEvents[n].skeleton == s
    ensures Linked(s)
  {
  }

  /** The field's constructor registers it with its parent. */
  method NewField(s: Skeleton, name: Name, bound: bool, ghost w: World) returns (f: SkeletonField, ghost w': World)
    requires Sound(w) && s in w.skeletons && Linked(s) && name !in s.ownFields
    modifies s`fields, s`ownFields
    ensures Sound(w') && w'.skeletons == w.skeletons && Grown(w, w')
    ensures Linked(s) && s.ownFields == old(s.ownFields)[name := f]
    ensures w'.fields == w.fields + {f} && f.history == History(None, 0)
    ensures w'.roots == w.roots && f.event != null && (f.event.binding != null <==> bound)
  {
    hide Sound, Linked;
    ghost var own := s.ownFields;
    LinkedParts(s);
    f, w' := NewFieldAlone(s, name, bound, w);
    LinkedAgainWithField(s, own, name, f);
  }

  // ----- destruction

  method DestroyEvents(s: Skeleton, ghost w: World)
    requires Sound(w) && s in w.skeletons
    modifies w.events`binding, w.events`offered, w.bindings`offered, w.bindings`owner
    ensures Sound(w) && forall n :: n in s.ownEvents ==> s.ownEvents[n].binding == null
  {
    hide Sound;
    var todo := s.ownEvents.Keys;
    while todo != {}
      invariant todo <= s.ownEvents.Keys && Sound(w)
      invariant forall n :: n in s.ownEvents && n !in todo ==> s.ownEvents[n].binding == null
      decreases todo
    {
      var n :| n in todo;
      Members(w, s, n);
      DestroyEvent(s.ownEvents[n], w);
      todo := todo - {n};
    }
  }

  method DestroyFields(s: Skeleton, ghost w: World)
    requires Sound(w) && s in w.skeletons
    modifies w.fields`event, w.events`holder, w.events`binding, w.events`offered,
             w.bindings`offered, w.bindings`owner
    ensures Sound(w) && (forall n :: n in s.ownFields ==> s.ownFields[n].event == null)
    ensures Undisturbed(w.events)
  {
    hide Sound;
    var todo := s.ownFields.Keys;
    while todo != {}
      invariant todo <= s.ownFields.Keys && Sound(w) && Undisturbed(w.events)
      invariant forall n :: n in s.ownFields && n !in todo ==> s.ownFields[n].event == null
      decreases todo
    {
      var n :| n in todo;
      FieldMembers(w, s, n);
      DestroyField(s.ownFields[n], w);
      todo := todo - {n};
    }
  }

  method DestroyRoot(s: Skeleton, ghost w: World)
    requires Sound(w) && s in w.skeletons
    modifies s`serviceOffered, s`binding, w.roots`prepared, w.roots`owner
    ensures Sound(w) && s.binding == null && !s.serviceOffered && StoppedOnly(s, w.roots)
    ensures old(s.binding) != null ==> old(s.binding).owner == null
  {
    hide Owned, Held, AllValued, EventsAtHome, FieldsAtHome;
    s.Cleanup();
    if s.binding != null {
      s.binding.owner := null;
      s.binding := null;
    }
  }

  /** What is left once `s` is gone. */
  ghost function Without(s: Skeleton, w: World): World
    reads w.events`holder
  {
    var events := set e | e in w.events && (e.home != s || e.holder != null);
    w.(skeletons := w.skeletons - {s}, events := events, fields := w.fields - FieldsOf(s, w))
  }

  ghost predicate Gone(s: Skeleton)
    reads s, s.ownEvents.Values, s.ownFields.Values
  {
    && s.binding == null
    && (forall n :: n in s.ownEvents ==> s.ownEvents[n].binding == null)
    && (forall n :: n in s.ownFields ==> s.ownFields[n].event == null)
  }

  lemma WithoutTheGone(s: Skeleton, w: World)
    requires Sound(w) && s in w.skeletons && Gone(s)
    ensures Sound(Without(s, w))
  {
    var w' := Without(s, w);
    assert forall e :: e in w.events && e.binding != null ==> e in w'.events;
    assert forall f :: f in w.fields && f.event != null ==> f in w'.fields;
  }

  /** The destructors: members first, the base last. */
  method Destroy(s: Skeleton, ghost w: World) returns (ghost w': World)
    requires Sound(w) && s in w.skeletons
    modifies s`serviceOffered, s`binding, w.roots`prepared, w.roots`owner,
             w.fields`event, w.events`holder, w.events`binding, w.events`offered,
             w.bindings`offered, w.bindings`owner
    ensures w' == Without(s, w) && Sound(w') && StoppedOnly(s, w.roots)
    ensures old(Settled(w)) ==> Settled(w')
  {
    hide Sound, Undisturbed;
    DestroyFields(s, w);
    DestroyEvents(s, w);
    DestroyRoot(s, w);
    WithoutTheGone(s, w);
    w' := Without(s, w);
  }

  // ----- any sequence of operations on any number of skeletons

  datatype Op =
    | New(bound: bool)
    | AddMemberEvent(i: nat, name: Name, bound: bool)
    | AddMemberField(i: nat, name: Name, bound: bool)
    | Offer(i: nat, answers: Answers)
    | Stop(i: nat)
    | Update(i: nat, name: Name, v: Value, answer: Answer)
    | Send(i: nat, name: Name, v: Value, answer: Answer)
    | AllocateInField(i: nat, name: Name, answer: Answer)
    | AllocateInEvent(i: nat, name: Name, answer: Answer)
    | UpdateSample(i: nat, name: Name, sample: nat, v: Value, answer: Answer)
    | SendSample(i: nat, name: Name, sample: nat, v: Value, answer: Answer)
    | Move(i: nat)
    | Assign(i: nat, j: nat)         // skeleton i = std::move(skeleton j)
    | Destruct(i: nat)

  /** A skeleton object the program still has. */
  datatype Slot = Slot(skeleton: Skeleton, movedFrom: bool)

  datatype Ending =
    | Running
    | LinksLost                      // by moving a skeleton that was moved from
    | Terminated

  /** The slots hold exactly the skeletons there are, each once. */
  ghost predicate Listed(slots: seq<Slot>, w: World)
  {
    && (forall k :: 0 <= k < |slots| ==> slots[k].skeleton in w.skeletons)
    && (forall j, k :: 0 <= j < k < |slots| ==> slots[j].skeleton != slots[k].skeleton)
    && (forall s :: s in w.skeletons ==> exists k :: 0 <= k < |slots| && slots[k].skeleton == s)
  }

  /** Every skeleton that was not moved from is linked, every other one empty. */
  ghost predicate Tracked(slots: seq<Slot>, w: World)
    reads *
  {
    Listed(slots, w) && forall k :: 0 <= k < |slots| ==> Healthy(slots[k])
  }

  ghost predicate Healthy(x: Slot)
    reads *
  {
    if x.movedFrom then Emptied(x.skeleton) else Linked(x.skeleton)
  }

  /** Memory the program holds was lent by a binding there is. */
  ghost predicate Lent(samples: seq<Sample>, w: World)
    reads w.bindings`lent
  {
    forall k :: 0 <= k < |samples| ==> samples[k].origin in w.bindings && samples[k].origin.lent
  }

  /** None of the fields was sent memory before it was prepared. */
  ghost predicate OnTimeIn(fields: set<SkeletonField>)
    reads fields`history
  {
    forall f :: f in fields ==> f.history.early == 0
  }

  ghost predicate OnTime(w: World)
    reads w.fields`history
  {
    OnTimeIn(w.fields)
  }

  lemma OneMoreSlot(slots: seq<Slot>, w: World, w': World, x: Slot)
    requires Listed(slots, w) && x.skeleton !in w.skeletons && w'.skeletons == w.skeletons + {x.skeleton}
    ensures Listed(slots + [x], w')
  {
    var slots' := slots + [x];
    forall s | s in w'.skeletons ensures exists k :: 0 <= k < |slots'| && slots'[k].skeleton == s {
      if s != x.skeleton {
        var k :| 0 <= k < |slots| && slots[k].skeleton == s;
        assert slots'[k].skeleton == s;
      } else {
        assert slots'[|slots|].skeleton == s;
      }
    }
  }

  lemma OneSlotLess(slots: seq<Slot>, w: World, w': World, i: nat)
    requires Listed(slots, w) && i < |slots| && w'.skeletons == w.skeletons - {slots[i].skeleton}
    ensures Listed(slots[..i] + slots[i + 1..], w')
  {
    var slots' := slots[..i] + slots[i + 1..];
    forall s | s in w'.skeletons ensures exists k :: 0 <= k < |slots'| && slots'[k].skeleton == s {
      var k :| 0 <= k < |slots| && slots[k].skeleton == s;
      assert slots'[if k < i then k else k - 1].skeleton == s;
    }
  }

  method PerformNew(slots: seq<Slot>, bound: bool, ghost w: World) returns (slots': seq<Slot>, ghost w': World)
    requires Sound(w) && Tracked(slots, w)
    ensures Sound(w') && Tracked(slots', w') && Grown(w, w') && w'.fields == w.fields
    ensures old(OnTime(w)) ==> OnTime(w')
    ensures |slots'| == |slots| + 1 && slots <= slots' && !slots'[|slots|].movedFrom
    ensures slots'[|slots|].skeleton.binding != null <==> bound
    ensures old(Settled(w)) ==> Settled(w')
  {
    hide Sound, Linked, Emptied;
    var s;
    s, w' := NewSkeleton(bound, w);
    OneMoreSlot(slots, w, w', Slot(s, false));
    slots' := slots + [Slot(s, false)];
  }

  method PerformDestruct(slots: seq<Slot>, i: nat, ghost w: World) returns (slots': seq<Slot>, ghost w': World)
    requires Sound(w) && Listed(slots, w) && i < |slots|
    modifies w.skeletons`serviceOffered, w.skeletons`binding, w.roots`prepared, w.roots`owner,
             w.fields`event, w.events`holder, w.events`binding, w.events`offered,
             w.bindings`offered, w.bindings`owner
    ensures Sound(w') && Listed(slots', w') && Grown(w, w') && w'.fields <= w.fields
    ensures slots' == slots[..i] + slots[i + 1..]
    ensures old(OnTime(w)) ==> OnTime(w')
    ensures w'.bindings == w.bindings
    ensures old(Tracked(slots, w)) ==> Tracked(slots', w')
    ensures old(Settled(w)) ==> Settled(w')
    ensures w'.roots == w.roots
  {
    hide Sound, Linked;
    w' := Destroy(slots[i].skeleton, w);
    slots' := slots[..i] + slots[i + 1..];
    OneSlotLess(slots, w, w', i);
  }

  method PerformAddEvent(slots: seq<Slot>, i: nat, name: Name, bound: bool, ghost w: World) returns (ghost w': World)
    requires Sound(w) && Tracked(slots, w) && i < |slots| && !slots[i].movedFrom
    modifies w.skeletons`events, w.skeletons`ownEvents
    ensures Sound(w') && Tracked(slots, w') && Grown(w, w') && w'.fields == w.fields
    ensures name in slots[i].skeleton.ownEvents
    ensures old(OnTime(w)) ==> OnTime(w')
    ensures old(Settled(w)) ==> Settled(w')
  {
    hide Sound, Linked;
    w' := w;
    var s := slots[i].skeleton;
    if name !in s.ownEvents {
      var e;
      e, w' := NewEvent(s, name, bound, w);
    }
  }

  method PerformAddField(slots: seq<Slot>, i: nat, name: Name, bound: bool, ghost w: World) returns (ghost w': World)
    requires Sound(w) && Tracked(slots, w) && i < |slots| && !slots[i].movedFrom
    modifies w.skeletons`fields, w.skeletons`ownFields
    ensures Sound(w') && Tracked(slots, w') && Grown(w, w') && name in slots[i].skeleton.ownFields
    ensures OnTime(w) ==> OnTime(w')
    ensures old(Settled(w)) ==> Settled(w')
  {
    hide Sound, Linked;
    w' := w;
    var s := slots[i].skeleton;
    if name !in s.ownFields {
      var f;
      f, w' := NewField(s, name, bound, w);
    }
  }

  /** The skeleton or one of its elements has no binding. */
  ghost predicate Unbound(s: Skeleton, w: World)
    reads *
  {
    s.binding == null || !Bound(s, w)
  }

  /** An offer failed after the skeleton's binding had accepted it. */
  ghost predicate HalfOffered(s: Skeleton)
    reads s, s.binding
  {
    s.binding != null && s.binding.prepared && !s.serviceOffered
  }

  lemma SettledOne(s: Skeleton, w: World)
    requires Sound(w) && Settled(w) && s in w.skeletons && s.binding != null
    ensures s.binding in w.roots && (s.binding.prepared ==> s.serviceOffered)
  {
  }

  /** The process ends if the skeleton or one of its elements has no binding. */
  method PerformOffer(slots: seq<Slot>, i: nat, a: Answers, ghost w: World)
      returns (ending: Ending, halfway: bool)
    requires Sound(w) && Tracked(slots, w) && i < |slots|
    modifies w.skeletons`serviceOffered, w.roots`prepared, w.fields`initial, w.fields`prepared,
             w.events`offered, w.bindings`offered, w.bindings`values
    ensures Sound(w) && Tracked(slots, w)
    ensures ending == if old(Unbound(slots[i].skeleton, w)) then Terminated else Running
    ensures halfway <==> HalfOffered(slots[i].skeleton)
    ensures !halfway && old(Settled(w)) ==> Settled(w)
    ensures halfway && old(Settled(w)) ==> a.root.Ok?
  {
    hide Sound, Linked, SavedValuesKept;
    var s := slots[i].skeleton;
    if Settled(w) && s.binding != null {
      SettledOne(s, w);
    }
    var outcome := OfferService(s, a, w);
    halfway := s.binding != null && s.binding.prepared && !s.serviceOffered;
    ending := if outcome.Halted? then Terminated else Running;
  }

  method PerformStop(slots: seq<Slot>, i: nat, ghost w: World)
    requires Sound(w) && Tracked(slots, w) && i < |slots|
    modifies w.skeletons`serviceOffered, w.roots`prepared, w.events`offered, w.bindings`offered
    ensures Sound(w) && Tracked(slots, w) && !slots[i].skeleton.serviceOffered
    ensures old(slots[i].skeleton.serviceOffered) ==> !HalfOffered(slots[i].skeleton)
    ensures old(Settled(w)) ==> Settled(w)
  {
    hide Sound, Linked;
    StopOfferService(slots[i].skeleton, w);
  }

  /** The field was prepared and then moved from. */
  ghost predicate NowhereToSend(s: Skeleton, name: Name)
    reads *
  {
    name in s.ownFields && s.ownFields[name].prepared && s.ownFields[name].event == null
  }

  /** A prepared field that was moved from has nowhere to send to. */
  method PerformUpdate(slots: seq<Slot>, i: nat, name: Name, v: Value, answer: Answer, ghost w: World)
      returns (ending: Ending)
    requires Sound(w) && Tracked(slots, w) && i < |slots|
    modifies w.fields`initial, w.fields`history, w.bindings`values
    ensures Sound(w) && Tracked(slots, w)
    ensures old(OnTime(w)) ==> OnTime(w)
    ensures ending == if old(NowhereToSend(slots[i].skeleton, name)) then Terminated else Running
  {
    hide Sound, Linked;
    var s := slots[i].skeleton;
    if name in s.ownFields {
      FieldMembers(w, s, name);
      var f := s.ownFields[name];
      if f.prepared && f.event == null {
        return Terminated;
      }
      var _ := UpdateField(f, v, answer, w);
    }
    return Running;
  }

  method PerformSend(slots: seq<Slot>, i: nat, name: Name, v: Value, answer: Answer, ghost w: World)
    requires Sound(w) && Tracked(slots, w) && i < |slots|
    modifies w.bindings`values
    ensures Sound(w) && Tracked(slots, w)
  {
    hide Sound, Linked;
    var s := slots[i].skeleton;
    if name in s.ownEvents {
      Members(w, s, name);
      var _ := SendEvent(s.ownEvents[name], v, answer, w);
    }
  }

  // ----- memory for samples

  method PerformAllocateInEvent(slots: seq<Slot>, samples: seq<Sample>, i: nat, name: Name, answer: Answer,
                                ghost w: World) returns (samples': seq<Sample>)
    requires Sound(w) && Tracked(slots, w) && Lent(samples, w) && i < |slots|
    modifies w.bindings`lent
    ensures Sound(w) && Tracked(slots, w) && Lent(samples', w)
  {
    hide Sound, Linked;
    samples' := samples;
    var s := slots[i].skeleton;
    if name in s.ownEvents {
      Members(w, s, name);
      BindingExists(w, s.ownEvents[name]);
      var result := AllocateForEvent(s.ownEvents[name], answer, w);
      samples' := if result.Ok? then samples + [result.value] else samples;
    }
  }

  method PerformAllocateInField(slots: seq<Slot>, samples: seq<Sample>, i: nat, name: Name, answer: Answer,
                                ghost w: World) returns (samples': seq<Sample>, ending: Ending)
    requires Sound(w) && Tracked(slots, w) && Lent(samples, w) && i < |slots|
    modifies w.bindings`lent
    ensures Sound(w) && Tracked(slots, w) && Lent(samples', w)
    ensures ending == if old(NowhereToSend(slots[i].skeleton, name)) then Terminated else Running
  {
    hide Sound, Linked;
    samples' := samples;
    var s := slots[i].skeleton;
    if name in s.ownFields {
      FieldMembers(w, s, name);
      var f := s.ownFields[name];
      if f.event == null {
        return samples, if f.prepared then Terminated else Running;
      }
      BindingExists(w, f.event);
      var result := AllocateForField(f, answer, w);
      samples' := if result.Ok? then samples + [result.value] else samples;
    }
    return samples', Running;
  }

  lemma BindingExists(w: World, e: SkeletonEvent)
    requires Sound(w) && e in w.events
    ensures e.binding != null ==> e.binding in w.bindings
    ensures e.binding == null ==> !e.offered
  {
  }

  function WithoutSample(samples: seq<Sample>, k: nat): seq<Sample>
    requires k < |samples|
  {
    samples[..k] + samples[k + 1..]
  }

  method PerformSendSample(slots: seq<Slot>, samples: seq<Sample>, i: nat, name: Name, k: nat, v: Value,
                           answer: Answer, ghost w: World) returns (samples': seq<Sample>)
    requires Sound(w) && Tracked(slots, w) && Lent(samples, w) && i < |slots| && k < |samples|
    modifies w.bindings`values
    ensures Sound(w) && Tracked(slots, w) && Lent(samples', w)
  {
    hide Sound, Linked;
    samples' := samples;
    var s := slots[i].skeleton;
    if name in s.ownEvents && s.ownEvents[name].binding != null {
      Members(w, s, name);
      var _ := SendEventSample(s.ownEvents[name], v, answer, w);
      samples' := WithoutSample(samples, k);
    }
  }

  ghost predicate MovedFromField(s: Skeleton, name: Name)
    reads *
  {
    name in s.ownFields && s.ownFields[name].event == null
  }

  /** The sample is not of the field's own binding. */
  ghost predicate Strays(s: Skeleton, name: Name, sample: Sample)
    reads *
  {
    && name in s.ownFields && s.ownFields[name].event != null && s.ownFields[name].event.binding != null
    && sample.origin != s.ownFields[name].event.binding
  }

  method PerformUpdateSample(slots: seq<Slot>, samples: seq<Sample>, i: nat, name: Name, k: nat, v: Value,
                             answer: Answer, ghost w: World)
      returns (samples': seq<Sample>, strayed: bool, ending: Ending)
    requires Sound(w) && Tracked(slots, w) && Lent(samples, w) && i < |slots| && k < |samples|
    modifies w.fields`history, w.bindings`values
    ensures Sound(w) && Tracked(slots, w) && Lent(samples', w)
    ensures !strayed && old(OnTime(w)) ==> OnTime(w)
    ensures strayed <==> old(Strays(slots[i].skeleton, name, samples[k]))
    ensures ending == if old(MovedFromField(slots[i].skeleton, name)) then Terminated else Running
  {
    hide Sound, Linked;
    samples', strayed, ending := samples, false, Running;
    var s := slots[i].skeleton;
    if name in s.ownFields {
      FieldMembers(w, s, name);
      var f := s.ownFields[name];
      if f.event == null {
        ending := Terminated;
      } else if f.event.binding != null {
        strayed := samples[k].origin != f.event.binding;
        var _ := UpdateFieldSample(f, samples[k], v, answer, w);
        samples' := WithoutSample(samples, k);
      }
    }
  }

  // ----- moves

  function Moved(slots: seq<Slot>, i: nat, s: Skeleton): seq<Slot>
    requires i < |slots|
  {
    slots[i := slots[i].(movedFrom := true)] + [Slot(s, false)]
  }

  lemma AllListed(slots: seq<Slot>, w: World)
    requires Listed(slots, w)
    ensures forall k :: 0 <= k < |slots| ==> slots[k].skeleton in w.skeletons
    ensures forall j, k :: 0 <= j < k < |slots| ==> slots[j].skeleton != slots[k].skeleton
  {
  }

  lemma SameSkeletons(slots: seq<Slot>, slots': seq<Slot>, w: World)
    requires Listed(slots, w) && |slots'| == |slots|
    requires forall k :: 0 <= k < |slots| ==> slots'[k].skeleton == slots[k].skeleton
    ensures Listed(slots', w)
  {
    forall s | s in w.skeletons ensures exists k :: 0 <= k < |slots'| && slots'[k].skeleton == s {
      var k :| 0 <= k < |slots| && slots[k].skeleton == s;
      assert slots'[k].skeleton == s;
    }
  }

  lemma MovedIsListed(slots: seq<Slot>, i: nat, s: Skeleton, w: World, w': World)
    requires Listed(slots, w) && i < |slots| && s !in w.skeletons && w'.skeletons == w.skeletons + {s}
    ensures Listed(Moved(slots, i, s), w')
  {
    OneMoreSlot(slots, w, w', Slot(s, false));
    SameSkeletons(slots + [Slot(s, false)], Moved(slots, i, s), w');
  }

  /** The slots other than the two concerned stay healthy. */
  twostate predicate OthersHealthy(slots: seq<Slot>, i: nat, j: nat, skeletons: set<Skeleton>)
    requires i < |slots| && j < |slots|
    requires forall k :: 0 <= k < |slots| ==> slots[k].skeleton in skeletons && old(Healthy(slots[k]))
    requires forall j, k :: 0 <= j < k < |slots| ==> slots[j].skeleton != slots[k].skeleton
    requires forall t :: t in skeletons && t != slots[i].skeleton && t != slots[j].skeleton ==>
               && (old(Linked(t)) ==> Linked(t)) && (old(Emptied(t)) ==> Emptied(t))
    reads *
    ensures forall k :: 0 <= k < |slots| && k != i && k != j ==> Healthy(slots[k])
  {
    assert forall k :: 0 <= k < |slots| && k != i && k != j ==>
             && slots[k].skeleton != slots[i].skeleton && slots[k].skeleton != slots[j].skeleton
             && old(Healthy(slots[k]))
             && if slots[k].movedFrom then Emptied(slots[k].skeleton) else Linked(slots[k].skeleton);
    true
  }

  predicate Memberless(s: Skeleton)
    reads s`ownEvents, s`ownFields
  {
    s.ownEvents == map[] && s.ownFields == map[]
  }

  /** A skeleton without members has its links even after it was moved from. */
  lemma HasLinks(x: Slot)
    requires Healthy(x) && (!x.movedFrom || Memberless(x.skeleton))
    ensures Linked(x.skeleton)
  {
  }

  predicate EventsReferTo(m: map<Name, SkeletonEvent>, slots: seq<Slot>)
    reads m.Values`skeleton
  {
    forall n :: n in m ==> exists k :: 0 <= k < |slots| && slots[k].skeleton == m[n].skeleton
  }

  predicate FieldsReferTo(m: map<Name, SkeletonField>, slots: seq<Slot>)
    reads m.Values`skeleton
  {
    forall n :: n in m ==> exists k :: 0 <= k < |slots| && slots[k].skeleton == m[n].skeleton
  }

  lemma CanFollow(slots: seq<Slot>, s: Skeleton, x: Slot, w: World)
    requires Sound(w) && Listed(slots, w) && s in w.skeletons && x.skeleton in w.skeletons && Healthy(x)
    requires EventsReferTo(s.ownEvents, slots) && FieldsReferTo(x.skeleton.ownFields, slots)
    ensures Followable(s.ownEvents, x.skeleton.ownFields, x.skeleton, w)
  {
    forall n | n in s.ownEvents ensures s.ownEvents[n] in w.events { Members(w, s, n); }
    forall n | n in x.skeleton.ownFields ensures x.skeleton.ownFields[n] in w.fields { FieldMembers(w, x.skeleton, n); }
    forall n | n in x.skeleton.ownEvents ensures x.skeleton.ownEvents[n] in w.events { Members(w, x.skeleton, n); }
    if !x.movedFrom {
      LinkedParts(x.skeleton);
    }
  }

  ghost function HistoriesOf(m: map<Name, SkeletonField>): map<Name, History>
    reads m.Values`history
  {
    map n | n in m :: m[n].history
  }

  ghost predicate AllOnTime(histories: map<Name, History>)
  {
    forall n :: n in histories ==> histories[n].early == 0
  }

  lemma OwnOnTime(s: Skeleton, w: World)
    requires Sound(w) && s in w.skeletons
    ensures OnTime(w) ==> AllOnTime(HistoriesOf(s.ownFields))
    ensures OnTime(w) ==> OnTimeIn(w.fields) && OnTimeIn(w.fields - FieldsOf(s, w))
  {
    forall n | n in s.ownFields ensures s.ownFields[n] in w.fields { FieldMembers(w, s, n); }
  }

  lemma TogetherOnTime(s: Skeleton, w: World, others: set<SkeletonField>)
    requires Sound(w) && s in w.skeletons && w.fields - FieldsOf(s, w) <= others
    ensures AllOnTime(HistoriesOf(s.ownFields)) && OnTimeIn(others) ==> OnTime(w)
  {
    if AllOnTime(HistoriesOf(s.ownFields)) && OnTimeIn(others) {
      forall f | f in w.fields ensures f.history.early == 0 {
        if f.home == s {
          assert f.name in s.ownFields && s.ownFields[f.name] == f;
          assert HistoriesOf(s.ownFields)[f.name] == f.history;
        } else {
          assert f in w.fields - FieldsOf(s, w);
        }
      }
    }
  }

  /** What `other`'s fields went through comes along. */
  twostate predicate HistoriesCame(new s: Skeleton, other: Skeleton)
    requires TookOver(s, other)
    reads s, other, s.ownEvents.Values, s.ownFields.Values
    ensures HistoriesOf(s.ownFields) == old(HistoriesOf(other.ownFields))
  {
    assert forall n :: n in s.ownFields ==> FieldCargoOf(s.ownFields)[n] == old(FieldCargoOf(other.ownFields))[n];
    assert s.ownFields.Keys == FieldCargoOf(s.ownFields).Keys;
    true
  }

  /** Only the new skeleton's fields are new. */
  twostate predicate OthersAreOld(new s: Skeleton, w: World, new w': World)
    requires old(Sound(w)) && Sound(w') && w'.skeletons == w.skeletons + {s}
    requires forall t :: t in w.skeletons ==> t.ownFields == old(t.ownFields)
    reads *
    ensures w'.fields - FieldsOf(s, w') <= w.fields
  {
    assert forall t, n :: t in w.skeletons && n in t.ownFields ==> t.ownFields[n] in w.fields;
    assert forall f :: f in w'.fields && f.home != s ==> f.home in w.skeletons;
    true
  }

  /** Whose service was offered goes on being offered, by whoever took over. */
  twostate predicate SettledOn(new s: Skeleton, other: Skeleton, w: World, new w': World)
    requires TookOver(s, other) && w'.skeletons == w.skeletons + {s} && w'.roots == w.roots && s !in w.skeletons
    requires forall t :: t in w.skeletons && t != other ==>
               t.binding == old(t.binding) && t.serviceOffered == old(t.serviceOffered)
    requires forall r :: r in w.roots ==> r.prepared == old(r.prepared)
    reads *
    ensures old(Settled(w)) ==> Settled(w')
  {
    assert old(Settled(w)) ==> forall r :: r in w'.roots && r.prepared ==>
             exists t :: t in w.skeletons && old(t.binding) == r && old(t.serviceOffered);
    assert forall t :: t in w.skeletons ==>
             exists u :: u in w'.skeletons && u.binding == old(t.binding)
               && u.serviceOffered == old(t.serviceOffered) by {
      assert s in w'.skeletons;
    }
    true
  }

  /** The target's own service is stopped first. */
  twostate predicate SettledAssigned(s: Skeleton, other: Skeleton, w: World)
    requires StoppedOnly(s, w.roots) && TookOver(s, other) && s in w.skeletons
    requires forall t :: t in w.skeletons && t != other && t != s ==>
               t.binding == old(t.binding) && t.serviceOffered == old(t.serviceOffered)
    reads *
    ensures old(Settled(w)) ==> Settled(w)
  {
    assert old(Settled(w)) ==> forall r :: r in w.roots && r.prepared ==>
             exists t :: t in w.skeletons && old(t.binding) == r && old(t.serviceOffered);
    true
  }

  /** A move from a skeleton that has its links: the new one has them, and
      everybody else keeps theirs. */
  method MoveOn(other: Skeleton, ghost w: World) returns (s: Skeleton, ghost w': World)
    requires Sound(w) && other in w.skeletons && Linked(other)
    modifies w.skeletons`events, w.skeletons`fields, other`binding, other`serviceOffered, w.roots`owner,
             w.events`skeleton, w.fields`skeleton, w.events`binding, w.events`offered, w.events`holder,
             w.fields`event, w.fields`initial, w.bindings`owner
    ensures Sound(w') && Grown(w, w') && w'.bindings == w.bindings && s !in w.skeletons
    ensures w'.skeletons == w.skeletons + {s} && w.fields <= w'.fields && Linked(s) && TookOver(s, other)
    ensures old(OnTime(w)) ==> OnTime(w')
    ensures forall t :: t in w.skeletons && t != other ==>
              && (old(Linked(t)) ==> Linked(t))
              && t.events.Keys == old(t.events.Keys) && t.fields.Keys == old(t.fields.Keys)
    ensures old(Settled(w)) ==> Settled(w')
  {
    hide Sound, Linked, CargoOf, FieldCargoOf, LeftAlone, EventsKnown, FieldsKnown, EventsFollow, FieldsFollow,
         Followable, TookOver, OnTime, OnTimeIn, HistoriesOf, AllOnTime,
         Settled, StoppedOnly;
    LinkedSource(other, w);
    OwnOnTime(other, w);
    var terminated;
    terminated, s, w' := MoveConstruct(other, w);
    assert SettledOn(s, other, w, w');
    assert HistoriesCame(s, other);
    assert OthersAreOld(s, w, w');
    TogetherOnTime(s, w', w.fields);
  }

  method PerformLinkedMove(slots: seq<Slot>, i: nat, ghost w: World) returns (slots': seq<Slot>, ghost w': World)
    requires Sound(w) && Tracked(slots, w) && i < |slots| && Linked(slots[i].skeleton)
    modifies w.skeletons`events, w.skeletons`fields, w.skeletons`binding, w.skeletons`serviceOffered, w.roots`owner,
             w.events`skeleton, w.fields`skeleton, w.events`binding, w.events`offered, w.events`holder,
             w.fields`event, w.fields`initial, w.bindings`owner
    ensures Sound(w') && Tracked(slots', w') && Grown(w, w') && w'.bindings == w.bindings
    ensures |slots'| == |slots| + 1 && slots' == Moved(slots, i, slots'[|slots|].skeleton)
    ensures old(OnTime(w)) ==> OnTime(w')
    ensures old(Settled(w)) ==> Settled(w')
  {
    hide Sound, Settled, Linked, CargoOf, FieldCargoOf, Listed, Healthy, OnTime;
    AllListed(slots, w);
    var s;
    s, w' := MoveOn(slots[i].skeleton, w);
    slots' := Moved(slots, i, s);
    MovedIsListed(slots, i, s, w, w');
    assert OthersHealthy(slots, i, i, w.skeletons);
    NowMoved(slots, slots', i, s);
  }

  lemma NowMoved(slots: seq<Slot>, slots': seq<Slot>, i: nat, s: Skeleton)
    requires i < |slots| && slots' == Moved(slots, i, s) && Linked(s) && Emptied(slots[i].skeleton)
    requires forall k :: 0 <= k < |slots| && k != i ==> Healthy(slots[k])
    ensures forall k :: 0 <= k < |slots'| ==> Healthy(slots'[k])
  {
  }

  /** Every member knows the name it is told under wherever it will be told. */
  ghost predicate AllKnown(events: map<Name, SkeletonEvent>, fields: map<Name, SkeletonField>, other: Skeleton,
                           target: Skeleton?, w: World)
    reads *
  {
    && (forall n :: n in events ==> events[n].skeleton in w.skeletons)
    && EventsKnown(events, other, target, w.skeletons)
    && (forall n :: n in fields ==> fields[n].skeleton in w.skeletons)
    && FieldsKnown(fields, other, target, w.skeletons)
  }

  /** A move from any skeleton, as far as a program that goes on may rely on it. */
  method MoveAnyway(other: Skeleton, ghost w: World) returns (terminated: bool, s: Skeleton, ghost w': World)
    requires Sound(w) && other in w.skeletons && Followable(other.ownEvents, other.ownFields, other, w)
    modifies w.skeletons`events, w.skeletons`fields, other`binding, other`serviceOffered, w.roots`owner,
             w.events`skeleton, w.fields`skeleton, w.events`binding, w.events`offered, w.events`holder,
             w.fields`event, w.fields`initial, w.bindings`owner
    ensures Sound(w') && Grown(w, w') && w'.bindings == w.bindings
    ensures s !in w.skeletons && w'.skeletons == w.skeletons + {s}
    ensures terminated <==> !old(AllKnown(other.ownEvents, other.ownFields, other, null, w))
    ensures !terminated && old(OnTime(w)) ==> OnTime(w')
    ensures !terminated && old(Settled(w)) ==> Settled(w')
  {
    hide Sound, Linked, CargoOf, FieldCargoOf, LeftAlone, EventsKnown, FieldsKnown, EventsFollow, FieldsFollow,
         Followable, TookOver, OnTime, OnTimeIn, HistoriesOf, AllOnTime,
         Settled, StoppedOnly;
    OwnOnTime(other, w);
    FollowableRefs(other.ownEvents, other.ownFields, other, w);
    terminated, s, w' := MoveConstruct(other, w);
    if !terminated {
      assert SettledOn(s, other, w, w');
      assert HistoriesCame(s, other);
      assert OthersAreOld(s, w, w');
      TogetherOnTime(s, w', w.fields);
    }
  }

  ghost predicate KnownWhenMoved(s: Skeleton, w: World)
    reads *
  {
    AllKnown(s.ownEvents, s.ownFields, s, null, w)
  }

  /** A move from a skeleton that was moved from itself, and that has members. */
  method PerformMoveAgain(slots: seq<Slot>, i: nat, ghost w: World)
      returns (slots': seq<Slot>, ending: Ending, ghost w': World)
    requires Sound(w) && Tracked(slots, w) && i < |slots|
    requires EventsReferTo(slots[i].skeleton.ownEvents, slots) && FieldsReferTo(slots[i].skeleton.ownFields, slots)
    modifies w.skeletons`events, w.skeletons`fields, w.skeletons`binding, w.skeletons`serviceOffered, w.roots`owner,
             w.events`skeleton, w.fields`skeleton, w.events`binding, w.events`offered, w.events`holder,
             w.fields`event, w.fields`initial, w.bindings`owner
    ensures Sound(w') && Listed(slots', w') && Grown(w, w') && w'.bindings == w.bindings
    ensures ending == if old(KnownWhenMoved(slots[i].skeleton, w)) then LinksLost else Terminated
    ensures ending != Terminated && old(OnTime(w)) ==> OnTime(w')
    ensures ending != Terminated && old(Settled(w)) ==> Settled(w')
  {
    hide Sound, Settled, Linked, Followable, Listed, Healthy, OnTime, EventsReferTo, FieldsReferTo;
    AllListed(slots, w);
    CanFollow(slots, slots[i].skeleton, slots[i], w);
    var terminated, s;
    terminated, s, w' := MoveAnyway(slots[i].skeleton, w);
    slots' := Moved(slots, i, s);
    MovedIsListed(slots, i, s, w, w');
    return slots', if terminated then Terminated else LinksLost, w';
  }

  ghost predicate MovesAgain(slots: seq<Slot>, i: nat)
    requires i < |slots|
    reads *
  {
    && slots[i].movedFrom && !Memberless(slots[i].skeleton)
    && EventsReferTo(slots[i].skeleton.ownEvents, slots) && FieldsReferTo(slots[i].skeleton.ownFields, slots)
  }

  /** A source some element of which refers to a skeleton that is gone is not moved. */
  method PerformMove(slots: seq<Slot>, i: nat, ghost w: World)
      returns (slots': seq<Slot>, ending: Ending, ghost w': World)
    requires Sound(w) && Tracked(slots, w) && i < |slots|
    modifies w.skeletons`events, w.skeletons`fields, w.skeletons`binding, w.skeletons`serviceOffered, w.roots`owner,
             w.events`skeleton, w.fields`skeleton, w.events`binding, w.events`offered, w.events`holder,
             w.fields`event, w.fields`initial, w.bindings`owner
    ensures Sound(w') && Listed(slots', w') && Grown(w, w') && w'.bindings == w.bindings
    ensures ending == Running ==> Tracked(slots', w')
    ensures ending == if !old(MovesAgain(slots, i)) then Running
                      else if old(KnownWhenMoved(slots[i].skeleton, w)) then LinksLost else Terminated
    ensures old(!slots[i].movedFrom || Memberless(slots[i].skeleton)) ==>
              |slots'| == |slots| + 1 && slots' == Moved(slots, i, slots'[|slots|].skeleton)
    ensures ending != Terminated && old(OnTime(w)) ==> OnTime(w')
    ensures ending != Terminated && old(Settled(w)) ==> Settled(w')
  {
    hide Sound, Settled, Linked, Listed, OnTime, Emptied;
    slots', ending, w' := slots, Running, w;
    var s := slots[i].skeleton;
    if !slots[i].movedFrom || Memberless(s) {
      HasLinks(slots[i]);
      slots', w' := PerformLinkedMove(slots, i, w);
    } else if EventsReferTo(s.ownEvents, slots) && FieldsReferTo(s.ownFields, slots) {
      slots', ending, w' := PerformMoveAgain(slots, i, w);
    }
  }

  /** Assigning a skeleton that has its links to one whose events refer to it. */
  method AssignOn(s: Skeleton, other: Skeleton, ghost w: World)
    requires Sound(w) && s in w.skeletons && other in w.skeletons && s != other && Linked(other) && SelfReferring(s)
    requires s.ownEvents.Keys == other.ownEvents.Keys && s.ownFields.Keys == other.ownFields.Keys
    modifies w.skeletons`events, w.skeletons`fields, s`binding, s`serviceOffered, other`binding, other`serviceOffered,
             w.roots`prepared, w.roots`owner, w.events`skeleton, w.fields`skeleton,
             FieldsOf(s, w), FieldsOf(other, w)`event, FieldsOf(other, w)`initial,
             w.events`holder, w.events`binding, w.events`offered, w.bindings`offered, w.bindings`owner
    ensures Sound(w) && Linked(s) && TookOver(s, other)
    ensures old(OnTime(w)) ==> OnTime(w)
    ensures forall t :: t in w.skeletons && t != s && t != other ==>
              && (old(Linked(t)) ==> Linked(t))
              && t.events.Keys == old(t.events.Keys) && t.fields.Keys == old(t.fields.Keys)
    ensures old(Settled(w)) ==> Settled(w)
  {
    hide Sound, Linked, CargoOf, FieldCargoOf, LeftAlone, EventsKnown, FieldsKnown, EventsFollow, FieldsFollow,
         Followable, TookOver, EventsOf, FieldsOf, OnTime, OnTimeIn, HistoriesOf, AllOnTime,
         Settled, StoppedOnly;
    AssigningLinked(s, other, w);
    OwnOnTime(other, w);
    OwnOnTime(s, w);
    var terminated := MoveAssign(s, other, w);
    assert SettledAssigned(s, other, w);
    assert HistoriesCame(s, other);
    TogetherOnTime(s, w, w.fields - FieldsOf(s, w));
  }

  function Assigned(slots: seq<Slot>, i: nat, j: nat): seq<Slot>
    requires i < |slots| && j < |slots|
  {
    slots[i := slots[i].(movedFrom := false)][j := slots[j].(movedFrom := true)]
  }

  lemma NowAssigned(slots: seq<Slot>, i: nat, j: nat)
    requires i < |slots| && j < |slots| && i != j && Linked(slots[i].skeleton) && Emptied(slots[j].skeleton)
    requires forall k :: 0 <= k < |slots| && k != i && k != j ==> Healthy(slots[k])
    ensures forall k :: 0 <= k < |slots| ==> Healthy(Assigned(slots, i, j)[k])
  {
  }

  method PerformLinkedAssign(slots: seq<Slot>, i: nat, j: nat, ghost w: World) returns (slots': seq<Slot>)
    requires Sound(w) && Tracked(slots, w) && i < |slots| && j < |slots| && i != j
    requires Linked(slots[j].skeleton) && SelfReferring(slots[i].skeleton)
    requires slots[i].skeleton.ownEvents.Keys == slots[j].skeleton.ownEvents.Keys
    requires slots[i].skeleton.ownFields.Keys == slots[j].skeleton.ownFields.Keys
    modifies w.skeletons`events, w.skeletons`fields, w.skeletons`binding, w.skeletons`serviceOffered,
             w.roots`prepared, w.roots`owner, w.events`skeleton, w.events`holder, w.events`binding, w.events`offered,
             w.fields, w.bindings`offered, w.bindings`owner
    ensures Sound(w) && Tracked(slots', w) && slots' == Assigned(slots, i, j)
    ensures old(OnTime(w)) ==> OnTime(w)
    ensures old(Settled(w)) ==> Settled(w)
  {
    hide Sound, Settled, Linked, CargoOf, FieldCargoOf, Listed, Healthy, OnTime, SelfReferring;
    AllListed(slots, w);
    AssignOn(slots[i].skeleton, slots[j].skeleton, w);
    slots' := Assigned(slots, i, j);
    SameSkeletons(slots, slots', w);
    assert OthersHealthy(slots, i, j, w.skeletons);
    NowAssigned(slots, i, j);
  }

  /** Any assignment, as far as a program that goes on may rely on it. */
  method AssignAnyway(s: Skeleton, other: Skeleton, ghost w: World) returns (terminated: bool)
    requires Sound(w) && s in w.skeletons && other in w.skeletons && s != other
    requires s.ownEvents.Keys == other.ownEvents.Keys && s.ownFields.Keys == other.ownFields.Keys
    requires Followable(s.ownEvents, other.ownFields, other, w)
    modifies w.skeletons`events, w.skeletons`fields, s`binding, s`serviceOffered, other`binding, other`serviceOffered,
             w.roots`prepared, w.roots`owner, w.events`skeleton, w.fields`skeleton,
             FieldsOf(s, w), FieldsOf(other, w)`event, FieldsOf(other, w)`initial,
             w.events`holder, w.events`binding, w.events`offered, w.bindings`offered, w.bindings`owner
    ensures Sound(w)
    ensures terminated <==> !old(AllKnown(s.ownEvents, other.ownFields, other, s, w))
    ensures !terminated && old(OnTime(w)) ==> OnTime(w)
    ensures !terminated && old(Settled(w)) ==> Settled(w)
  {
    hide Sound, Linked, CargoOf, FieldCargoOf, LeftAlone, EventsKnown, FieldsKnown, EventsFollow, FieldsFollow,
         Followable, TookOver, EventsOf, FieldsOf, OnTime, OnTimeIn, HistoriesOf, AllOnTime,
         Settled, StoppedOnly;
    OwnOnTime(other, w);
    OwnOnTime(s, w);
    FollowableRefs(s.ownEvents, other.ownFields, other, w);
    terminated := MoveAssign(s, other, w);
    if !terminated {
      assert SettledAssigned(s, other, w);
      assert HistoriesCame(s, other);
      TogetherOnTime(s, w, w.fields - FieldsOf(s, w));
    }
  }

  ghost predicate KnownWhenAssigned(s: Skeleton, other: Skeleton, w: World)
    reads *
  {
    AllKnown(s.ownEvents, other.ownFields, other, s, w)
  }

  /** Assigning from or to a skeleton that was moved from. */
  method PerformOtherAssign(slots: seq<Slot>, i: nat, j: nat, ghost w: World) returns (ending: Ending)
    requires Sound(w) && Tracked(slots, w) && i < |slots| && j < |slots| && i != j
    requires slots[i].skeleton.ownEvents.Keys == slots[j].skeleton.ownEvents.Keys
    requires slots[i].skeleton.ownFields.Keys == slots[j].skeleton.ownFields.Keys
    requires EventsReferTo(slots[i].skeleton.ownEvents, slots) && FieldsReferTo(slots[j].skeleton.ownFields, slots)
    modifies w.skeletons`events, w.skeletons`fields, w.skeletons`binding, w.skeletons`serviceOffered,
             w.roots`prepared, w.roots`owner, w.events`skeleton, w.events`holder, w.events`binding, w.events`offered,
             w.fields, w.bindings`offered, w.bindings`owner
    ensures Sound(w)
    ensures ending == if old(KnownWhenAssigned(slots[i].skeleton, slots[j].skeleton, w)) then LinksLost else Terminated
    ensures ending != Terminated && old(OnTime(w)) ==> OnTime(w)
    ensures ending != Terminated && old(Settled(w)) ==> Settled(w)
  {
    hide Sound, Settled, Linked, Followable, Listed, Healthy, OnTime, EventsReferTo, FieldsReferTo;
    AllListed(slots, w);
    CanFollow(slots, slots[i].skeleton, slots[j], w);
    var terminated := AssignAnyway(slots[i].skeleton, slots[j].skeleton, w);
    return if terminated then Terminated else LinksLost;
  }

  lemma RefersToItself(x: Slot)
    requires Healthy(x) && !x.movedFrom
    ensures SelfReferring(x.skeleton)
  {
  }

  predicate SameClass(s: Skeleton, other: Skeleton)
    reads s`ownEvents, s`ownFields, other`ownEvents, other`ownFields
  {
    s.ownEvents.Keys == other.ownEvents.Keys && s.ownFields.Keys == other.ownFields.Keys
  }

  /** The source has its links, or nothing that could miss them, and the target's
      events refer to it. */
  ghost predicate AssignsLinked(slots: seq<Slot>, i: nat, j: nat)
    requires i < |slots| && j < |slots|
    reads *
  {
    (!slots[j].movedFrom || Memberless(slots[j].skeleton)) && SelfReferring(slots[i].skeleton)
  }

  ghost predicate AssignsOtherwise(slots: seq<Slot>, i: nat, j: nat)
    requires i < |slots| && j < |slots|
    reads *
  {
    && !AssignsLinked(slots, i, j)
    && EventsReferTo(slots[i].skeleton.ownEvents, slots) && FieldsReferTo(slots[j].skeleton.ownFields, slots)
  }

  /** Only skeletons of one class are assigned to one another. */
  method PerformAssign(slots: seq<Slot>, i: nat, j: nat, ghost w: World) returns (slots': seq<Slot>, ending: Ending)
    requires Sound(w) && Tracked(slots, w) && i < |slots| && j < |slots| && i != j
    modifies w.skeletons`events, w.skeletons`fields, w.skeletons`binding, w.skeletons`serviceOffered,
             w.roots`prepared, w.roots`owner, w.events`skeleton, w.events`holder, w.events`binding, w.events`offered,
             w.fields, w.bindings`offered, w.bindings`owner
    ensures Sound(w) && Listed(slots', w)
    ensures ending == Running ==> Tracked(slots', w)
    ensures ending != Running ==> slots[i].movedFrom || slots[j].movedFrom
    ensures |slots'| == |slots|
    ensures ending == if !old(SameClass(slots[i].skeleton, slots[j].skeleton) && AssignsOtherwise(slots, i, j))
                      then Running
                      else if old(KnownWhenAssigned(slots[i].skeleton, slots[j].skeleton, w)) then LinksLost
                      else Terminated
    ensures old(SameClass(slots[i].skeleton, slots[j].skeleton) && AssignsLinked(slots, i, j)) ==>
              slots' == Assigned(slots, i, j)
    ensures ending != Terminated && old(OnTime(w)) ==> OnTime(w)
    ensures ending != Terminated && old(Settled(w)) ==> Settled(w)
  {
    hide Sound, Settled, Linked, Listed, OnTime, Emptied, SelfReferring;
    slots', ending := slots, Running;
    var s, other := slots[i].skeleton, slots[j].skeleton;
    if SameClass(s, other) {
      if !slots[i].movedFrom {
        RefersToItself(slots[i]);
      }
      if (!slots[j].movedFrom || Memberless(other)) && SelfReferring(s) {
        HasLinks(slots[j]);
        slots' := PerformLinkedAssign(slots, i, j, w);
      } else if EventsReferTo(s.ownEvents, slots) && FieldsReferTo(other.ownFields, slots) {
        ending := PerformOtherAssign(slots, i, j, w);
      }
    }
  }

  // ----- whole runs

  /** The objects and the memory the program holds, whether it ever gave memory of
      one binding to a field of another, whether an offer ever failed with the
      skeleton's binding prepared and the service not offered, and whether it goes
      on. */
  datatype Program = Program(slots: seq<Slot>, samples: seq<Sample>, strayed: bool, halfway: bool, ending: Ending)

  ghost predicate Fine(p: Program, w: World)
    reads *
  {
    && Sound(w) && Listed(p.slots, w) && Lent(p.samples, w)
    && (p.ending == Running ==> Tracked(p.slots, w))
    && (!p.strayed && p.ending != Terminated ==> OnTime(w))
    && (!p.halfway && p.ending != Terminated ==> Settled(w))
  }

  lemma IsFine(p: Program, w: World)
    requires Fine(p, w) && p.ending == Running
    ensures Sound(w) && Tracked(p.slots, w) && Lent(p.samples, w) && (!p.strayed ==> OnTime(w))
    ensures !p.halfway ==> Settled(w)
  {
  }

  lemma TrackedIsListed(slots: seq<Slot>, w: World)
    requires Tracked(slots, w)
    ensures Listed(slots, w)
  {
  }

  /** How a program goes on after an operation. */
  ghost function EndingOf(p: Program, op: Op, w: World): Ending
    reads *
  {
    match op
    case Offer(i, _) => if i < |p.slots| && Unbound(p.slots[i].skeleton, w) then Terminated else Running
    case Update(i, name, _, _) =>
      if i < |p.slots| && NowhereToSend(p.slots[i].skeleton, name) then Terminated else Running
    case AllocateInField(i, name, _) =>
      if i < |p.slots| && NowhereToSend(p.slots[i].skeleton, name) then Terminated else Running
    case UpdateSample(i, name, k, _, _) =>
      if i < |p.slots| && k < |p.samples| && MovedFromField(p.slots[i].skeleton, name) then Terminated else Running
    case Move(i) =>
      if i >= |p.slots| || !MovesAgain(p.slots, i) then Running
      else if KnownWhenMoved(p.slots[i].skeleton, w) then LinksLost else Terminated
    case Assign(i, j) =>
      if i >= |p.slots| || j >= |p.slots| || i == j then Running
      else if !SameClass(p.slots[i].skeleton, p.slots[j].skeleton) || !AssignsOtherwise(p.slots, i, j) then Running
      else if KnownWhenAssigned(p.slots[i].skeleton, p.slots[j].skeleton, w) then LinksLost else Terminated
    case _ => Running
  }

  ghost predicate GoesAstray(p: Program, op: Op)
    reads *
  {
    && op.UpdateSample? && op.i < |p.slots| && op.sample < |p.samples|
    && Strays(p.slots[op.i].skeleton, op.name, p.samples[op.sample])
  }

  predicate OnObjects(op: Op) { op.New? || op.AddMemberEvent? || op.AddMemberField? || op.Destruct? }

  predicate Moves(op: Op) { op.Move? || op.Assign? }

  /** The slots after an operation on objects; what a move or an assignment does to
      them depends on the links. */
  ghost predicate SlotsFollow(slots: seq<Slot>, op: Op, slots': seq<Slot>)
  {
    match op
    case New(_) => |slots'| == |slots| + 1 && slots <= slots' && !slots'[|slots|].movedFrom
    case Destruct(i) => slots' == if i < |slots| then slots[..i] + slots[i + 1..] else slots
    case Move(i) => i < |slots| && !slots[i].movedFrom ==>
                      |slots'| == |slots| + 1 && slots' == Moved(slots, i, slots'[|slots|].skeleton)
    case Assign(i, j) => |slots'| == |slots|
    case _ => slots' == slots
  }

  method PerformOnObjects(p: Program, op: Op, ghost w: World) returns (p': Program, ghost w': World)
    requires Fine(p, w) && p.ending == Running && OnObjects(op)
    modifies w.skeletons, w.events, w.fields, w.bindings, w.roots
    ensures Fine(p', w') && Grown(w, w')
    ensures p'.ending == old(EndingOf(p, op, w)) && SlotsFollow(p.slots, op, p'.slots)
    ensures p'.halfway == p.halfway && p'.strayed == p.strayed
  {
    hide Sound, Settled, Tracked, Listed, OnTime;
    IsFine(p, w);
    w' := w;
    var slots := p.slots;
    match op {
      case New(bound) => slots, w' := PerformNew(slots, bound, w);
      case AddMemberEvent(i, name, bound) =>
        if i < |slots| && !slots[i].movedFrom { w' := PerformAddEvent(slots, i, name, bound, w); }
      case AddMemberField(i, name, bound) =>
        if i < |slots| && !slots[i].movedFrom { w' := PerformAddField(slots, i, name, bound, w); }
      case Destruct(i) => if i < |slots| { slots, w' := PerformDestruct(slots, i, w); }
      case _ =>
    }
    TrackedIsListed(slots, w');
    p' := p.(slots := slots);
  }

  method PerformMoves(p: Program, op: Op, ghost w: World) returns (p': Program, ghost w': World)
    requires Fine(p, w) && p.ending == Running && Moves(op)
    modifies w.skeletons, w.events, w.fields, w.bindings, w.roots
    ensures Fine(p', w') && Grown(w, w')
    ensures p'.ending == old(EndingOf(p, op, w)) && SlotsFollow(p.slots, op, p'.slots)
    ensures p'.halfway == p.halfway && p'.strayed == p.strayed
  {
    hide Sound, Settled, Tracked, Listed, OnTime, MovesAgain, KnownWhenMoved, AssignsOtherwise, AssignsLinked,
         KnownWhenAssigned, SameClass, Memberless;
    IsFine(p, w);
    w' := w;
    var slots, ending := p.slots, Running;
    match op {
      case Move(i) => if i < |slots| { slots, ending, w' := PerformMove(slots, i, w); }
      case Assign(i, j) =>
        if i < |slots| && j < |slots| && i != j { slots, ending := PerformAssign(slots, i, j, w); }
      case _ =>
    }
    if ending == Running {
      TrackedIsListed(slots, w');
    }
    p' := p.(slots := slots, ending := ending);
  }

  method PerformOnElements(p: Program, op: Op, ghost w: World) returns (p': Program)
    requires Fine(p, w) && p.ending == Running && !OnObjects(op) && !Moves(op)
    modifies w.skeletons, w.events, w.fields, w.bindings, w.roots
    ensures Fine(p', w)
    ensures p'.ending == old(EndingOf(p, op, w)) && p'.slots == p.slots
    ensures p'.halfway <==> p.halfway || (op.Offer? && op.i < |p.slots| && HalfOffered(p.slots[op.i].skeleton))
    ensures p'.halfway && !p.halfway ==> op.answers.root.Ok?
    ensures p'.strayed <==> p.strayed || old(GoesAstray(p, op))
  {
    hide Sound, Tracked, Listed, Unbound, NowhereToSend, MovedFromField, Strays, HalfOffered;
    IsFine(p, w);
    var slots, samples, strayed, halfway, ending := p.slots, p.samples, false, false, Running;
    match op {
      case Offer(i, a) => if i < |slots| { ending, halfway := PerformOffer(slots, i, a, w); }
      case Stop(i) => if i < |slots| { PerformStop(slots, i, w); }
      case Update(i, name, v, answer) => if i < |slots| { ending := PerformUpdate(slots, i, name, v, answer, w); }
      case Send(i, name, v, answer) => if i < |slots| { PerformSend(slots, i, name, v, answer, w); }
      case AllocateInEvent(i, name, answer) =>
        if i < |slots| { samples := PerformAllocateInEvent(slots, samples, i, name, answer, w); }
      case AllocateInField(i, name, answer) =>
        if i < |slots| { samples, ending := PerformAllocateInField(slots, samples, i, name, answer, w); }
      case SendSample(i, name, k, v, answer) =>
        if i < |slots| && k < |samples| { samples := PerformSendSample(slots, samples, i, name, k, v, answer, w); }
      case UpdateSample(i, name, k, v, answer) =>
        if i < |slots| && k < |samples| {
          samples, strayed, ending := PerformUpdateSample(slots, samples, i, name, k, v, answer, w);
        }
      case _ =>
    }
    p' := p.(samples := samples, strayed := p.strayed || strayed, halfway := p.halfway || halfway,
            ending := ending);
  }

  method PerformOne(p: Program, op: Op, ghost w: World) returns (p': Program, ghost w': World)
    requires Fine(p, w) && p.ending == Running
    modifies w.skeletons, w.events, w.fields, w.bindings, w.roots
    ensures Fine(p', w') && Grown(w, w')
    ensures p'.ending == old(EndingOf(p, op, w)) && SlotsFollow(p.slots, op, p'.slots)
    ensures p'.halfway <==> p.halfway || (op.Offer? && op.i < |p.slots| && HalfOffered(p.slots[op.i].skeleton))
    ensures p'.halfway && !p.halfway ==> op.answers.root.Ok?
    ensures p'.strayed <==> p.strayed || old(GoesAstray(p, op))
  {
    hide Fine, EndingOf, HalfOffered, Strays;
    if OnObjects(op) {
      p', w' := PerformOnObjects(p, op, w);
    } else if Moves(op) {
      p', w' := PerformMoves(p, op, w);
    } else {
      p' := PerformOnElements(p, op, w);
      w' := w;
    }
  }

  predicate MayEnd(op: Op)
  {
    op.Offer? || op.Update? || op.AllocateInField? || op.UpdateSample? || op.Move? || op.Assign?
  }

  /** Some operation of the script was an offer that the skeleton's binding accepted. */
  predicate SomeOffer(ops: seq<Op>) { exists k :: 0 <= k < |ops| && ops[k].Offer? && ops[k].answers.root.Ok? }

  predicate SomeUpdateSample(ops: seq<Op>) { exists k :: 0 <= k < |ops| && ops[k].UpdateSample? }

  /** How many objects a program without moves has after the operations. */
  function SlotCount(n: nat, ops: seq<Op>): nat
  {
    if ops == [] then n
    else
      var before := SlotCount(n, ops[..|ops| - 1]);
      match ops[|ops| - 1]
      case New(_) => before + 1
      case Destruct(i) => if i < before then before - 1 else before
      case _ => before
  }

  predicate NoMoves(ops: seq<Op>) { forall k :: 0 <= k < |ops| ==> !ops[k].Move? }

  lemma OnlySomeOps(p: Program, op: Op, w: World)
    ensures EndingOf(p, op, w) != Running ==> MayEnd(op)
    ensures GoesAstray(p, op) ==> op.UpdateSample?
  {
  }

  lemma OneMoreOp(n: nat, ops: seq<Op>, k: nat, slots: seq<Slot>, slots': seq<Slot>)
    requires k < |ops| && SlotsFollow(slots, ops[k], slots')
    requires NoMoves(ops[..k]) ==> |slots| == SlotCount(n, ops[..k])
    ensures NoMoves(ops[..k + 1]) ==> |slots'| == SlotCount(n, ops[..k + 1])
  {
    var after := ops[..k + 1];
    assert after[..k] == ops[..k] && after[k] == ops[k];
  }

  /** Any operations, until the process ends or links are lost. */
  method RunOps(start: Program, ops: seq<Op>, ghost w0: World) returns (done: nat, p: Program, ghost w: World)
    requires Fine(start, w0)
    modifies w0.skeletons, w0.events, w0.fields, w0.bindings, w0.roots
    ensures Fine(p, w) && Grown(w0, w)
    ensures done <= |ops| && (done < |ops| ==> p.ending != Running)
    ensures NoMoves(ops[..done]) ==> |p.slots| == SlotCount(|start.slots|, ops[..done])
    ensures p.halfway ==> start.halfway || SomeOffer(ops)
    ensures p.strayed ==> start.strayed || SomeUpdateSample(ops)
    ensures p.ending != Running ==> start.ending != Running || exists k :: 0 <= k < |ops| && MayEnd(ops[k])
  {
    hide Fine, NoMoves, SlotsFollow, EndingOf, GoesAstray, HalfOffered, MayEnd;
    done, p, w := 0, start, w0;
    while done < |ops| && p.ending == Running
      invariant done <= |ops| && Fine(p, w) && Grown(w0, w)
      invariant NoMoves(ops[..done]) ==> |p.slots| == SlotCount(|start.slots|, ops[..done])
      invariant p.halfway ==> start.halfway || SomeOffer(ops)
      invariant p.strayed ==> start.strayed || SomeUpdateSample(ops)
      invariant p.ending != Running ==> start.ending != Running || exists k :: 0 <= k < |ops| && MayEnd(ops[k])
    {
      ghost var slots := p.slots;
      OnlySomeOps(p, ops[done], w);
      p, w := PerformOne(p, ops[done], w);
      OneMoreOp(|start.slots|, ops, done, slots, p.slots);
      done := done + 1;
    }
  }

  lemma AllGone(w: World)
    requires Sound(w) && Listed([], w)
    ensures w.skeletons == {} && forall b :: b in w.bindings ==> !b.offered
  {
    forall b | b in w.bindings ensures !b.offered {
      NobodyLeftNothingOffered(w, b);
    }
  }

  lemma NothingPrepared(w: World)
    requires w.skeletons == {}
    ensures Settled(w) ==> forall r :: r in w.roots ==> !r.prepared
  {
  }

  method DestroyAll(start: seq<Slot>, ghost w0: World) returns (ghost w: World)
    requires Sound(w0) && Listed(start, w0)
    modifies w0.skeletons, w0.events, w0.fields, w0.bindings, w0.roots
    ensures Sound(w) && w.bindings == w0.bindings && w.skeletons == {} && Grown(w0, w)
    ensures forall b :: b in w.bindings ==> !b.offered
    ensures w.roots == w0.roots && (old(Settled(w0)) ==> forall r :: r in w.roots ==> !r.prepared)
  {
    hide Sound, Listed, Tracked, Settled;
    var slots := start;
    w := w0;
    ghost var settled := Settled(w0);
    while slots != []
      invariant Sound(w) && Listed(slots, w) && w.bindings == w0.bindings && Grown(w0, w)
      invariant w.roots == w0.roots && (settled ==> Settled(w))
      decreases |slots|
    {
      slots, w := PerformDestruct(slots, 0, w);
    }
    AllGone(w);
    NothingPrepared(w);
  }

  /** Every prepared field's first value is the last one saved for it before. */
  ghost predicate FirstValuesSaved(w: World)
    reads w.fields, w.events, w.bindings
  {
    forall f :: f in w.fields && f.prepared && f.event in w.events && f.event.binding in w.bindings ==>
      && f.history.saved.Some? && f.event.binding.values != []
      && f.event.binding.values[0] == f.history.saved.value
  }

  lemma OnTimeIsFirst(w: World)
    requires Sound(w) && OnTime(w)
    ensures FirstValuesSaved(w)
  {
    forall f | f in w.fields && f.prepared && f.event in w.events && f.event.binding in w.bindings
      ensures f.history.saved.Some? && f.event.binding.values != []
      ensures f.event.binding.values[0] == f.history.saved.value
    {
      FirstValueIsTheSaved(w, f);
    }
  }

  lemma NothingIsFine(w: World)
    requires w == World({}, {}, {}, {}, {})
    ensures Fine(Program([], [], false, false, Running), w)
  {
  }

  /** Any operations of a program that starts with nothing.  Afterwards each offered
      event binding has exactly one owner, with its flag set; unless the process
      ended or a skeleton that was moved from was moved again or assigned to, every
      other skeleton has its links; and if memory only went back to where it came
      from, every prepared field's first value is the last one saved for it. */
  method AnyOps(ops: seq<Op>) returns (p: Program, ghost w: World)
    ensures Sound(w) && Listed(p.slots, w)
    ensures p.ending == Running ==> Tracked(p.slots, w)
    ensures !p.strayed && p.ending != Terminated ==> FirstValuesSaved(w)
    ensures !p.halfway && p.ending != Terminated ==> Settled(w)
    ensures p.halfway ==> SomeOffer(ops)
    ensures p.strayed ==> SomeUpdateSample(ops)
    ensures p.ending != Running ==> exists k :: 0 <= k < |ops| && MayEnd(ops[k])
  {
    hide Sound, Tracked, Listed, OnTime, FirstValuesSaved;
    var nothing := World({}, {}, {}, {}, {});
    NothingIsFine(nothing);
    var done;
    done, p, w := RunOps(Program([], [], false, false, Running), ops, nothing);
    if !p.strayed && p.ending != Terminated {
      OnTimeIsFirst(w);
    }
  }

  /** When all that is left is destroyed no event binding is offered any more, of
      those there were and of those created on the way, whether or not links were
      lost. */
  method AnyRun(start: Program, ops: seq<Op>, ghost w0: World) returns (p: Program, ghost w: World)
    requires Fine(start, w0)
    modifies w0.skeletons, w0.events, w0.fields, w0.bindings, w0.roots
    ensures Sound(w) && Grown(w0, w)
    ensures p.ending != Terminated ==> w.skeletons == {} && forall b :: b in w.bindings ==> !b.offered
    ensures p.ending != Terminated && !p.halfway ==> forall r :: r in w.roots ==> !r.prepared
    ensures p.halfway ==> start.halfway || SomeOffer(ops)
    ensures p.ending != Running ==> start.ending != Running || exists k :: 0 <= k < |ops| && MayEnd(ops[k])
  {
    hide Sound, Tracked, Listed, OnTime, Lent;
    var done;
    done, p, w := RunOps(start, ops, w0);
    if p.ending != Terminated {
      w := DestroyAll(p.slots, w);
    }
  }
}
