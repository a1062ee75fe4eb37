/** Skeletons with their events and fields: offering, stopping, moving and
    destroying them.

    The binding layer is an environment: every call to it is given its answer.
    What the bindings rely on are preconditions of their methods, so each call in
    the code carries a proof of them. */
module Skeletons {

  import opened Wrappers

  type Name = string

  type Value = nat

  datatype ComError =
    | BindingFailure
    | FieldValueIsNotValid
    | NotOffered
    | OtherError(code: nat)

  type Answer = Result<(), ComError>

  // Frames of possibly null references.

  ghost function BindingAt(b: EventBinding?): set<EventBinding> { if b == null then {} else {b} }

  ghost function EventAt(e: SkeletonEvent?): set<SkeletonEvent> { if e == null then {} else {e} }

  ghost function BindingOf(e: SkeletonEvent?): set<EventBinding>
    reads e
  {
    if e == null then {} else BindingAt(e.binding)
  }

  ghost function RootAt(r: SkeletonBinding?): set<SkeletonBinding> { if r == null then {} else {r} }

  /** Memory allocated by a binding for the program to fill. */
  datatype Sample = Sample(origin: EventBinding)

  // ----- bindings

  class EventBinding {
    var offered: bool
    var values: seq<Value>               // what the binding accepted, in order
    ghost var lent: bool                 // memory for samples was allocated here
    ghost var owner: SkeletonEvent?      // the one unique_ptr that points here

    constructor ()
      ensures !offered && values == [] && !lent && owner == null
    {
      offered, values, lent, owner := false, [], false, null;
    }

    method PrepareOffer(answer: Answer)
      modifies this`offered
      ensures offered == (old(offered) || answer.Ok?)
    {
      offered := offered || answer.Ok?;
    }

    /** Only ever for a binding that was offered. */
    method PrepareStopOffer()
      requires offered
      modifies this`offered
      ensures !offered
    {
      offered := false;
    }

    /** Copying in a value: only ever while offered. */
    method Send(v: Value, answer: Answer)
      requires offered
      modifies this`values
      ensures values == old(values) + (if answer.Ok? then [v] else [])
    {
      if answer.Ok? {
        values := values + [v];
      }
    }

    /** Memory for a value that is sent without copying: only ever while offered. */
    method Allocate(answer: Answer)
      requires offered
      modifies this`lent
      ensures lent == (old(lent) || answer.Ok?)
    {
      lent := lent || answer.Ok?;
    }

    /** Sending such memory, offered or not. */
    method SendSample(v: Value, answer: Answer)
      modifies this`values
      ensures values == old(values) + (if answer.Ok? then [v] else [])
    {
      if answer.Ok? {
        values := values + [v];
      }
    }
  }

  class SkeletonBinding {
    var prepared: bool
    ghost var owner: Skeleton?

    constructor ()
      ensures !prepared && owner == null
    {
      prepared, owner := false, null;
    }

    method PrepareOffer(answer: Answer)
      modifies this`prepared
      ensures prepared == (old(prepared) || answer.Ok?)
    {
      prepared := prepared || answer.Ok?;
    }

    /** Only ever after a successful `PrepareOffer`. */
    method PrepareStopOffer()
      requires prepared
      modifies this`prepared
      ensures !prepared
    {
      prepared := false;
    }
  }

  // ----- events

  class SkeletonEvent {
    var binding: EventBinding?
    var skeleton: Skeleton               // the parent to tell about a new address
    const name: Name
    var offered: bool                    // the single-owner flag
    ghost const home: Skeleton           // the skeleton object this is a member of, or was created for
    ghost var holder: SkeletonField?     // the field that dispatches to this event

    /** Flag and binding agree, and no other event has this binding. */
    ghost predicate Valid()
      reads this, binding
    {
      if binding == null then !offered else binding.owner == this && binding.offered == offered
    }

    constructor (skeleton: Skeleton, name: Name, binding: EventBinding?)
      requires binding != null ==> binding.owner == null && !binding.offered
      modifies BindingAt(binding)`owner
      ensures Valid() && this.binding == binding && !offered && this.name == name
      ensures this.skeleton == home == skeleton && holder == null
    {
      this.skeleton, this.name, this.binding, offered := skeleton, name, binding, false;
      home, holder := skeleton, null;
      new;
      if binding != null {
        binding.owner := this;
      }
    }

    method PrepareOffer(answer: Answer)
      requires Valid() && binding != null
      modifies this`offered, binding`offered
      ensures Valid() && offered == (old(offered) || answer.Ok?)
    {
      binding.PrepareOffer(answer);
      if answer.Ok? {
        offered := true;
      }
    }

    method PrepareStopOffer()
      requires Valid()
      modifies this`offered, BindingAt(binding)`offered
      ensures Valid() && !offered
    {
      if offered {
        binding.PrepareStopOffer();
        offered := false;
      }
    }

    method Send(v: Value, answer: Answer) returns (result: Answer)
      requires Valid()
      modifies BindingAt(binding)`values
      ensures Valid()
      ensures result == (if !offered then Err(NotOffered) else if answer.Err? then Err(BindingFailure) else Ok(()))
      ensures binding != null ==> binding.values == old(binding.values) + (if result.Ok? then [v] else [])
    {
      if !offered {
        return Err(NotOffered);
      }
      binding.Send(v, answer);
      return if answer.Err? then Err(BindingFailure) else Ok(());
    }

    /** Memory is only lent while offered ... */
    method Allocate(answer: Answer) returns (result: Result<Sample, ComError>)
      requires Valid()
      modifies BindingAt(binding)`lent
      ensures Valid()
      ensures result == if !offered then Err(NotOffered)
                        else if answer.Err? then Err(BindingFailure) else Ok(Sample(binding))
      ensures binding != null ==> binding.lent == (old(binding.lent) || result.Ok?)
    {
      if !offered {
        return Err(NotOffered);
      }
      binding.Allocate(answer);
      return if answer.Err? then Err(BindingFailure) else Ok(Sample(binding));
    }

    /** ... but it may be sent at any time. */
    method SendSample(v: Value, answer: Answer) returns (result: Answer)
      requires Valid() && binding != null
      modifies binding`values
      ensures Valid()
      ensures result == if answer.Err? then Err(BindingFailure) else Ok(())
      ensures binding.values == old(binding.values) + (if result.Ok? then [v] else [])
    {
      binding.SendSample(v, answer);
      return if answer.Err? then Err(BindingFailure) else Ok(());
    }

    /** The destructor: the binding is stopped if it was offered, then goes away. */
    method Destroy()
      requires Valid()
      modifies this`offered, this`binding, BindingAt(binding)`offered, BindingAt(binding)`owner
      ensures binding == null && !offered
      ensures old(binding) != null ==> old(binding).owner == null && !old(binding).offered
    {
      PrepareStopOffer();
      if binding != null {
        binding.owner := null;
        binding := null;
      }
    }

    /** Binding and flag of `other` become this event's. */
    method TakeOver(other: SkeletonEvent)
      requires this != other && other.Valid()
      modifies this`binding, this`offered, other`binding, other`offered, BindingAt(other.binding)`owner
      ensures Valid() && binding == old(other.binding) && offered == old(other.offered)
      ensures other.binding == null && !other.offered
    {
      binding, offered := other.binding, other.offered;
      other.binding, other.offered := null, false;
      if binding != null {
        binding.owner := this;
      }
    }

    /** Move construction: the parent that `other` refers to learns the new address. */
    constructor Move(other: SkeletonEvent, ghost home: Skeleton)
      requires other.Valid() && other.name in other.skeleton.events
      modifies other`binding, other`offered, BindingAt(other.binding)`owner, other.skeleton`events
      ensures Valid() && binding == old(other.binding) && offered == old(other.offered)
      ensures other.binding == null && !other.offered
      ensures skeleton == other.skeleton && name == other.name && this.home == home && holder == null
      ensures skeleton.events == old(other.skeleton.events)[name := this]
    {
      skeleton, name := other.skeleton, other.name;
      binding, offered := null, false;
      this.home, holder := home, null;
      new;
      TakeOver(other);
      skeleton.UpdateEvent(name, this);
    }

    /** Move assignment: the parent reference is not taken over, so it is this
        event's own parent that learns the address.  Assigning an event to itself
        does nothing. */
    method MoveAssign(other: SkeletonEvent)
      requires Valid() && other.Valid() && (this != other ==> name in skeleton.events)
      modifies this`binding, this`offered, other`binding, other`offered,
               BindingAt(binding)`offered, BindingAt(binding)`owner, BindingAt(other.binding)`owner, skeleton`events
      ensures Valid() && binding == old(other.binding) && offered == old(other.offered)
      ensures this != other ==>
                && other.binding == null && !other.offered
                && (old(binding) != null ==> old(binding).owner == null && !old(binding).offered)
                && skeleton.events == old(skeleton.events)[name := this]
      ensures this == other ==> skeleton.events == old(skeleton.events)
    {
      if this != other {
        Destroy();
        TakeOver(other);
        skeleton.UpdateEvent(name, this);
      }
    }
  }

  // ----- fields

  /** What happened to a field's value: the last one `Update` stored away, and how
      many were sent without copying before the field was prepared. */
  datatype History = History(saved: Option<Value>, early: nat)

  class SkeletonField {
    var event: SkeletonEvent?            // the owned event it dispatches to
    var prepared: bool                   // was_prepare_offer_called_
    var skeleton: Skeleton
    var name: Name
    var initial: Option<Value>
    ghost const home: Skeleton
    ghost var history: History

    /** Until the deferred update succeeded the last saved value is kept, no memory
        was lent, and the binding has at most what was sent early; afterwards that
        value is the binding's next, and no copy is kept. */
    ghost predicate Matches(values: seq<Value>, lent: bool)
      reads this`prepared, this`initial, this`history
    {
      if prepared then
        && initial == None && history.saved.Some?
        && history.early < |values| && values[history.early] == history.saved.value
      else
        initial == history.saved && |values| == history.early && !lent
    }

    ghost predicate Valued()
      reads this, event, if event == null then {} else {event.binding}
    {
      event != null && event.binding != null ==> Matches(event.binding.values, event.binding.lent)
    }

    constructor (skeleton: Skeleton, name: Name, binding: EventBinding?)
      requires binding != null ==> binding.owner == null && !binding.offered && binding.values == [] && !binding.lent
      modifies BindingAt(binding)`owner, skeleton`fields
      ensures Valued() && event != null && fresh(event) && event.Valid() && event.binding == binding
      ensures event.holder == this && !prepared && initial == None && history == History(None, 0)
      ensures this.skeleton == home == skeleton && this.name == name
      ensures skeleton.fields == old(skeleton.fields)[name := this]
    {
      var e := new SkeletonEvent(skeleton, name, binding);
      this.event, prepared, this.skeleton, this.name, initial := e, false, skeleton, name, None;
      home, history := skeleton, History(None, 0);
      new;
      e.holder := this;
      skeleton.fields := skeleton.fields[name := this];
    }

    method DoDeferredUpdate(answer: Answer) returns (result: Answer)
      requires event != null && event.Valid() && event.binding != null && event.offered && initial.Some?
      modifies this`initial, event.binding`values
      ensures event.Valid()
      ensures result == if answer.Ok? then Ok(()) else Err(BindingFailure)
      ensures initial == if result.Ok? then None else old(initial)
      ensures event.binding.values == old(event.binding.values) + (if result.Ok? then [old(initial).value] else [])
    {
      result := event.Send(initial.value, answer);
      if result.Err? {
        return;
      }
      initial := None;
    }

    /** All outcomes of preparing a field.  A failure loses nothing: the saved
        value stays until the binding has taken it. */
    method PrepareOffer(answer: Answer, valueAnswer: Answer) returns (result: Answer)
      requires Valued() && event != null && event.Valid() && event.binding != null
      modifies this`initial, this`prepared, event`offered, event.binding`offered, event.binding`values
      ensures Valued() && event.Valid()
      ensures !old(prepared) && old(initial).None? ==>
                result == Err(FieldValueIsNotValid) && event.offered == old(event.offered)
      ensures old(prepared) || old(initial).Some? ==> event.offered == (old(event.offered) || answer.Ok?)
      ensures old(prepared) || (old(initial).Some? && answer.Err?) ==> result == answer
      ensures !old(prepared) && old(initial).Some? && answer.Ok? ==>
                result == if valueAnswer.Ok? then Ok(()) else Err(BindingFailure)
      ensures prepared == (old(prepared) || result.Ok?)
      ensures prepared == old(prepared) ==>
                initial == old(initial) && event.binding.values == old(event.binding.values)
      ensures prepared && !old(prepared) ==>
                initial == None && event.binding.values == old(event.binding.values) + [old(initial).value]
      ensures result.Ok? ==> event.offered
    {
      if !prepared {
        if initial.None? {
          return Err(FieldValueIsNotValid);
        }
        event.PrepareOffer(answer);
        if answer.Err? {
          return answer;
        }
        result := DoDeferredUpdate(valueAnswer);
        if result.Ok? {
          prepared := true;
        }
      } else {
        event.PrepareOffer(answer);
        result := answer;
      }
    }

    /** Stored until the field was prepared, sent afterwards. */
    method Update(v: Value, answer: Answer) returns (result: Answer)
      requires Valued() && (event != null ==> event.Valid()) && (prepared ==> event != null)
      modifies this`initial, this`history, BindingOf(event)`values
      ensures Valued() && (event != null ==> event.Valid())
      ensures !old(prepared) ==>
                && result == Ok(()) && initial == Some(v) && history == old(history).(saved := Some(v))
                && (event != null && event.binding != null ==> event.binding.values == old(event.binding.values))
      ensures old(prepared) ==>
                && initial == old(initial) && history == old(history)
                && result == (if !event.offered then Err(NotOffered)
                              else if answer.Err? then Err(BindingFailure) else Ok(()))
                && (event.binding != null ==>
                      event.binding.values == old(event.binding.values) + (if result.Ok? then [v] else []))
    {
      if !prepared {
        initial := Some(v);
        history := history.(saved := Some(v));
        return Ok(());
      }
      result := event.Send(v, answer);
    }

    /** Memory is lent only once the field was prepared, and while it is offered ... */
    method Allocate(answer: Answer) returns (result: Result<Sample, ComError>)
      requires Valued() && event != null && event.Valid()
      modifies BindingAt(event.binding)`lent
      ensures Valued() && event.Valid()
      ensures result == if !prepared then Err(BindingFailure) else if !event.offered then Err(NotOffered)
                        else if answer.Err? then Err(BindingFailure) else Ok(Sample(event.binding))
      ensures event.binding != null ==> event.binding.lent == (old(event.binding.lent) || result.Ok?)
    {
      if !prepared {
        return Err(BindingFailure);
      }
      result := event.Allocate(answer);
    }

    /** ... and sent at any time.  A sample of this field's own binding is never
        early, even if the offer was stopped in between. */
    method UpdateSample(sample: Sample, v: Value, answer: Answer) returns (result: Answer)
      requires Valued() && event != null && event.Valid() && event.binding != null && sample.origin.lent
      modifies this`history, event.binding`values
      ensures Valued() && event.Valid()
      ensures result == if answer.Err? then Err(BindingFailure) else Ok(())
      ensures event.binding.values == old(event.binding.values) + (if result.Ok? then [v] else [])
      ensures history.saved == old(history.saved)
      ensures history.early == old(history.early) + (if !prepared && result.Ok? then 1 else 0)
      ensures sample.origin == event.binding ==> history == old(history)
    {
      result := event.SendSample(v, answer);
      if !prepared && result.Ok? {
        history := history.(early := history.early + 1);
      }
    }

    /** The destructor, through the owned event's. */
    method Destroy()
      requires event != null ==> event.Valid()
      modifies this`event, EventAt(event)`binding, EventAt(event)`offered, EventAt(event)`holder,
               BindingOf(event)`offered, BindingOf(event)`owner
      ensures event == null && Valued()
      ensures old(event) != null ==> old(event).binding == null && !old(event).offered && old(event).holder == null
      ensures old(event) != null && old(event.binding) != null ==>
                old(event.binding).owner == null && !old(event.binding).offered
    {
      if event != null {
        event.Destroy();
        event.holder := null;
        event := null;
      }
    }

    /** Everything but the address is taken from `other`. */
    method TakeOver(other: SkeletonField)
      requires this != other && event == null && other.Valued()
      modifies this`event, this`prepared, this`skeleton, this`name, this`initial, this`history,
               other`event, other`initial, EventAt(other.event)`holder
      ensures Valued() && event == old(other.event) && other.event == null && other.initial == None
      ensures event != null ==> event.holder == this
      ensures prepared == other.prepared && initial == old(other.initial) && history == other.history
      ensures skeleton == other.skeleton && name == other.name
    {
      event, prepared, skeleton, name := other.event, other.prepared, other.skeleton, other.name;
      initial, history := other.initial, other.history;
      other.event, other.initial := null, None;
      if event != null {
        event.holder := this;
      }
    }

    constructor Move(other: SkeletonField, ghost home: Skeleton)
      requires other.Valued() && other.name in other.skeleton.fields
      modifies other`event, other`initial, EventAt(other.event)`holder, other.skeleton`fields
      ensures Valued() && event == old(other.event) && other.event == null && other.initial == None
      ensures event != null ==> event.holder == this
      ensures prepared == other.prepared && initial == old(other.initial) && history == other.history
      ensures skeleton == other.skeleton && name == other.name && this.home == home
      ensures skeleton.fields == old(other.skeleton.fields)[name := this]
    {
      event, initial, history, prepared := null, None, History(None, 0), false;
      skeleton, name, this.home := other.skeleton, other.name, home;
      new;
      TakeOver(other);
      skeleton.UpdateField(name, this);
    }

    /** Move assignment: here the parent reference is taken over.  Assigning a
        field to itself does nothing. */
    method MoveAssign(other: SkeletonField)
      requires other.Valued() && (event != null ==> event.Valid())
      requires this != other ==> (event == null || event != other.event) && other.name in other.skeleton.fields
      modifies this`event, this`prepared, this`skeleton, this`name, this`initial, this`history,
               other`event, other`initial,
               EventAt(event)`binding, EventAt(event)`offered, EventAt(event)`holder,
               BindingOf(event)`offered, BindingOf(event)`owner,
               EventAt(other.event)`holder, other.skeleton`fields
      ensures Valued() && event == old(other.event)
      ensures prepared == old(other.prepared) && initial == old(other.initial) && history == old(other.history)
      ensures skeleton == old(other.skeleton) && name == old(other.name)
      ensures this != other ==>
                && other.event == null && other.initial == None
                && (event != null ==> event.holder == this)
                && (old(event) != null ==>
                      old(event).binding == null && !old(event).offered && old(event).holder == null)
                && (old(event) != null && old(event.binding) != null ==>
                      old(event.binding).owner == null && !old(event.binding).offered)
                && skeleton.fields == old(other.skeleton.fields)[name := this]
      ensures this == other ==> skeleton.fields == old(skeleton.fields)
    {
      if this != other {
        Destroy();
        TakeOver(other);
        skeleton.UpdateField(name, this);
      }
    }
  }

  // ----- skeletons

  class Skeleton {
    var binding: SkeletonBinding?
    var events: map<Name, SkeletonEvent>
    var fields: map<Name, SkeletonField>
    var serviceOffered: bool             // the single-owner flag
    // The members the generated class adds.
    var ownEvents: map<Name, SkeletonEvent>
    var ownFields: map<Name, SkeletonField>

    constructor (binding: SkeletonBinding?)
      requires binding != null ==> binding.owner == null
      modifies if binding == null then {} else {binding}
      ensures this.binding == binding && events == ownEvents == map[] && fields == ownFields == map[]
      ensures !serviceOffered
      ensures (binding != null ==> binding.owner == this && binding.prepared == old(binding.prepared))
    {
      this.binding, events, fields, serviceOffered := binding, map[], map[], false;
      ownEvents, ownFields := map[], map[];
      new;
      if binding != null {
        binding.owner := this;
      }
    }

    /** `at` throws, and so terminates, for a name that is not there. */
    method UpdateEvent(name: Name, event: SkeletonEvent)
      requires name in events
      modifies this`events
      ensures events == old(events)[name := event]
    {
      events := events[name := event];
    }

    method UpdateField(name: Name, field: SkeletonField)
      requires name in fields
      modifies this`fields
      ensures fields == old(fields)[name := field]
    {
      fields := fields[name := field];
    }

    /** The address of this skeleton is new to its elements. */
    method UpdateReferences()
      modifies events.Values`skeleton, fields.Values`skeleton
      ensures forall n :: n in events ==> events[n].skeleton == this
      ensures forall n :: n in fields ==> fields[n].skeleton == this
    {
      var todo := events.Keys;
      while todo != {}
        invariant todo <= events.Keys
        invariant forall n :: n in events.Keys - todo ==> events[n].skeleton == this
        decreases todo
      {
        var n :| n in todo;
        events[n].skeleton := this;
        todo := todo - {n};
      }
      todo := fields.Keys;
      while todo != {}
        invariant todo <= fields.Keys
        invariant forall n :: n in fields.Keys - todo ==> fields[n].skeleton == this
        invariant forall n :: n in events ==> events[n].skeleton == this
        decreases todo
      {
        var n :| n in todo;
        fields[n].skeleton := this;
        todo := todo - {n};
      }
    }

    method TakeOver(other: Skeleton)
      requires this != other
      modifies this`binding, this`events, this`fields, this`serviceOffered,
               other`binding, other`events, other`fields, other`serviceOffered, RootAt(other.binding)`owner,
               other.events.Values`skeleton, other.fields.Values`skeleton
      ensures binding == old(other.binding) && events == old(other.events) && fields == old(other.fields)
      ensures serviceOffered == old(other.serviceOffered) && Emptied(other)
      ensures binding != null ==> binding.owner == this
      ensures forall n :: n in events ==> events[n].skeleton == this
      ensures forall n :: n in fields ==> fields[n].skeleton == this
    {
      binding, events, fields := other.binding, other.events, other.fields;
      serviceOffered := other.serviceOffered;
      other.binding, other.events, other.fields, other.serviceOffered := null, map[], map[], false;
      if binding != null {
        binding.owner := this;
      }
      UpdateReferences();
    }

    /** Move construction of the base; the derived class moves its members next. */
    constructor MoveBase(other: Skeleton)
      modifies other`binding, other`events, other`fields, other`serviceOffered, RootAt(other.binding)`owner,
               other.events.Values`skeleton, other.fields.Values`skeleton
      ensures binding == old(other.binding) && events == old(other.events) && fields == old(other.fields)
      ensures serviceOffered == old(other.serviceOffered) && Emptied(other)
      ensures ownEvents == map[] && ownFields == map[]
      ensures binding != null ==> binding.owner == this
      ensures forall n :: n in events ==> events[n].skeleton == this
      ensures forall n :: n in fields ==> fields[n].skeleton == this
    {
      binding, events, fields, serviceOffered := null, map[], map[], false;
      ownEvents, ownFields := map[], map[];
      new;
      TakeOver(other);
    }

    /** Stops the offer if there is one; the elements look after themselves. */
    method Cleanup()
      requires serviceOffered ==> binding != null && binding.prepared
      modifies this`serviceOffered, RootAt(binding)`prepared
      ensures !serviceOffered && (old(serviceOffered) ==> !binding.prepared)
      ensures !old(serviceOffered) && binding != null ==> binding.prepared == old(binding.prepared)
    {
      if serviceOffered {
        binding.PrepareStopOffer();
        serviceOffered := false;
      }
    }

    /** Move assignment of the base; to itself it does nothing. */
    method AssignBase(other: Skeleton)
      requires serviceOffered ==> binding != null && binding.prepared
      requires this != other && binding != null ==> binding != other.binding
      modifies this`binding, this`events, this`fields, this`serviceOffered, RootAt(binding)`prepared,
               RootAt(binding)`owner,
               other`binding, other`events, other`fields, other`serviceOffered, RootAt(other.binding)`owner,
               other.events.Values`skeleton, other.fields.Values`skeleton
      ensures binding == old(other.binding) && events == old(other.events) && fields == old(other.fields)
      ensures serviceOffered == old(other.serviceOffered)
      ensures this != other ==>
                && Emptied(other)
                && (binding != null ==> binding.owner == this)
                && (old(binding) != null ==> old(binding).owner == null)
                && (old(serviceOffered) ==> !old(binding).prepared)
                && (!old(serviceOffered) && old(binding) != null ==> old(binding).prepared == old(binding.prepared))
                && (forall n :: n in events ==> events[n].skeleton == this)
                && (forall n :: n in fields ==> fields[n].skeleton == this)
    {
      if this != other {
        Cleanup();
        if binding != null {
          binding.owner := null;
        }
        TakeOver(other);
      }
    }
  }

  /** What the base of a moved-from skeleton looks like. */
  ghost predicate Emptied(s: Skeleton)
    reads s`binding, s`events, s`fields, s`serviceOffered
  {
    s.binding == null && s.events == map[] && s.fields == map[] && !s.serviceOffered
  }

  // ----- everything there is

  datatype World = World(
    skeletons: set<Skeleton>,
    events: set<SkeletonEvent>,       // all of them, also those owned by fields
    fields: set<SkeletonField>,
    bindings: set<EventBinding>,      // every event binding ever created
    roots: set<SkeletonBinding>)

  /** Each event binding has at most one owner, which is alive and whose flag
      says whether the binding is offered; without an owner it is not offered. */
  ghost predicate Owned(events: set<SkeletonEvent>, bindings: set<EventBinding>)
    reads events`binding, events`offered, bindings`owner, bindings`offered
  {
    && (forall e :: e in events ==>
          if e.binding == null then !e.offered
          else e.binding in bindings && e.binding.owner == e && e.binding.offered == e.offered)
    && (forall b :: b in bindings ==>
          if b.owner == null then !b.offered else b.owner in events && b.owner.binding == b)
  }

  /** Each field's dispatch event is its own. */
  ghost predicate Held(fields: set<SkeletonField>, events: set<SkeletonEvent>)
    reads fields`event, events`holder
  {
    && (forall f :: f in fields && f.event != null ==> f.event in events && f.event.holder == f)
    && (forall e :: e in events && e.holder != null ==> e.holder in fields && e.holder.event == e)
  }

  ghost predicate AllValued(fields: set<SkeletonField>, events: set<SkeletonEvent>, bindings: set<EventBinding>)
    reads fields`event, fields`prepared, fields`initial, fields`history, events`binding, bindings`values, bindings`lent
  {
    forall f :: f in fields && f.event in events && f.event.binding in bindings ==>
      f.Matches(f.event.binding.values, f.event.binding.lent)
  }

  /** Every event that has a binding and is not owned by a field is a member of a skeleton. */
  ghost predicate EventsAtHome(skeletons: set<Skeleton>, events: set<SkeletonEvent>)
    reads skeletons`ownEvents, events`holder, events`binding
  {
    && (forall e :: e in events && e.holder == null && e.binding != null ==> IsMember(e, skeletons))
    && (forall s, n :: s in skeletons && n in s.ownEvents ==>
          var e := s.ownEvents[n]; e in events && e.holder == null && e.home == s && e.name == n)
  }

  ghost predicate IsMember(e: SkeletonEvent, skeletons: set<Skeleton>)
    reads skeletons`ownEvents
  {
    e.home in skeletons && e.name in e.home.ownEvents && e.home.ownEvents[e.name] == e
  }

  /** So is every field. */
  ghost predicate FieldsAtHome(skeletons: set<Skeleton>, fields: set<SkeletonField>)
    reads skeletons`ownFields, fields`name
  {
    && (forall f :: f in fields ==>
          f.home in skeletons && f.name in f.home.ownFields && f.home.ownFields[f.name] == f)
    && (forall s, n :: s in skeletons && n in s.ownFields ==>
          var f := s.ownFields[n]; f in fields && f.home == s && f.name == n)
  }

  ghost predicate Rooted(skeletons: set<Skeleton>, roots: set<SkeletonBinding>)
    reads skeletons`binding, skeletons`serviceOffered, roots
  {
    forall s :: s in skeletons ==>
      if s.binding == null then !s.serviceOffered
      else s.binding in roots && s.binding.owner == s && (s.serviceOffered ==> s.binding.prepared)
  }

  ghost predicate Sound(w: World)
    reads w.skeletons, w.events, w.fields, w.bindings, w.roots
  {
    && Owned(w.events, w.bindings)
    && Held(w.fields, w.events)
    && AllValued(w.fields, w.events, w.bindings)
    && EventsAtHome(w.skeletons, w.events)
    && FieldsAtHome(w.skeletons, w.fields)
    && Rooted(w.skeletons, w.roots)
  }

  /** Of all skeleton bindings only that of `s` was told to stop, exactly if its
      service was offered. */
  twostate predicate StoppedOnly(s: Skeleton, roots: set<SkeletonBinding>)
    reads roots`prepared
  {
    && (old(s.serviceOffered) ==> old(s.binding) != null && old(s.binding) in roots)
    && forall r :: r in roots ==>
         r.prepared == if r == old(s.binding) && old(s.serviceOffered) then false else old(r.prepared)
  }

  /** A skeleton binding is prepared only while its skeleton's service is offered. */
  ghost predicate Settled(w: World)
    reads w.skeletons`binding, w.skeletons`serviceOffered, w.roots`prepared
  {
    forall r :: r in w.roots && r.prepared ==> exists s :: s in w.skeletons && s.binding == r && s.serviceOffered
  }

  /** An offered event binding has exactly one owner with its flag set. */
  lemma ExactlyOneOwner(w: World, b: EventBinding)
    requires Sound(w) && b in w.bindings
    ensures b.offered <==> exists e :: e in w.events && e.binding == b && e.offered
    ensures forall d, e :: d in w.events && e in w.events && d.binding == b && e.binding == b ==> d == e
  {
    if b.offered {
      assert b.owner in w.events && b.owner.binding == b;
    }
  }

  lemma NobodyLeftNothingOffered(w: World, b: EventBinding)
    requires Sound(w) && b in w.bindings && w.skeletons == {}
    ensures !b.offered
  {
  }

  /** What one member event takes along when it moves. */
  datatype Cargo = Cargo(binding: EventBinding?, offered: bool)

  ghost function Load(e: SkeletonEvent): Cargo
    reads e`binding, e`offered
  {
    Cargo(e.binding, e.offered)
  }

  /** The same for a field. */
  datatype FieldCargo = FieldCargo(event: SkeletonEvent?, prepared: bool, initial: Option<Value>, history: History)

  ghost function FieldLoad(f: SkeletonField): FieldCargo
    reads f`event, f`prepared, f`initial, f`history
  {
    FieldCargo(f.event, f.prepared, f.initial, f.history)
  }

  /** The events and fields created as, or for, members of `s`. */
  ghost function EventsOf(s: Skeleton, w: World): set<SkeletonEvent>
  {
    set e | e in w.events && e.home == s
  }

  ghost function FieldsOf(s: Skeleton, w: World): set<SkeletonField>
  {
    set f | f in w.fields && f.home == s
  }

  // ----- element operations keep the world sound

  method OfferEvent(e: SkeletonEvent, answer: Answer, ghost w: World)
    requires Sound(w) && e in w.events && e.binding != null
    modifies e`offered, w.bindings`offered
    ensures Sound(w) && e.offered == (old(e.offered) || answer.Ok?)
  {
    hide AllValued, Held, EventsAtHome, FieldsAtHome, Rooted;
    e.PrepareOffer(answer);
  }

  method StopEvent(e: SkeletonEvent, ghost w: World)
    requires Sound(w) && e in w.events
    modifies e`offered, w.bindings`offered
    ensures Sound(w) && !e.offered
  {
    hide AllValued, Held, EventsAtHome, FieldsAtHome, Rooted;
    e.PrepareStopOffer();
  }

  method SendEvent(e: SkeletonEvent, v: Value, answer: Answer, ghost w: World) returns (result: Answer)
    requires Sound(w) && e in w.events && e.holder == null
    modifies w.bindings`values
    ensures Sound(w)
  {
    hide EventsAtHome, FieldsAtHome, Rooted;
    result := e.Send(v, answer);
  }

  /** Move construction as far as bindings and fields are concerned ... */
  method MoveEventBinding(source: SkeletonEvent, ghost home: Skeleton, ghost w: World) returns (e: SkeletonEvent)
    requires Owned(w.events, w.bindings) && Held(w.fields, w.events) && AllValued(w.fields, w.events, w.bindings)
    requires EventsAtHome(w.skeletons, w.events)
    requires source in w.events && source.holder == null && source.name in source.skeleton.events
    modifies source`binding, source`offered, w.bindings`owner, source.skeleton`events
    ensures fresh(e) && Owned(w.events + {e}, w.bindings) && Held(w.fields, w.events + {e})
    ensures AllValued(w.fields, w.events + {e}, w.bindings) && EventsAtHome(w.skeletons, w.events)
    ensures e.name == source.name && e.skeleton == source.skeleton && e.holder == null && e.home == home
    ensures e.skeleton.events == old(source.skeleton.events)[e.name := e]
    ensures e.binding == old(source.binding) && e.offered == old(source.offered) && source.binding == null
  {
    e := new SkeletonEvent.Move(source, home);
    assert Owned(w.events + {e}, w.bindings);
    assert Held(w.fields, w.events + {e});
  }

  /** ... and the new event as a member. */
  method AddEvent(s: Skeleton, e: SkeletonEvent, ghost skeletons: set<Skeleton>, ghost events: set<SkeletonEvent>)
    requires EventsAtHome(skeletons, events) && s in skeletons && e !in events
    requires e.home == s && e.holder == null && e.name !in s.ownEvents
    modifies s`ownEvents
    ensures EventsAtHome(skeletons, events + {e}) && s.ownEvents == old(s.ownEvents)[e.name := e]
  {
    s.ownEvents := s.ownEvents[e.name := e];
  }

  method MoveEvent(s: Skeleton, source: SkeletonEvent, ghost w: World) returns (e: SkeletonEvent, ghost w': World)
    requires Sound(w) && s in w.skeletons && source in w.events && source.holder == null
    requires source.name in source.skeleton.events && source.name !in s.ownEvents
    modifies source`binding, source`offered, w.bindings`owner, source.skeleton`events, s`ownEvents
    ensures fresh(e) && w' == w.(events := w.events + {e}) && Sound(w')
    ensures e.name == source.name && e.skeleton == source.skeleton && e.holder == null
    ensures s.ownEvents == old(s.ownEvents)[e.name := e]
    ensures e.skeleton.events == old(source.skeleton.events)[e.name := e]
    ensures e.binding == old(source.binding) && e.offered == old(source.offered)
  {
    hide Owned, Held, AllValued, EventsAtHome, FieldsAtHome, Rooted;
    e := MoveEventBinding(source, s, w);
    AddEvent(s, e, w.skeletons, w.events);
    w' := w.(events := w.events + {e});
  }

  method AssignEventBinding(target: SkeletonEvent, source: SkeletonEvent, ghost w: World)
    requires Owned(w.events, w.bindings) && Held(w.fields, w.events) && AllValued(w.fields, w.events, w.bindings)
    requires target in w.events && source in w.events && target != source
    requires target.holder == source.holder == null && target.name in target.skeleton.events
    modifies target`binding, target`offered, source`binding, source`offered,
             w.bindings`offered, w.bindings`owner, target.skeleton`events
    ensures Owned(w.events, w.bindings) && Held(w.fields, w.events) && AllValued(w.fields, w.events, w.bindings)
    ensures target.skeleton.events == old(target.skeleton.events)[target.name := target]
    ensures Load(target) == old(Load(source)) && source.binding == null
  {
    target.MoveAssign(source);
    assert Owned(w.events, w.bindings);
    hide Owned;
  }

  method AssignEvent(target: SkeletonEvent, source: SkeletonEvent, ghost w: World)
    requires Sound(w) && target in w.events && source in w.events && target != source
    requires target.holder == source.holder == null && target.name in target.skeleton.events
    requires IsMember(target, w.skeletons)
    modifies target`binding, target`offered, source`binding, source`offered,
             w.bindings`offered, w.bindings`owner, target.skeleton`events
    ensures Sound(w)
    ensures target.skeleton.events == old(target.skeleton.events)[target.name := target]
    ensures Load(target) == old(Load(source)) && source.binding == null
  {
    hide FieldsAtHome, Rooted, Owned, Held, AllValued;
    AssignEventBinding(target, source, w);
  }

  method DestroyEvent(e: SkeletonEvent, ghost w: World)
    requires Sound(w) && e in w.events && e.holder == null
    modifies e`binding, e`offered, w.bindings`offered, w.bindings`owner
    ensures Sound(w) && e.binding == null
  {
    hide FieldsAtHome, Rooted;
    e.Destroy();
  }

  method OfferField(f: SkeletonField, answer: Answer, valueAnswer: Answer, ghost w: World) returns (result: Answer)
    requires Sound(w) && f in w.fields && f.event != null && f.event.binding != null
    modifies f`initial, f`prepared, f.event`offered, w.bindings`offered, w.bindings`values
    ensures Sound(w)
    ensures result.Ok? <==> answer.Ok? && (old(f.prepared) || (old(f.initial).Some? && valueAnswer.Ok?))
    ensures result.Ok? ==> f.prepared && f.event.offered
    ensures old(f.event.offered) ==> f.event.offered
    ensures f.prepared == (old(f.prepared) || result.Ok?)
    ensures f.prepared == old(f.prepared) ==> f.initial == old(f.initial)
    ensures result == Err(FieldValueIsNotValid) <==>
              (!old(f.prepared) && old(f.initial).None?) || answer == Err(FieldValueIsNotValid)
    ensures forall e :: e in w.events && e != f.event ==> e.offered == old(e.offered)
  {
    hide EventsAtHome, FieldsAtHome, Rooted;
    result := f.PrepareOffer(answer, valueAnswer);
  }

  method StopField(f: SkeletonField, ghost w: World)
    requires Sound(w) && f in w.fields && f.event != null
    modifies f.event`offered, w.bindings`offered
    ensures Sound(w) && !f.event.offered
  {
    StopEvent(f.event, w);
  }

  method UpdateField(f: SkeletonField, v: Value, answer: Answer, ghost w: World) returns (result: Answer)
    requires Sound(w) && f in w.fields && (f.prepared ==> f.event != null)
    modifies f`initial, f`history, w.bindings`values
    ensures Sound(w) && f.history.early == old(f.history.early)
  {
    hide EventsAtHome, FieldsAtHome, Rooted;
    result := f.Update(v, answer);
  }

  method AllocateForEvent(e: SkeletonEvent, answer: Answer, ghost w: World) returns (result: Result<Sample, ComError>)
    requires Sound(w) && e in w.events && e.holder == null
    modifies w.bindings`lent
    ensures Sound(w) && (result.Ok? <==> e.offered && answer.Ok?)
    ensures result.Ok? ==> result.value.origin == e.binding && result.value.origin.lent
    ensures forall b :: b in w.bindings && old(b.lent) ==> b.lent
  {
    hide EventsAtHome, FieldsAtHome, Rooted;
    result := e.Allocate(answer);
  }

  method SendEventSample(e: SkeletonEvent, v: Value, answer: Answer, ghost w: World) returns (result: Answer)
    requires Sound(w) && e in w.events && e.holder == null && e.binding != null
    modifies w.bindings`values
    ensures Sound(w)
  {
    hide EventsAtHome, FieldsAtHome, Rooted;
    result := e.SendSample(v, answer);
  }

  method AllocateForField(f: SkeletonField, answer: Answer, ghost w: World) returns (result: Result<Sample, ComError>)
    requires Sound(w) && f in w.fields && f.event != null
    modifies w.bindings`lent
    ensures Sound(w) && (result.Ok? <==> f.prepared && f.event.offered && answer.Ok?)
    ensures result.Ok? ==> result.value.origin == f.event.binding && result.value.origin.lent
    ensures forall b :: b in w.bindings && old(b.lent) ==> b.lent
  {
    hide EventsAtHome, FieldsAtHome, Rooted;
    result := f.Allocate(answer);
  }

  method UpdateFieldSample(f: SkeletonField, sample: Sample, v: Value, answer: Answer, ghost w: World)
      returns (result: Answer)
    requires Sound(w) && f in w.fields && f.event != null && f.event.binding != null && sample.origin.lent
    modifies f`history, w.bindings`values
    ensures Sound(w)
    ensures sample.origin == f.event.binding ==> f.history == old(f.history)
  {
    hide EventsAtHome, FieldsAtHome, Rooted;
    result := f.UpdateSample(sample, v, answer);
  }

  method MoveFieldValue(source: SkeletonField, ghost home: Skeleton, ghost w: World) returns (f: SkeletonField)
    requires Owned(w.events, w.bindings) && Held(w.fields, w.events) && AllValued(w.fields, w.events, w.bindings)
    requires EventsAtHome(w.skeletons, w.events)
    requires source in w.fields && source.name in source.skeleton.fields
    modifies source`event, source`initial, EventAt(source.event)`holder, source.skeleton`fields
    ensures fresh(f) && Held(w.fields + {f}, w.events) && AllValued(w.fields + {f}, w.events, w.bindings)
    ensures EventsAtHome(w.skeletons, w.events)
    ensures f.name == source.name && f.skeleton == source.skeleton && f.home == home
    ensures FieldLoad(f) == old(FieldLoad(source))
    ensures f.skeleton.fields == old(source.skeleton.fields)[f.name := f]
  {
    f := new SkeletonField.Move(source, home);
    assert Held(w.fields + {f}, w.events);
    assert AllValued(w.fields + {f}, w.events, w.bindings);
    assert EventsAtHome(w.skeletons, w.events);
    hide Held, Owned, AllValued, EventsAtHome;
  }

  method AddField(s: Skeleton, f: SkeletonField, ghost skeletons: set<Skeleton>, ghost fields: set<SkeletonField>)
    requires FieldsAtHome(skeletons, fields) && s in skeletons && f !in fields
    requires f.home == s && f.name !in s.ownFields
    modifies s`ownFields
    ensures FieldsAtHome(skeletons, fields + {f}) && s.ownFields == old(s.ownFields)[f.name := f]
  {
    s.ownFields := s.ownFields[f.name := f];
  }

  method MoveField(s: Skeleton, source: SkeletonField, ghost w: World) returns (f: SkeletonField, ghost w': World)
    requires Sound(w) && s in w.skeletons && source in w.fields
    requires source.name in source.skeleton.fields && source.name !in s.ownFields
    modifies source`event, source`initial, EventAt(source.event)`holder, source.skeleton`fields, s`ownFields
    ensures fresh(f) && w' == w.(fields := w.fields + {f}) && Sound(w')
    ensures f.name == source.name && f.skeleton == source.skeleton && FieldLoad(f) == old(FieldLoad(source))
    ensures s.ownFields == old(s.ownFields)[f.name := f]
    ensures f.skeleton.fields == old(source.skeleton.fields)[f.name := f]
  {
    hide Owned, Held, AllValued, EventsAtHome, FieldsAtHome, Rooted;
    f := MoveFieldValue(source, s, w);
    AddField(s, f, w.skeletons, w.fields);
    w' := w.(fields := w.fields + {f});
  }

  /** Events that belong to no field are left alone, and one that no field owns
      any more has lost its binding. */
  twostate predicate Undisturbed(events: set<SkeletonEvent>)
    reads events`holder, events`binding, events`offered
  {
    forall e :: e in events ==>
      && (old(e.holder) == null ==> e.holder == null && e.binding == old(e.binding) && e.offered == old(e.offered))
      && (old(e.holder) != null && e.holder == null ==> e.binding == null)
  }

  /** Where a field's event goes its value goes too. */
  twostate predicate ValuesWent(target: SkeletonField, source: SkeletonField, fields: set<SkeletonField>,
                                events: set<SkeletonEvent>, bindings: set<EventBinding>)
    requires old(AllValued(fields, events, bindings)) && source in fields
    requires forall f :: f in fields && f != target && f != source ==>
               && f.event == old(f.event) && f.prepared == old(f.prepared)
               && f.initial == old(f.initial) && f.history == old(f.history)
    requires source.event == null && target.event == old(source.event) && target.prepared == old(source.prepared)
    requires target.initial == old(source.initial) && target.history == old(source.history)
    requires forall e :: e in events ==> e.binding == old(e.binding) || e.binding == null
    requires forall b :: b in bindings ==> b.values == old(b.values) && b.lent == old(b.lent)
    reads fields, target, source, events, bindings
    ensures AllValued(fields, events, bindings)
  {
    true
  }

  method AssignFieldValue(target: SkeletonField, source: SkeletonField, ghost w: World)
    requires Owned(w.events, w.bindings) && Held(w.fields, w.events) && AllValued(w.fields, w.events, w.bindings)
    requires target in w.fields && source in w.fields && target != source
    requires source.name == target.name && source.name in source.skeleton.fields
    modifies target`event, target`prepared, target`skeleton, target`name, target`initial, target`history,
             source`event, source`initial, EventAt(source.event)`holder,
             EventAt(target.event)`holder, EventAt(target.event)`binding, EventAt(target.event)`offered,
             w.bindings`offered, w.bindings`owner, source.skeleton`fields
    ensures Owned(w.events, w.bindings) && Held(w.fields, w.events) && AllValued(w.fields, w.events, w.bindings)
    ensures old(target.event) != null ==> old(target.event).binding == null
    ensures target.event != null ==> target.event.holder == target
    ensures target.skeleton == source.skeleton && target.name == old(target.name)
    ensures FieldLoad(target) == old(FieldLoad(source)) && source.event == null
    ensures source.skeleton.fields == old(source.skeleton.fields)[target.name := target]
  {
    assert source.Valued();
    hide AllValued;
    target.MoveAssign(source);
    assert ValuesWent(target, source, w.fields, w.events, w.bindings);
    assert Owned(w.events, w.bindings);
    assert Held(w.fields, w.events) by { hide Owned; }
    hide Owned, Held;
  }

  method AssignFieldAlone(target: SkeletonField, source: SkeletonField, ghost w: World)
    requires Owned(w.events, w.bindings) && Held(w.fields, w.events) && AllValued(w.fields, w.events, w.bindings)
    requires target in w.fields && source in w.fields && target != source
    requires source.name == target.name && source.name in source.skeleton.fields
    modifies target`event, target`prepared, target`skeleton, target`name, target`initial, target`history,
             source`event, source`initial, EventAt(source.event)`holder,
             EventAt(target.event)`holder, EventAt(target.event)`binding, EventAt(target.event)`offered,
             w.bindings`offered, w.bindings`owner, source.skeleton`fields
    ensures Owned(w.events, w.bindings) && Held(w.fields, w.events) && AllValued(w.fields, w.events, w.bindings)
    ensures Undisturbed(w.events)
    ensures target.skeleton == source.skeleton && target.name == old(target.name)
    ensures FieldLoad(target) == old(FieldLoad(source)) && source.event == null
    ensures source.skeleton.fields == old(source.skeleton.fields)[target.name := target]
  {
    hide Owned, Held, AllValued;
    HeldBy(target, w);
    HeldBy(source, w);
    AssignFieldValue(target, source, w);
  }

  method AssignField(target: SkeletonField, source: SkeletonField, ghost w: World)
    requires Sound(w) && target in w.fields && source in w.fields && target != source
    requires source.name == target.name && source.name in source.skeleton.fields
    modifies target`event, target`prepared, target`skeleton, target`name, target`initial, target`history,
             source`event, source`initial, EventAt(source.event)`holder,
             EventAt(target.event)`holder, EventAt(target.event)`binding, EventAt(target.event)`offered,
             w.bindings`offered, w.bindings`owner, source.skeleton`fields
    ensures Sound(w) && Undisturbed(w.events)
    ensures target.skeleton == source.skeleton && target.name == old(target.name)
    ensures FieldLoad(target) == old(FieldLoad(source)) && source.event == null
    ensures source.skeleton.fields == old(source.skeleton.fields)[target.name := target]
  {
    hide Owned, Held, AllValued, Rooted;
    AssignFieldAlone(target, source, w);
    assert FieldsAtHome(w.skeletons, w.fields);
    hide FieldsAtHome;
  }

  lemma HeldBy(f: SkeletonField, w: World)
    requires Held(w.fields, w.events) && f in w.fields
    ensures f.event != null ==> f.event.holder == f
  {
  }

  method DestroyField(f: SkeletonField, ghost w: World)
    requires Sound(w) && f in w.fields
    modifies f`event, EventAt(f.event)`holder, EventAt(f.event)`binding, EventAt(f.event)`offered,
             w.bindings`offered, w.bindings`owner
    ensures Sound(w) && f.event == null && Undisturbed(w.events)
  {
    hide Rooted, FieldsAtHome;
    f.Destroy();
    assert Owned(w.events, w.bindings);
    assert Held(w.fields, w.events);
    assert AllValued(w.fields, w.events, w.bindings);
    assert EventsAtHome(w.skeletons, w.events);
  }

  /** The two-way links: the maps name exactly the skeleton's own elements and
      each of them refers back to it. */
  ghost predicate Linked(s: Skeleton)
    reads s`events, s`fields, s`ownEvents, s`ownFields, s.ownEvents.Values`skeleton, s.ownFields.Values`skeleton
  {
    && s.events == s.ownEvents && s.fields == s.ownFields
    && (forall n :: n in s.ownEvents ==> s.ownEvents[n].skeleton == s)
    && (forall n :: n in s.ownFields ==> s.ownFields[n].skeleton == s)
  }

  lemma Members(w: World, s: Skeleton, n: Name)
    requires Sound(w) && s in w.skeletons && n in s.ownEvents
    ensures s.ownEvents[n] in w.events && s.ownEvents[n].holder == null && s.ownEvents[n].name == n
    ensures s.ownEvents[n].home == s && IsMember(s.ownEvents[n], w.skeletons)
  {
  }

  /** Unless memory was sent to it early, the first value a binding accepted for a
      prepared field is the last one saved before. */
  lemma FirstValueIsTheSaved(w: World, f: SkeletonField)
    requires Sound(w) && f in w.fields && f.prepared && f.event != null && f.event.binding != null
    requires f.history.early == 0
    ensures f.history.saved.Some? && f.event.binding.values != []
    ensures f.event.binding.values[0] == f.history.saved.value
  {
  }

  lemma FieldMembers(w: World, s: Skeleton, n: Name)
    requires Sound(w) && s in w.skeletons && n in s.ownFields
    ensures s.ownFields[n] in w.fields && s.ownFields[n].name == n && s.ownFields[n].home == s
    ensures s.ownFields[n].event != null ==> s.ownFields[n].event in w.events
  {
  }
}
