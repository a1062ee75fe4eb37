/** Moving whole skeletons: the base first, then each event and each field of the
    derived class.

    An event or field that moves tells the skeleton it refers to its new address.
    That need not be the skeleton it is a member of: the elements of a skeleton
    that was moved from refer to the one that took over.  So every move is
    described by whom the elements refer to (`refs`) and by what the maps of all
    skeletons name before the elements follow their base (`maps`). */
module SkeletonMoves {

  import opened Wrappers
  import opened Skeletons

  type EventMaps = map<Skeleton, map<Name, SkeletonEvent>>

  type FieldMaps = map<Skeleton, map<Name, SkeletonField>>

  type Refs = map<Name, Skeleton>

  type Names = map<Skeleton, (set<Name>, set<Name>)>

  // ----- events

  ghost function EventMapsOf(skeletons: set<Skeleton>): (maps: EventMaps)
    reads skeletons`events
    ensures maps.Keys == skeletons
  {
    map t | t in skeletons :: t.events
  }

  ghost function RefsOf(m: map<Name, SkeletonEvent>): (refs: Refs)
    reads m.Values`skeleton
    ensures refs.Keys == m.Keys
  {
    map n | n in m :: m[n].skeleton
  }

  ghost function CargoOf(m: map<Name, SkeletonEvent>): (cargo: map<Name, Cargo>)
    reads m.Values`binding, m.Values`offered
    ensures cargo.Keys == m.Keys
  {
    map n | n in m :: Load(m[n])
  }

  /** The events of `names` have their cargo. */
  ghost predicate Loaded(m: map<Name, SkeletonEvent>, names: set<Name>, cargo: map<Name, Cargo>)
    reads m.Values`binding, m.Values`offered
  {
    forall n :: n in names ==> n in m && n in cargo && m[n].name == n && Load(m[n]) == cargo[n]
  }

  /** They refer to whom they should. */
  ghost predicate Referring(m: map<Name, SkeletonEvent>, names: set<Name>, refs: Refs)
    reads m.Values`skeleton
  {
    forall n :: n in names ==> n in m && n in refs && m[n].skeleton == refs[n]
  }

  /** The maps `now` are what they were, but for the entries of `names` in the maps
      of those they refer to, which are the elements of `own`. */
  ghost predicate Replaced<E>(now: map<Skeleton, map<Name, E>>, maps: map<Skeleton, map<Name, E>>, own: map<Name, E>,
                              refs: Refs, names: set<Name>)
  {
    now.Keys == maps.Keys && forall t :: t in now ==> ReplacedIn(now[t], maps[t], own, refs, names, t)
  }

  ghost predicate ReplacedIn<E>(now: map<Name, E>, before: map<Name, E>, own: map<Name, E>, refs: Refs,
                                names: set<Name>, t: Skeleton)
  {
    && now.Keys == before.Keys
    && forall n :: n in now ==>
         now[n] == if n in names && n in own && n in refs && refs[n] == t then own[n] else before[n]
  }

  /** The one skeleton that is told names `e` under `n` now. */
  lemma OneReplaced<E>(before: map<Skeleton, map<Name, E>>, now: map<Skeleton, map<Name, E>>,
                       maps: map<Skeleton, map<Name, E>>, own: map<Name, E>, refs: Refs, names: set<Name>, n: Name,
                       e: E)
    requires Replaced(before, maps, own, refs, names) && names <= own.Keys && (n in own ==> own[n] == e)
    requires n in refs && refs[n] in before && n in before[refs[n]]
    requires now == before[refs[n] := before[refs[n]][n := e]]
    ensures Replaced(now, maps, own[n := e], refs, names + {n})
  {
    forall t | t in now ensures ReplacedIn(now[t], maps[t], own[n := e], refs, names + {n}, t) {
      assert ReplacedIn(before[t], maps[t], own, refs, names, t);
    }
  }

  /** Each of the names is known to the skeleton its element refers to. */
  ghost predicate Known<E>(maps: map<Skeleton, map<Name, E>>, refs: Refs, names: set<Name>)
  {
    forall n :: n in names ==> n in refs && refs[n] in maps && n in maps[refs[n]]
  }

  lemma NoneToKnow<E>(maps: map<Skeleton, map<Name, E>>, refs: Refs)
    ensures Known(maps, refs, refs.Keys - refs.Keys)
  {
  }

  lemma OneMoreKnown<E>(maps: map<Skeleton, map<Name, E>>, refs: Refs, todo: set<Name>, n: Name)
    requires n in todo && todo <= refs.Keys && refs[n] in maps && Known(maps, refs, refs.Keys - todo)
    ensures n in maps[refs[n]] ==> Known(maps, refs, refs.Keys - (todo - {n}))
    ensures n !in maps[refs[n]] ==> !Known(maps, refs, refs.Keys)
  {
  }

  /** Handling `n` touches no event of another name. */
  twostate predicate OthersLoaded(m: map<Name, SkeletonEvent>, names: set<Name>, cargo: map<Name, Cargo>, n: Name,
                                  touched: set<SkeletonEvent>)
    requires old(Loaded(m, names, cargo)) && forall e :: e in touched ==> e.name == n
    requires forall k :: k in m && m[k] !in touched ==> Load(m[k]) == old(Load(m[k]))
    reads m.Values`binding, m.Values`offered
    ensures Loaded(m, names - {n}, cargo)
  {
    true
  }

  /** The elements in `todo` still wait for their turn, the others are the new
      skeleton's. */
  ghost predicate Moving(s: Skeleton, other: Skeleton, todo: set<Name>, maps: EventMaps, refs: Refs,
                         cargo: map<Name, Cargo>, skeletons: set<Skeleton>)
    reads s`ownEvents, s.ownEvents.Values`skeleton, s.ownEvents.Values`binding, s.ownEvents.Values`offered,
          other`ownEvents, other.ownEvents.Values`skeleton, other.ownEvents.Values`binding,
          other.ownEvents.Values`offered, skeletons`events
  {
    && todo <= other.ownEvents.Keys && s.ownEvents.Keys == other.ownEvents.Keys - todo
    && Loaded(other.ownEvents, todo, cargo) && Referring(other.ownEvents, other.ownEvents.Keys, refs)
    && Loaded(s.ownEvents, s.ownEvents.Keys, cargo) && Referring(s.ownEvents, s.ownEvents.Keys, refs)
    && Replaced(EventMapsOf(skeletons), maps, s.ownEvents, refs, s.ownEvents.Keys)
  }

  lemma OneMoreMoved(s: Skeleton, other: Skeleton, todo: set<Name>, maps: EventMaps, refs: Refs,
                     cargo: map<Name, Cargo>, skeletons: set<Skeleton>, own: map<Name, SkeletonEvent>, n: Name,
                     e: SkeletonEvent)
    requires n in todo && todo <= other.ownEvents.Keys && own.Keys == other.ownEvents.Keys - todo
    requires s.ownEvents == own[n := e] && n in refs && n in cargo
    requires e.name == n && e.skeleton == refs[n] && Load(e) == cargo[n]
    requires Loaded(other.ownEvents, todo - {n}, cargo) && Referring(other.ownEvents, other.ownEvents.Keys, refs)
    requires Loaded(own, own.Keys, cargo) && Referring(own, own.Keys, refs)
    requires Replaced(EventMapsOf(skeletons), maps, own[n := e], refs, own.Keys + {n})
    ensures Moving(s, other, todo - {n}, maps, refs, cargo, skeletons)
  {
    hide Replaced;
    assert s.ownEvents.Keys == own.Keys + {n};
  }

  /** The next member event of the derived class. */
  method MoveNextEvent(s: Skeleton, other: Skeleton, source: SkeletonEvent, n: Name, ghost todo: set<Name>,
                       ghost maps: EventMaps,
                       ghost refs: Refs, ghost cargo: map<Name, Cargo>, ghost w: World)
      returns (e: SkeletonEvent, ghost w': World)
    requires Sound(w) && s in w.skeletons && other in w.skeletons && s != other && n in todo
    requires Moving(s, other, todo, maps, refs, cargo, w.skeletons)
    requires n in refs && refs[n] in w.skeletons && n in refs[n].events
    requires n in other.ownEvents && other.ownEvents[n] == source
    modifies w.skeletons`events, s`ownEvents, source`binding, source`offered, w.bindings`owner
    ensures Sound(w') && w' == w.(events := w.events + {e}) && fresh(e)
    ensures Moving(s, other, todo - {n}, maps, refs, cargo, w.skeletons)
  {
    hide Sound, Loaded, Replaced;
    Members(w, other, n);
    ItsCargo(other.ownEvents, todo, cargo, n);
    ghost var own, before := s.ownEvents, EventMapsOf(w.skeletons);
    e, w' := MoveEvent(s, source, w);
    assert OthersLoaded(other.ownEvents, todo, cargo, n, {source});
    assert OthersLoaded(own, own.Keys, cargo, n, {source});
    assert own.Keys - {n} == own.Keys;
    OneReplaced(before, EventMapsOf(w.skeletons), maps, own, refs, own.Keys, n, e);
    OneMoreMoved(s, other, todo, maps, refs, cargo, w.skeletons, own, n, e);
  }

  lemma ItsCargo(m: map<Name, SkeletonEvent>, names: set<Name>, cargo: map<Name, Cargo>, n: Name)
    requires Loaded(m, names, cargo) && n in names
    ensures n in m && n in cargo && m[n].name == n && Load(m[n]) == cargo[n]
  {
  }

  lemma StartMoving(s: Skeleton, other: Skeleton, w: World)
    requires Sound(w) && other in w.skeletons && s.ownEvents == map[]
    ensures Moving(s, other, other.ownEvents.Keys, EventMapsOf(w.skeletons), RefsOf(other.ownEvents),
                   CargoOf(other.ownEvents), w.skeletons)
  {
    forall n | n in other.ownEvents ensures other.ownEvents[n].name == n { Members(w, other, n); }
  }

  /** What the map of the skeleton concerned knows has not changed. */
  lemma KnownNow(s: Skeleton, other: Skeleton, todo: set<Name>, maps: EventMaps, refs: Refs, cargo: map<Name, Cargo>,
                 skeletons: set<Skeleton>, n: Name)
    requires Moving(s, other, todo, maps, refs, cargo, skeletons) && n in todo
    requires n in refs && refs[n] in skeletons
    ensures n in other.ownEvents && other.ownEvents[n].skeleton == refs[n]
    ensures refs[n] in maps && (n in refs[n].events <==> n in maps[refs[n]])
  {
  }

  /** One turn: it terminates exactly if the name is not known. */
  method MoveOneEvent(s: Skeleton, other: Skeleton, n: Name, ghost todo: set<Name>, ghost maps: EventMaps,
                      ghost refs: Refs, ghost cargo: map<Name, Cargo>, ghost w: World, ghost added: set<SkeletonEvent>)
      returns (terminated: bool, ghost added': set<SkeletonEvent>)
    requires Sound(w.(events := w.events + added)) && s in w.skeletons && other in w.skeletons && s != other
    requires n in todo && n in refs && refs[n] in w.skeletons && todo <= other.ownEvents.Keys
    requires Moving(s, other, todo, maps, refs, cargo, w.skeletons) && other.ownEvents[n] in w.events
    modifies w.skeletons`events, s`ownEvents, EventsOf(other, w)`binding, EventsOf(other, w)`offered, w.bindings`owner
    ensures fresh(added' - added) && Sound(w.(events := w.events + added')) && refs[n] in maps
    ensures terminated <==> n !in maps[refs[n]]
    ensures !terminated ==> Moving(s, other, todo - {n}, maps, refs, cargo, w.skeletons)
  {
    hide Sound, Moving;
    KnownNow(s, other, todo, maps, refs, cargo, w.skeletons, n);
    added' := added;
    ghost var w' := w.(events := w.events + added);
    Members(w', other, n);
    terminated := n !in other.ownEvents[n].skeleton.events;
    if !terminated {
      var e;
      e, w' := MoveNextEvent(s, other, other.ownEvents[n], n, todo, maps, refs, cargo, w');
      added' := added + {e};
      assert w'.events == w.events + added';
    }
  }

  /** The member events, after the base was moved: exactly if some name is not
      known where the event's reference leads, this terminates; otherwise every
      event has its cargo and its reference, and whoever an event refers to has it
      in its map. */
  method MoveEvents(s: Skeleton, other: Skeleton, ghost maps: EventMaps, ghost refs: Refs, ghost cargo: map<Name,
                    Cargo>,
                    ghost w: World)
      returns (terminated: bool, ghost added: set<SkeletonEvent>)
    requires Sound(w) && s in w.skeletons && other in w.skeletons && s != other && s.ownEvents == map[]
    requires maps == EventMapsOf(w.skeletons) && refs == RefsOf(other.ownEvents) && cargo == CargoOf(other.ownEvents)
    requires forall n :: n in refs ==> refs[n] in w.skeletons
    modifies w.skeletons`events, s`ownEvents, EventsOf(other, w)`binding, EventsOf(other, w)`offered, w.bindings`owner
    ensures fresh(added) && Sound(w.(events := w.events + added))
    ensures terminated <==> !Known(maps, refs, refs.Keys)
    ensures !terminated ==> Moving(s, other, {}, maps, refs, cargo, w.skeletons)
  {
    hide Sound, Moving, EventMapsOf, RefsOf, CargoOf, Known, EventsOf;
    NoneToKnow(maps, refs);
    StartMoving(s, other, w);
    forall n | n in other.ownEvents ensures other.ownEvents[n] in w.events { Members(w, other, n); }
    terminated, added := false, {};
    var todo := other.ownEvents.Keys;
    assert w.(events := w.events + added) == w;
    while todo != {} && !terminated
      invariant todo <= refs.Keys && fresh(added) && Sound(w.(events := w.events + added))
      invariant !terminated ==> Moving(s, other, todo, maps, refs, cargo, w.skeletons)
      invariant if terminated then !Known(maps, refs, refs.Keys) else Known(maps, refs, refs.Keys - todo)
      decreases !terminated, todo
    {
      var n :| n in todo;
      OneMoreKnown(maps, refs, todo, n);
      terminated, added := MoveOneEvent(s, other, n, todo, maps, refs, cargo, w, added);
      todo := if terminated then todo else todo - {n};
    }
    assert refs.Keys - {} == refs.Keys;
  }

  /** The elements in `todo` still wait for their turn, the others got what their
      counterparts had. */
  ghost predicate Assigning(s: Skeleton, other: Skeleton, todo: set<Name>, maps: EventMaps, refs: Refs,
                            cargo: map<Name, Cargo>, skeletons: set<Skeleton>)
    reads s`ownEvents, s.ownEvents.Values`skeleton, s.ownEvents.Values`binding, s.ownEvents.Values`offered,
          other`ownEvents, other.ownEvents.Values`skeleton, other.ownEvents.Values`binding,
          other.ownEvents.Values`offered, skeletons`events
  {
    && todo <= s.ownEvents.Keys == other.ownEvents.Keys
    && Loaded(other.ownEvents, todo, cargo) && Loaded(s.ownEvents, s.ownEvents.Keys - todo, cargo)
    && Referring(s.ownEvents, s.ownEvents.Keys, refs)
    && Replaced(EventMapsOf(skeletons), maps, s.ownEvents, refs, s.ownEvents.Keys - todo)
  }

  lemma StartAssigning(s: Skeleton, other: Skeleton, w: World)
    requires Sound(w) && other in w.skeletons && s.ownEvents.Keys == other.ownEvents.Keys
    ensures Assigning(s, other, other.ownEvents.Keys, EventMapsOf(w.skeletons), RefsOf(s.ownEvents),
                      CargoOf(other.ownEvents), w.skeletons)
  {
    forall n | n in other.ownEvents ensures other.ownEvents[n].name == n { Members(w, other, n); }
  }

  lemma KnownToAssign(s: Skeleton, other: Skeleton, todo: set<Name>, maps: EventMaps, refs: Refs,
                      cargo: map<Name, Cargo>, skeletons: set<Skeleton>, n: Name)
    requires Assigning(s, other, todo, maps, refs, cargo, skeletons) && n in todo
    requires n in refs && refs[n] in skeletons
    ensures n in s.ownEvents && n in other.ownEvents && s.ownEvents[n].skeleton == refs[n]
    ensures refs[n] in maps && (n in refs[n].events <==> n in maps[refs[n]])
  {
  }

  lemma OneMoreAssigned(s: Skeleton, other: Skeleton, todo: set<Name>, maps: EventMaps, refs: Refs,
                        cargo: map<Name, Cargo>, skeletons: set<Skeleton>, n: Name)
    requires n in todo && todo <= s.ownEvents.Keys == other.ownEvents.Keys && n in cargo
    requires s.ownEvents[n].name == n && Load(s.ownEvents[n]) == cargo[n]
    requires Loaded(other.ownEvents, todo - {n}, cargo) && Loaded(s.ownEvents, s.ownEvents.Keys - todo, cargo)
    requires Referring(s.ownEvents, s.ownEvents.Keys, refs)
    requires Replaced(EventMapsOf(skeletons), maps, s.ownEvents, refs, s.ownEvents.Keys - todo + {n})
    ensures Assigning(s, other, todo - {n}, maps, refs, cargo, skeletons)
  {
    hide Replaced;
    assert s.ownEvents.Keys - (todo - {n}) == s.ownEvents.Keys - todo + {n};
  }

  method AssignNextEvent(s: Skeleton, other: Skeleton, target: SkeletonEvent, source: SkeletonEvent, n: Name,
                         ghost todo: set<Name>, ghost maps: EventMaps, ghost refs: Refs, ghost cargo: map<Name, Cargo>,
                         ghost w: World)
    requires Sound(w) && s in w.skeletons && other in w.skeletons && s != other && n in todo
    requires Assigning(s, other, todo, maps, refs, cargo, w.skeletons)
    requires n in refs && refs[n] in w.skeletons && n in refs[n].events
    requires n in other.ownEvents && other.ownEvents[n] == source && n in s.ownEvents && s.ownEvents[n] == target
    modifies w.skeletons`events, target`binding, target`offered, source`binding, source`offered,
             w.bindings`offered, w.bindings`owner
    ensures Sound(w) && Assigning(s, other, todo - {n}, maps, refs, cargo, w.skeletons)
  {
    hide Sound, Loaded, Replaced;
    Members(w, s, n);
    Members(w, other, n);
    ItsCargo(other.ownEvents, todo, cargo, n);
    ghost var done, before := s.ownEvents.Keys - todo, EventMapsOf(w.skeletons);
    AssignEvent(target, source, w);
    assert OthersLoaded(other.ownEvents, todo, cargo, n, {target, source});
    assert OthersLoaded(s.ownEvents, done, cargo, n, {target, source});
    assert done - {n} == done;
    OneReplaced(before, EventMapsOf(w.skeletons), maps, s.ownEvents, refs, done, n, target);
    assert s.ownEvents[n := target] == s.ownEvents;
    OneMoreAssigned(s, other, todo, maps, refs, cargo, w.skeletons, n);
  }

  method AssignOneEvent(s: Skeleton, other: Skeleton, n: Name, ghost todo: set<Name>, ghost maps: EventMaps,
                        ghost refs: Refs, ghost cargo: map<Name, Cargo>, ghost w: World) returns (terminated: bool)
    requires Sound(w) && s in w.skeletons && other in w.skeletons && s != other
    requires n in todo && n in refs && refs[n] in w.skeletons && todo <= s.ownEvents.Keys == other.ownEvents.Keys
    requires Assigning(s, other, todo, maps, refs, cargo, w.skeletons)
    modifies w.skeletons`events, EventsOf(s, w)`binding, EventsOf(s, w)`offered,
             EventsOf(other, w)`binding, EventsOf(other, w)`offered, w.bindings`offered, w.bindings`owner
    ensures Sound(w) && refs[n] in maps
    ensures terminated <==> n !in maps[refs[n]]
    ensures !terminated ==> Assigning(s, other, todo - {n}, maps, refs, cargo, w.skeletons)
  {
    hide Sound, Assigning;
    KnownToAssign(s, other, todo, maps, refs, cargo, w.skeletons, n);
    Members(w, s, n);
    Members(w, other, n);
    terminated := n !in s.ownEvents[n].skeleton.events;
    if !terminated {
      AssignNextEvent(s, other, s.ownEvents[n], other.ownEvents[n], n, todo, maps, refs, cargo, w);
    }
  }

  /** The member events of the derived class are assigned to, after the base: each
      gets what its counterpart had and keeps its own reference. */
  method AssignEvents(s: Skeleton, other: Skeleton, ghost maps: EventMaps, ghost refs: Refs, ghost cargo: map<Name,
                      Cargo>,
                      ghost w: World) returns (terminated: bool)
    requires Sound(w) && s in w.skeletons && other in w.skeletons && s != other
    requires s.ownEvents.Keys == other.ownEvents.Keys
    requires maps == EventMapsOf(w.skeletons) && refs == RefsOf(s.ownEvents) && cargo == CargoOf(other.ownEvents)
    requires forall n :: n in refs ==> refs[n] in w.skeletons
    modifies w.skeletons`events, EventsOf(s, w)`binding, EventsOf(s, w)`offered,
             EventsOf(other, w)`binding, EventsOf(other, w)`offered, w.bindings`offered, w.bindings`owner
    ensures Sound(w)
    ensures terminated <==> !Known(maps, refs, refs.Keys)
    ensures !terminated ==> Assigning(s, other, {}, maps, refs, cargo, w.skeletons)
  {
    hide Sound, Assigning, EventMapsOf, RefsOf, CargoOf, Known, EventsOf;
    NoneToKnow(maps, refs);
    StartAssigning(s, other, w);
    terminated := false;
    var todo := s.ownEvents.Keys;
    while todo != {} && !terminated
      invariant todo <= refs.Keys && Sound(w)
      invariant !terminated ==> Assigning(s, other, todo, maps, refs, cargo, w.skeletons)
      invariant if terminated then !Known(maps, refs, refs.Keys) else Known(maps, refs, refs.Keys - todo)
      decreases !terminated, todo
    {
      var n :| n in todo;
      OneMoreKnown(maps, refs, todo, n);
      terminated := AssignOneEvent(s, other, n, todo, maps, refs, cargo, w);
      todo := if terminated then todo else todo - {n};
    }
    assert refs.Keys - {} == refs.Keys;
  }

  // ----- the same for fields

  ghost function FieldMapsOf(skeletons: set<Skeleton>): (maps: FieldMaps)
    reads skeletons`fields
    ensures maps.Keys == skeletons
  {
    map t | t in skeletons :: t.fields
  }

  ghost function FieldRefsOf(m: map<Name, SkeletonField>): (refs: Refs)
    reads m.Values`skeleton
    ensures refs.Keys == m.Keys
  {
    map n | n in m :: m[n].skeleton
  }

  ghost function FieldCargoOf(m: map<Name, SkeletonField>): (cargo: map<Name, FieldCargo>)
    reads m.Values`event, m.Values`prepared, m.Values`initial, m.Values`history
    ensures cargo.Keys == m.Keys
  {
    map n | n in m :: FieldLoad(m[n])
  }

  /** What matters of one field. */
  datatype FieldEntry = FieldEntry(name: Name, cargo: FieldCargo, skeleton: Skeleton)

  ghost function EntriesOf(m: map<Name, SkeletonField>): (entries: map<Name, FieldEntry>)
    reads m.Values`name, m.Values`event, m.Values`prepared, m.Values`initial, m.Values`history,
          m.Values`skeleton
    ensures entries.Keys == m.Keys
  {
    map n | n in m :: FieldEntry(m[n].name, FieldLoad(m[n]), m[n].skeleton)
  }

  lemma EntryAt(m: map<Name, SkeletonField>, n: Name)
    requires n in m
    ensures EntriesOf(m)[n] == FieldEntry(m[n].name, FieldLoad(m[n]), m[n].skeleton)
  {
  }

  lemma FieldMapAt(skeletons: set<Skeleton>, t: Skeleton)
    requires t in skeletons
    ensures FieldMapsOf(skeletons)[t] == t.fields
  {
  }

  ghost predicate FieldsLoaded(entries: map<Name, FieldEntry>, names: set<Name>, cargo: map<Name, FieldCargo>)
  {
    forall n :: n in names ==>
      n in entries && n in cargo && entries[n].name == n && entries[n].cargo == cargo[n]
  }

  ghost predicate FieldsReferring(entries: map<Name, FieldEntry>, names: set<Name>, refs: Refs)
  {
    forall n :: n in names ==> n in entries && n in refs && entries[n].skeleton == refs[n]
  }

  /** The elements of `theirs` in `todo` still wait for their turn, the others are
      among `own`, which are `mine`. */
  ghost predicate FieldsMoving(own: map<Name, SkeletonField>, mine: map<Name, FieldEntry>,
                               theirs: map<Name, FieldEntry>, now: FieldMaps, todo: set<Name>, maps: FieldMaps,
                               refs: Refs, cargo: map<Name, FieldCargo>)
  {
    && todo <= theirs.Keys && own.Keys == mine.Keys == theirs.Keys - todo
    && FieldsLoaded(theirs, todo, cargo) && FieldsReferring(theirs, theirs.Keys, refs)
    && FieldsLoaded(mine, mine.Keys, cargo) && FieldsReferring(mine, mine.Keys, refs)
    && Replaced(now, maps, own, refs, mine.Keys)
  }

  ghost predicate FieldsUnderWay(s: Skeleton, other: Skeleton, todo: set<Name>, maps: FieldMaps, refs: Refs,
                                 cargo: map<Name, FieldCargo>, skeletons: set<Skeleton>)
    reads *
  {
    FieldsMoving(s.ownFields, EntriesOf(s.ownFields), EntriesOf(other.ownFields), FieldMapsOf(skeletons), todo, maps,
                 refs, cargo)
  }

  lemma StartMovingFields(s: Skeleton, other: Skeleton, w: World)
    requires Sound(w) && other in w.skeletons && s.ownFields == map[]
    ensures FieldsUnderWay(s, other, other.ownFields.Keys, FieldMapsOf(w.skeletons), FieldRefsOf(other.ownFields),
                           FieldCargoOf(other.ownFields), w.skeletons)
  {
    forall n | n in other.ownFields ensures other.ownFields[n].name == n { FieldMembers(w, other, n); }
    assert EntriesOf(s.ownFields) == map[];
  }

  /** What is left after the turn of `n`, and what has been done with it. */
  lemma LoadedLater(entries: map<Name, FieldEntry>, entries': map<Name, FieldEntry>, names: set<Name>,
                    cargo: map<Name, FieldCargo>, n: Name)
    requires FieldsLoaded(entries, names, cargo) && names <= entries.Keys <= entries'.Keys
    requires forall k :: k in entries && k != n ==> entries'[k] == entries[k]
    ensures FieldsLoaded(entries', names - {n}, cargo)
    ensures n in entries' && n in cargo && entries'[n].name == n && entries'[n].cargo == cargo[n] ==>
              FieldsLoaded(entries', names + {n}, cargo)
  {
  }

  lemma ReferringLater(entries: map<Name, FieldEntry>, entries': map<Name, FieldEntry>, names: set<Name>, refs: Refs,
                       n: Name)
    requires FieldsReferring(entries, names, refs) && names <= entries.Keys <= entries'.Keys
    requires forall k :: k in entries && k != n ==> entries'[k] == entries[k]
    ensures n in entries' && n in refs && entries'[n].skeleton == refs[n] ==>
              FieldsReferring(entries', names + {n}, refs)
  {
  }

  lemma InTurn(entries: map<Name, FieldEntry>, todo: set<Name>, refs: Refs, cargo: map<Name, FieldCargo>, n: Name)
    requires FieldsLoaded(entries, todo, cargo) && FieldsReferring(entries, entries.Keys, refs)
    requires n in todo
    ensures n in entries && n in cargo && n in refs
    ensures entries[n].name == n && entries[n].cargo == cargo[n] && entries[n].skeleton == refs[n]
  {
  }

  lemma OneMoreFieldMoved(own: map<Name, SkeletonField>, mine: map<Name, FieldEntry>, theirs: map<Name, FieldEntry>,
                          now: FieldMaps, theirs': map<Name, FieldEntry>, now': FieldMaps, todo: set<Name>,
                          maps: FieldMaps, refs: Refs, cargo: map<Name, FieldCargo>, n: Name, f: SkeletonField)
    requires FieldsMoving(own, mine, theirs, now, todo, maps, refs, cargo) && n in todo
    requires theirs'.Keys == theirs.Keys && theirs'[n].skeleton == theirs[n].skeleton
    requires forall k :: k in theirs && k != n ==> theirs'[k] == theirs[k]
    requires refs[n] in now && n in now[refs[n]] && now' == now[refs[n] := now[refs[n]][n := f]]
    ensures FieldsMoving(own[n := f], mine[n := FieldEntry(n, theirs[n].cargo, theirs[n].skeleton)], theirs', now',
                         todo - {n}, maps, refs, cargo)
  {
    hide Replaced, FieldsLoaded, FieldsReferring;
    ghost var mine' := mine[n := FieldEntry(n, theirs[n].cargo, theirs[n].skeleton)];
    InTurn(theirs, todo, refs, cargo, n);
    LoadedLater(theirs, theirs', todo, cargo, n);
    ReferringLater(theirs, theirs', theirs.Keys, refs, n);
    LoadedLater(mine, mine', mine.Keys, cargo, n);
    ReferringLater(mine, mine', mine.Keys, refs, n);
    OneReplaced(now, now', maps, own, refs, mine.Keys, n, f);
    assert theirs.Keys + {n} == theirs.Keys;
    assert own[n := f].Keys == mine'.Keys == mine.Keys + {n} == theirs.Keys - (todo - {n});
  }

  /** Of all the members of both only the two of this name are meant. */
  lemma OnlyTheseFields(w: World, s: Skeleton, other: Skeleton, n: Name)
    requires Sound(w) && s in w.skeletons && other in w.skeletons && s != other && n in other.ownFields
    ensures forall k :: k in other.ownFields && k != n ==> other.ownFields[k] != other.ownFields[n]
    ensures forall k :: k in s.ownFields ==> s.ownFields[k] != other.ownFields[n]
    ensures n in s.ownFields ==>
              && (forall k :: k in other.ownFields ==> other.ownFields[k] != s.ownFields[n])
              && (forall k :: k in s.ownFields && k != n ==> s.ownFields[k] != s.ownFields[n])
  {
  }

  /** One skeleton has learnt that its field `n` is `f`. */
  twostate predicate FieldTold(skeletons: set<Skeleton>, u: Skeleton, n: Name, new f: SkeletonField)
    requires u in skeletons && u.fields == old(u.fields)[n := f]
    requires forall t :: t in skeletons && t != u ==> t.fields == old(t.fields)
    reads skeletons`fields
    ensures FieldMapsOf(skeletons) == old(FieldMapsOf(skeletons))[u := old(u.fields)[n := f]]
  {
    true
  }

  /** Nothing but the entry of `n` changed. */
  twostate predicate OtherEntriesKept(m: map<Name, SkeletonField>, n: Name)
    requires forall k :: k in m && k != n ==>
               && m[k].name == old(m[k].name) && m[k].skeleton == old(m[k].skeleton)
               && FieldLoad(m[k]) == old(FieldLoad(m[k]))
    reads m.Values
    ensures forall k :: k in m && k != n ==> EntriesOf(m)[k] == old(EntriesOf(m))[k]
  {
    true
  }

  twostate predicate EntryAdded(m: map<Name, SkeletonField>, n: Name, new f: SkeletonField)
    requires n !in m
    requires forall k :: k in m && k != n ==> EntriesOf(m)[k] == old(EntriesOf(m))[k]
    reads m.Values, f
    ensures EntriesOf(m[n := f]) == old(EntriesOf(m))[n := FieldEntry(f.name, FieldLoad(f), f.skeleton)]
  {
    assert EntriesOf(m) == old(EntriesOf(m));
    assert forall k :: k in m ==> EntriesOf(m[n := f])[k] == EntriesOf(m)[k];
    true
  }

  method MoveMemberField(s: Skeleton, other: Skeleton, source: SkeletonField, n: Name, ghost w: World)
      returns (f: SkeletonField, ghost w': World)
    requires Sound(w) && s in w.skeletons && other in w.skeletons && s != other
    requires n in other.ownFields && other.ownFields[n] == source && n !in s.ownFields
    requires source.skeleton in w.skeletons && n in source.skeleton.fields
    modifies source.skeleton`fields, s`ownFields, source`event, source`initial, w.events`holder
    ensures Sound(w') && w' == w.(fields := w.fields + {f}) && fresh(f)
    ensures s.ownFields == old(s.ownFields)[n := f]
    ensures EntriesOf(s.ownFields) ==
              old(EntriesOf(s.ownFields))[n := FieldEntry(n, old(FieldLoad(source)), source.skeleton)]
    ensures forall k :: k in other.ownFields && k != n ==>
              EntriesOf(other.ownFields)[k] == old(EntriesOf(other.ownFields))[k]
    ensures source.skeleton == old(source.skeleton)
    ensures FieldMapsOf(w.skeletons) ==
              old(FieldMapsOf(w.skeletons))[source.skeleton := old(source.skeleton.fields)[n := f]]
  {
    hide Sound, FieldMapsOf, EntriesOf;
    FieldMembers(w, other, n);
    OnlyTheseFields(w, s, other, n);
    ghost var own := s.ownFields;
    f, w' := MoveField(s, source, w);
    assert FieldTold(w.skeletons, source.skeleton, n, f);
    assert OtherEntriesKept(other.ownFields, n);
    assert OtherEntriesKept(own, n);
    assert EntryAdded(own, n, f);
  }

  method AssignMemberAlone(s: Skeleton, other: Skeleton, target: SkeletonField, source: SkeletonField, n: Name,
                           ghost w: World)
    requires Sound(w) && s in w.skeletons && other in w.skeletons && s != other
    requires n in other.ownFields && other.ownFields[n] == source && n in s.ownFields && s.ownFields[n] == target
    requires source.skeleton in w.skeletons && n in source.skeleton.fields
    modifies source.skeleton`fields, target, source`event, source`initial,
             w.events`holder, w.events`binding, w.events`offered, w.bindings`offered, w.bindings`owner
    ensures Sound(w) && Undisturbed(w.events)
    ensures target.name == n && FieldLoad(target) == old(FieldLoad(source)) && target.skeleton == source.skeleton
    ensures source.skeleton == old(source.skeleton)
    ensures FieldMapsOf(w.skeletons) ==
              old(FieldMapsOf(w.skeletons))[source.skeleton := old(source.skeleton.fields)[n := target]]
  {
    hide Sound, Undisturbed, FieldMapsOf, EntriesOf;
    FieldMembers(w, s, n);
    FieldMembers(w, other, n);
    AssignField(target, source, w);
    assert FieldTold(w.skeletons, source.skeleton, n, target);
  }

  method AssignMemberField(s: Skeleton, other: Skeleton, target: SkeletonField, source: SkeletonField, n: Name,
                           ghost w: World)
    requires Sound(w) && s in w.skeletons && other in w.skeletons && s != other
    requires n in other.ownFields && other.ownFields[n] == source && n in s.ownFields && s.ownFields[n] == target
    requires source.skeleton in w.skeletons && n in source.skeleton.fields
    modifies source.skeleton`fields, target, source`event, source`initial,
             w.events`holder, w.events`binding, w.events`offered, w.bindings`offered, w.bindings`owner
    ensures Sound(w) && Undisturbed(w.events)
    ensures forall k :: k in s.ownFields && k != n ==> EntriesOf(s.ownFields)[k] == old(EntriesOf(s.ownFields))[k]
    ensures target.name == n && FieldLoad(target) == old(FieldLoad(source)) && target.skeleton == source.skeleton
    ensures forall k :: k in other.ownFields && k != n ==>
              EntriesOf(other.ownFields)[k] == old(EntriesOf(other.ownFields))[k]
    ensures source.skeleton == old(source.skeleton)
    ensures FieldMapsOf(w.skeletons) ==
              old(FieldMapsOf(w.skeletons))[source.skeleton := old(source.skeleton.fields)[n := target]]
  {
    hide Sound, Undisturbed, FieldMapsOf, EntriesOf;
    OnlyTheseFields(w, s, other, n);
    AssignMemberAlone(s, other, target, source, n, w);
    assert OtherEntriesKept(other.ownFields, n);
    assert OtherEntriesKept(s.ownFields, n);
  }

  /** One turn: it terminates exactly if the name is not known. */
  method MoveOneField(s: Skeleton, other: Skeleton, n: Name, ghost todo: set<Name>, ghost maps: FieldMaps,
                      ghost refs: Refs, ghost cargo: map<Name, FieldCargo>, ghost w: World,
                      ghost added: set<SkeletonField>)
      returns (terminated: bool, ghost added': set<SkeletonField>)
    requires Sound(w.(fields := w.fields + added)) && s in w.skeletons && other in w.skeletons && s != other
    requires n in todo && n in refs && refs[n] in w.skeletons && todo <= other.ownFields.Keys
    requires FieldsUnderWay(s, other, todo, maps, refs, cargo, w.skeletons)
    requires other.ownFields[n] in w.fields
    modifies w.skeletons`fields, s`ownFields, FieldsOf(other, w)`event, FieldsOf(other, w)`initial, w.events`holder
    ensures added <= added' && fresh(added' - added) && Sound(w.(fields := w.fields + added')) && refs[n] in maps
    ensures terminated <==> n !in maps[refs[n]]
    ensures !terminated ==> FieldsUnderWay(s, other, todo - {n}, maps, refs, cargo, w.skeletons)
  {
    hide Sound, FieldsMoving, EntriesOf, FieldMapsOf;
    FieldKnownNow(s, other, todo, maps, refs, cargo, w.skeletons, n);
    added' := added;
    ghost var w' := w.(fields := w.fields + added);
    FieldMembers(w', other, n);
    terminated := n !in other.ownFields[n].skeleton.fields;
    if !terminated {
      ghost var own, mine, theirs, now :=
        s.ownFields, EntriesOf(s.ownFields), EntriesOf(other.ownFields), FieldMapsOf(w.skeletons);
      EntryAt(other.ownFields, n);
      FieldMapAt(w.skeletons, refs[n]);
      var f;
      f, w' := MoveMemberField(s, other, other.ownFields[n], n, w');
      EntryAt(other.ownFields, n);
      added' := added + {f};
      assert w'.fields == w.fields + added';
      OneMoreFieldMoved(own, mine, theirs, now, EntriesOf(other.ownFields), FieldMapsOf(w.skeletons), todo, maps, refs,
                        cargo, n, f);
    }
  }

  lemma FieldKnownNow(s: Skeleton, other: Skeleton, todo: set<Name>, maps: FieldMaps, refs: Refs,
                      cargo: map<Name, FieldCargo>, skeletons: set<Skeleton>, n: Name)
    requires FieldsUnderWay(s, other, todo, maps, refs, cargo, skeletons)
    requires n in todo && n in refs && refs[n] in skeletons
    ensures n !in s.ownFields && n in other.ownFields && other.ownFields[n].skeleton == refs[n]
    ensures refs[n] in maps && (n in refs[n].fields <==> n in maps[refs[n]])
  {
  }

  lemma TheyExist(other: Skeleton, w: World)
    requires Sound(w) && other in w.skeletons
    ensures forall n :: n in other.ownFields ==> other.ownFields[n] in w.fields
  {
  }

  /** The member fields, after the events. */
  method MoveFields(s: Skeleton, other: Skeleton, ghost maps: FieldMaps, ghost refs: Refs,
                    ghost cargo: map<Name, FieldCargo>, ghost w: World)
      returns (terminated: bool, ghost added: set<SkeletonField>)
    requires Sound(w) && s in w.skeletons && other in w.skeletons && s != other && s.ownFields == map[]
    requires maps == FieldMapsOf(w.skeletons) && refs == FieldRefsOf(other.ownFields)
    requires cargo == FieldCargoOf(other.ownFields) && forall n :: n in refs ==> refs[n] in w.skeletons
    modifies w.skeletons`fields, s`ownFields, FieldsOf(other, w)`event, FieldsOf(other, w)`initial, w.events`holder
    ensures fresh(added) && Sound(w.(fields := w.fields + added))
    ensures terminated <==> !Known(maps, refs, refs.Keys)
    ensures !terminated ==> FieldsUnderWay(s, other, {}, maps, refs, cargo, w.skeletons)
  {
    hide Sound, FieldsUnderWay, FieldMapsOf, FieldRefsOf, FieldCargoOf, Known, FieldsOf, EntriesOf;
    NoneToKnow(maps, refs);
    StartMovingFields(s, other, w);
    TheyExist(other, w);
    terminated, added := false, {};
    var todo := other.ownFields.Keys;
    assert w.(fields := w.fields + added) == w;
    while todo != {} && !terminated
      invariant todo <= refs.Keys && fresh(added) && Sound(w.(fields := w.fields + added))
      invariant !terminated ==> FieldsUnderWay(s, other, todo, maps, refs, cargo, w.skeletons)
      invariant if terminated then !Known(maps, refs, refs.Keys) else Known(maps, refs, refs.Keys - todo)
      decreases !terminated, todo
    {
      var n :| n in todo;
      OneMoreKnown(maps, refs, todo, n);
      terminated, added := MoveOneField(s, other, n, todo, maps, refs, cargo, w, added);
      todo := if terminated then todo else todo - {n};
    }
    assert refs.Keys - {} == refs.Keys;
  }

  /** The elements of `theirs` in `todo` still wait for their turn, the others of
      `mine` got what their counterparts had. */
  ghost predicate FieldsAssigning(own: map<Name, SkeletonField>, mine: map<Name, FieldEntry>,
                                  theirs: map<Name, FieldEntry>, now: FieldMaps, todo: set<Name>, maps: FieldMaps,
                                  refs: Refs, cargo: map<Name, FieldCargo>)
  {
    && todo <= theirs.Keys == own.Keys == mine.Keys
    && FieldsLoaded(theirs, todo, cargo) && FieldsReferring(theirs, theirs.Keys, refs)
    && FieldsLoaded(mine, mine.Keys - todo, cargo) && FieldsReferring(mine, mine.Keys - todo, refs)
    && Replaced(now, maps, own, refs, mine.Keys - todo)
  }

  lemma StartAssigningFields(s: Skeleton, other: Skeleton, w: World)
    requires Sound(w) && other in w.skeletons && s.ownFields.Keys == other.ownFields.Keys
    ensures FieldsAssigning(s.ownFields, EntriesOf(s.ownFields), EntriesOf(other.ownFields), FieldMapsOf(w.skeletons),
                            other.ownFields.Keys, FieldMapsOf(w.skeletons), FieldRefsOf(other.ownFields),
                            FieldCargoOf(other.ownFields))
  {
    forall n | n in other.ownFields ensures other.ownFields[n].name == n { FieldMembers(w, other, n); }
  }

  lemma FieldKnownToAssign(s: Skeleton, other: Skeleton, todo: set<Name>, maps: FieldMaps, refs: Refs,
                           cargo: map<Name, FieldCargo>, skeletons: set<Skeleton>, n: Name)
    requires FieldsAssigning(s.ownFields, EntriesOf(s.ownFields), EntriesOf(other.ownFields), FieldMapsOf(skeletons),
                             todo, maps, refs, cargo)
    requires n in todo && n in refs && refs[n] in skeletons
    ensures n in s.ownFields && n in other.ownFields && other.ownFields[n].skeleton == refs[n]
    ensures refs[n] in maps && (n in refs[n].fields <==> n in maps[refs[n]])
  {
  }

  lemma OneMoreFieldAssigned(own: map<Name, SkeletonField>, mine: map<Name, FieldEntry>, theirs: map<Name, FieldEntry>,
                             now: FieldMaps, mine': map<Name, FieldEntry>, theirs': map<Name, FieldEntry>,
                             now': FieldMaps, todo: set<Name>, maps: FieldMaps, refs: Refs,
                             cargo: map<Name, FieldCargo>, n: Name)
    requires FieldsAssigning(own, mine, theirs, now, todo, maps, refs, cargo) && n in todo
    requires theirs'.Keys == theirs.Keys && theirs'[n].skeleton == theirs[n].skeleton
    requires forall k :: k in theirs && k != n ==> theirs'[k] == theirs[k]
    requires mine'.Keys == mine.Keys && mine'[n] == FieldEntry(n, theirs[n].cargo, theirs[n].skeleton)
    requires forall k :: k in mine && k != n ==> mine'[k] == mine[k]
    requires refs[n] in now && n in now[refs[n]] && now' == now[refs[n] := now[refs[n]][n := own[n]]]
    ensures FieldsAssigning(own, mine', theirs', now', todo - {n}, maps, refs, cargo)
  {
    hide Replaced, FieldsLoaded, FieldsReferring;
    ghost var done := mine.Keys - todo;
    InTurn(theirs, todo, refs, cargo, n);
    LoadedLater(theirs, theirs', todo, cargo, n);
    ReferringLater(theirs, theirs', theirs.Keys, refs, n);
    LoadedLater(mine, mine', done, cargo, n);
    ReferringLater(mine, mine', done, refs, n);
    OneReplaced(now, now', maps, own, refs, done, n, own[n]);
    assert own[n := own[n]] == own && theirs.Keys + {n} == theirs.Keys;
    assert mine'.Keys - (todo - {n}) == done + {n};
  }

  method AssignOneField(s: Skeleton, other: Skeleton, n: Name, ghost todo: set<Name>, ghost maps: FieldMaps,
                        ghost refs: Refs, ghost cargo: map<Name, FieldCargo>, ghost w: World) returns (terminated: bool)
    requires Sound(w) && s in w.skeletons && other in w.skeletons && s != other
    requires n in todo && n in refs && refs[n] in w.skeletons
    requires FieldsAssigning(s.ownFields, EntriesOf(s.ownFields), EntriesOf(other.ownFields), FieldMapsOf(w.skeletons),
                             todo, maps, refs, cargo)
    modifies w.skeletons`fields, FieldsOf(s, w), FieldsOf(other, w)`event, FieldsOf(other, w)`initial,
             w.events`holder, w.events`binding, w.events`offered, w.bindings`offered, w.bindings`owner
    ensures Sound(w) && CargoOf(s.ownEvents) == old(CargoOf(s.ownEvents)) && refs[n] in maps
    ensures terminated <==> n !in maps[refs[n]]
    ensures !terminated ==>
              FieldsAssigning(s.ownFields, EntriesOf(s.ownFields), EntriesOf(other.ownFields),
                              FieldMapsOf(w.skeletons), todo - {n}, maps, refs, cargo)
  {
    hide Sound, FieldsAssigning, Undisturbed, EntriesOf, FieldMapsOf, CargoOf;
    FieldKnownToAssign(s, other, todo, maps, refs, cargo, w.skeletons, n);
    FieldMembers(w, s, n);
    FieldMembers(w, other, n);
    terminated := n !in other.ownFields[n].skeleton.fields;
    if !terminated {
      ghost var mine, theirs, now := EntriesOf(s.ownFields), EntriesOf(other.ownFields), FieldMapsOf(w.skeletons);
      EntryAt(other.ownFields, n);
      FieldMapAt(w.skeletons, refs[n]);
      AssignMemberField(s, other, s.ownFields[n], other.ownFields[n], n, w);
      EntryAt(other.ownFields, n);
      EntryAt(s.ownFields, n);
      OneMoreFieldAssigned(s.ownFields, mine, theirs, now, EntriesOf(s.ownFields), EntriesOf(other.ownFields),
                           FieldMapsOf(w.skeletons), todo, maps, refs, cargo, n);
      assert EventsKept(s, w);
    }
  }

  /** Member events belong to no field and so keep what they have. */
  twostate predicate EventsKept(s: Skeleton, w: World)
    requires old(Sound(w)) && s in w.skeletons && s.ownEvents == old(s.ownEvents) && Undisturbed(w.events)
    reads s`ownEvents, s.ownEvents.Values, w.events
    ensures CargoOf(s.ownEvents) == old(CargoOf(s.ownEvents))
  {
    assert forall n :: n in s.ownEvents ==> s.ownEvents[n] in w.events && old(s.ownEvents[n].holder) == null;
    true
  }

  /** The member fields are assigned to, after the events: each gets what its
      counterpart had, including whom it refers to. */
  method AssignFields(s: Skeleton, other: Skeleton, ghost maps: FieldMaps, ghost refs: Refs,
                      ghost cargo: map<Name, FieldCargo>, ghost w: World) returns (terminated: bool)
    requires Sound(w) && s in w.skeletons && other in w.skeletons && s != other
    requires s.ownFields.Keys == other.ownFields.Keys
    requires maps == FieldMapsOf(w.skeletons) && refs == FieldRefsOf(other.ownFields)
    requires cargo == FieldCargoOf(other.ownFields) && forall n :: n in refs ==> refs[n] in w.skeletons
    modifies w.skeletons`fields, FieldsOf(s, w), FieldsOf(other, w)`event, FieldsOf(other, w)`initial,
             w.events`holder, w.events`binding, w.events`offered, w.bindings`offered, w.bindings`owner
    ensures Sound(w) && CargoOf(s.ownEvents) == old(CargoOf(s.ownEvents))
    ensures terminated <==> !Known(maps, refs, refs.Keys)
    ensures !terminated ==>
              FieldsAssigning(s.ownFields, EntriesOf(s.ownFields), EntriesOf(other.ownFields),
                              FieldMapsOf(w.skeletons), {}, maps, refs, cargo)
  {
    hide Sound, FieldsAssigning, FieldMapsOf, FieldRefsOf, FieldCargoOf, Known, FieldsOf, EntriesOf, CargoOf;
    ghost var loads := CargoOf(s.ownEvents);
    NoneToKnow(maps, refs);
    StartAssigningFields(s, other, w);
    terminated := false;
    var todo := s.ownFields.Keys;
    while todo != {} && !terminated
      invariant todo <= refs.Keys && Sound(w) && CargoOf(s.ownEvents) == loads
      invariant !terminated ==>
                  FieldsAssigning(s.ownFields, EntriesOf(s.ownFields), EntriesOf(other.ownFields),
                                  FieldMapsOf(w.skeletons), todo, maps, refs, cargo)
      invariant if terminated then !Known(maps, refs, refs.Keys) else Known(maps, refs, refs.Keys - todo)
      decreases !terminated, todo
    {
      var n :| n in todo;
      OneMoreKnown(maps, refs, todo, n);
      terminated := AssignOneField(s, other, n, todo, maps, refs, cargo, w);
      todo := if terminated then todo else todo - {n};
    }
    assert refs.Keys - {} == refs.Keys;
  }

  // ----- what the moves of the elements come to

  /** All elements refer to `s`, whose map knew exactly their names. */
  ghost predicate AllTo<E>(maps: map<Skeleton, map<Name, E>>, refs: Refs, s: Skeleton)
  {
    s in maps && maps[s].Keys == refs.Keys && forall n :: n in refs ==> refs[n] == s
  }

  /** None of them refers to `t`. */
  ghost predicate NoneTo(refs: Refs, t: Skeleton) { forall n :: n in refs ==> refs[n] != t }

  /** The map of `s` names exactly its own elements, and each refers to it, if and
      only if all do and it knew the names. */
  lemma OwnIff<E>(now: map<Name, E>, maps: map<Skeleton, map<Name, E>>, own: map<Name, E>, refs: Refs, s: Skeleton)
    requires s in maps && own.Keys == refs.Keys && ReplacedIn(now, maps[s], own, refs, refs.Keys, s)
    ensures AllTo(maps, refs, s) ==> now == own
    ensures now == own ==> maps[s].Keys == refs.Keys
  {
  }

  /** Another skeleton's map that was right stays so if and only if no element was
      told to it. */
  lemma OtherIff<E>(now: map<Name, E>, maps: map<Skeleton, map<Name, E>>, own: map<Name, E>, refs: Refs, t: Skeleton,
                    theirs: map<Name, E>)
    requires t in maps && maps[t] == theirs && own.Keys == refs.Keys && Known(maps, refs, refs.Keys)
    requires ReplacedIn(now, maps[t], own, refs, refs.Keys, t)
    requires forall n :: n in own && n in theirs ==> own[n] != theirs[n]
    ensures now == theirs <==> NoneTo(refs, t)
  {
    if n :| n in refs && refs[n] == t {
      assert now[n] == own[n];
    } else {
      assert now == theirs;
    }
  }

  /** Each element of `s` refers to it. */
  ghost predicate OwnRefer(s: Skeleton)
    reads s`ownEvents, s`ownFields, s.ownEvents.Values`skeleton, s.ownFields.Values`skeleton
  {
    && (forall n :: n in s.ownEvents ==> s.ownEvents[n].skeleton == s)
    && (forall n :: n in s.ownFields ==> s.ownFields[n].skeleton == s)
  }

  /** Everything the old `other` had, down to each element's binding, flag,
      prepared mark and saved value, is now `s`'s. */
  twostate predicate TookOver(new s: Skeleton, other: Skeleton)
    reads s, other, s.ownEvents.Values, s.ownFields.Values
  {
    && Emptied(other)
    && s.binding == old(other.binding) && s.serviceOffered == old(other.serviceOffered)
    && CargoOf(s.ownEvents) == old(CargoOf(other.ownEvents))
    && FieldCargoOf(s.ownFields) == old(FieldCargoOf(other.ownFields))
  }

  /** The state the element moves end in, told by what they started from. */
  ghost predicate Followed(s: Skeleton, w: World, maps: EventMaps, refs: Refs, cargo: map<Name, Cargo>,
                           fieldMaps: FieldMaps, fieldRefs: Refs, fieldCargo: map<Name, FieldCargo>)
    reads s`ownEvents, s`ownFields, s.ownEvents.Values`skeleton, s.ownEvents.Values`binding,
          s.ownEvents.Values`offered, s.ownFields.Values, w.skeletons`events, w.skeletons`fields
  {
    && s.ownEvents.Keys == refs.Keys && s.ownFields.Keys == fieldRefs.Keys
    && Loaded(s.ownEvents, s.ownEvents.Keys, cargo) && Referring(s.ownEvents, s.ownEvents.Keys, refs)
    && FieldsLoaded(EntriesOf(s.ownFields), s.ownFields.Keys, fieldCargo)
    && FieldsReferring(EntriesOf(s.ownFields), s.ownFields.Keys, fieldRefs)
    && Replaced(EventMapsOf(w.skeletons), maps, s.ownEvents, refs, refs.Keys)
    && Replaced(FieldMapsOf(w.skeletons), fieldMaps, s.ownFields, fieldRefs, fieldRefs.Keys)
  }

  lemma FollowedLinksIff(s: Skeleton, w: World, maps: EventMaps, refs: Refs, cargo: map<Name, Cargo>,
                         fieldMaps: FieldMaps, fieldRefs: Refs, fieldCargo: map<Name, FieldCargo>)
    requires Followed(s, w, maps, refs, cargo, fieldMaps, fieldRefs, fieldCargo) && s in w.skeletons
    ensures Linked(s) <==> AllTo(maps, refs, s) && AllTo(fieldMaps, fieldRefs, s)
  {
    OwnIff(s.events, maps, s.ownEvents, refs, s);
    OwnIff(s.fields, fieldMaps, s.ownFields, fieldRefs, s);
    assert forall n :: n in s.ownEvents ==> s.ownEvents[n].skeleton == refs[n];
    assert forall n :: n in s.ownFields ==> EntriesOf(s.ownFields)[n].skeleton == fieldRefs[n];
  }

  lemma FollowedCargo(s: Skeleton, w: World, maps: EventMaps, refs: Refs, cargo: map<Name, Cargo>,
                      fieldMaps: FieldMaps, fieldRefs: Refs, fieldCargo: map<Name, FieldCargo>)
    requires Followed(s, w, maps, refs, cargo, fieldMaps, fieldRefs, fieldCargo)
    requires cargo.Keys == refs.Keys && fieldCargo.Keys == fieldRefs.Keys
    ensures CargoOf(s.ownEvents) == cargo && FieldCargoOf(s.ownFields) == fieldCargo
  {
    assert forall n :: n in s.ownFields ==> EntriesOf(s.ownFields)[n].cargo == fieldCargo[n];
  }

  lemma FollowedOthersIff(s: Skeleton, w: World, maps: EventMaps, refs: Refs, cargo: map<Name, Cargo>,
                          fieldMaps: FieldMaps, fieldRefs: Refs, fieldCargo: map<Name, FieldCargo>, t: Skeleton)
    requires Followed(s, w, maps, refs, cargo, fieldMaps, fieldRefs, fieldCargo)
    requires Known(maps, refs, refs.Keys) && Known(fieldMaps, fieldRefs, fieldRefs.Keys)
    requires Sound(w) && s in w.skeletons && t in w.skeletons && t != s
    requires maps[t] == t.ownEvents && fieldMaps[t] == t.ownFields
    ensures t.events == t.ownEvents && t.fields == t.ownFields <==> NoneTo(refs, t) && NoneTo(fieldRefs, t)
  {
    forall n | n in s.ownEvents && n in t.ownEvents ensures s.ownEvents[n] != t.ownEvents[n] {
      Members(w, s, n);
      Members(w, t, n);
    }
    forall n | n in s.ownFields && n in t.ownFields ensures s.ownFields[n] != t.ownFields[n] {
      FieldMembers(w, s, n);
      FieldMembers(w, t, n);
    }
    OtherIff(t.events, maps, s.ownEvents, refs, t, t.ownEvents);
    OtherIff(t.fields, fieldMaps, s.ownFields, fieldRefs, t, t.ownFields);
  }

  // ----- the base

  /** What is registered with `s` exists. */
  ghost predicate RegisteredExist(s: Skeleton, w: World)
    reads s`events, s`fields
  {
    (forall n :: n in s.events ==> s.events[n] in w.events) && (forall n :: n in s.fields ==> s.fields[n] in w.fields)
  }

  /** Whatever was registered with `other` refers to `s` now, all else to whom it did. */
  twostate predicate Rebased(new s: Skeleton, other: Skeleton, w: World)
    reads w.events`skeleton, w.fields`skeleton
  {
    && (forall e :: e in w.events ==> e.skeleton == if e in old(other.events.Values) then s else old(e.skeleton))
    && (forall f :: f in w.fields ==> f.skeleton == if f in old(other.fields.Values) then s else old(f.skeleton))
  }

  lemma NoMembersYet(s: Skeleton, skeletons: set<Skeleton>, events: set<SkeletonEvent>, fields: set<SkeletonField>)
    requires EventsAtHome(skeletons, events) && FieldsAtHome(skeletons, fields)
    requires s.ownEvents == map[] && s.ownFields == map[]
    ensures EventsAtHome(skeletons + {s}, events) && FieldsAtHome(skeletons + {s}, fields)
  {
  }

  /** A new base with what `other`'s base had. */
  method NewBase(other: Skeleton, ghost w: World) returns (s: Skeleton)
    requires RegisteredExist(other, w) && (other.binding != null ==> other.binding in w.roots)
    modifies other`binding, other`events, other`fields, other`serviceOffered, w.roots`owner,
             w.events`skeleton, w.fields`skeleton
    ensures fresh(s) && (s.binding != null ==> s.binding.owner == s) && Rebased(s, other, w) && Emptied(other)
    ensures s.events == old(other.events) && s.fields == old(other.fields) && s.ownEvents == map[]
    ensures s.ownFields == map[]
    ensures s.binding == old(other.binding) && s.serviceOffered == old(other.serviceOffered)
    ensures forall r :: r in w.roots && r != s.binding ==> r.owner == old(r.owner)
  {
    s := new Skeleton.MoveBase(other);
  }

  method MoveBaseIn(other: Skeleton, ghost w: World) returns (s: Skeleton, ghost w': World)
    requires Sound(w) && other in w.skeletons && RegisteredExist(other, w)
    modifies other`binding, other`events, other`fields, other`serviceOffered, w.roots`owner,
             w.events`skeleton, w.fields`skeleton
    ensures fresh(s) && w' == w.(skeletons := w.skeletons + {s}) && Sound(w')
    ensures s.events == old(other.events) && s.fields == old(other.fields) && s.ownEvents == map[]
    ensures s.ownFields == map[]
    ensures Rebased(s, other, w) && Emptied(other)
    ensures s.binding == old(other.binding) && s.serviceOffered == old(other.serviceOffered)
  {
    hide Owned, Held, AllValued, EventsAtHome, FieldsAtHome, Rebased;
    s := NewBase(other, w);
    w' := w.(skeletons := w.skeletons + {s});
    NoMembersYet(s, w.skeletons, w.events, w.fields);
  }

  method AssignBaseIn(s: Skeleton, other: Skeleton, ghost w: World)
    requires Sound(w) && s in w.skeletons && other in w.skeletons && s != other && RegisteredExist(other, w)
    modifies s`binding, s`events, s`fields, s`serviceOffered, w.roots`prepared, w.roots`owner,
             other`binding, other`events, other`fields, other`serviceOffered, w.events`skeleton, w.fields`skeleton
    ensures Sound(w) && s.events == old(other.events) && s.fields == old(other.fields)
    ensures Rebased(s, other, w) && Emptied(other)
    ensures s.binding == old(other.binding) && s.serviceOffered == old(other.serviceOffered)
    ensures StoppedOnly(s, w.roots)
  {
    hide Owned, Held, AllValued, EventsAtHome, FieldsAtHome;
    s.AssignBase(other);
  }

  // ----- the elements

  twostate predicate FieldsUntouched(other: Skeleton, w: World)
    requires other.ownFields == old(other.ownFields)
    requires forall n :: n in other.ownFields ==>
               && other.ownFields[n].event == old(other.ownFields[n].event)
               && other.ownFields[n].prepared == old(other.ownFields[n].prepared)
               && other.ownFields[n].initial == old(other.ownFields[n].initial)
               && other.ownFields[n].history == old(other.ownFields[n].history)
               && other.ownFields[n].skeleton == old(other.ownFields[n].skeleton)
    requires forall t :: t in w.skeletons ==> t.fields == old(t.fields)
    reads other`ownFields, other.ownFields.Values, w.skeletons`fields
    ensures FieldMapsOf(w.skeletons) == old(FieldMapsOf(w.skeletons))
    ensures FieldRefsOf(other.ownFields) == old(FieldRefsOf(other.ownFields))
    ensures FieldCargoOf(other.ownFields) == old(FieldCargoOf(other.ownFields))
  {
    true
  }

  method MoveEventsOnly(s: Skeleton, other: Skeleton, ghost maps: EventMaps, ghost refs: Refs,
                        ghost cargo: map<Name, Cargo>, ghost w: World)
      returns (terminated: bool, ghost added: set<SkeletonEvent>)
    requires Sound(w) && s in w.skeletons && other in w.skeletons && s != other && s.ownEvents == map[]
    requires maps == EventMapsOf(w.skeletons) && refs == RefsOf(other.ownEvents) && cargo == CargoOf(other.ownEvents)
    requires forall n :: n in refs ==> refs[n] in w.skeletons
    modifies w.skeletons`events, s`ownEvents, EventsOf(other, w)`binding, EventsOf(other, w)`offered, w.bindings`owner
    ensures fresh(added) && Sound(w.(events := w.events + added))
    ensures terminated <==> !Known(maps, refs, refs.Keys)
    ensures !terminated ==> Moving(s, other, {}, maps, refs, cargo, w.skeletons)
    ensures FieldMapsOf(w.skeletons) == old(FieldMapsOf(w.skeletons))
    ensures FieldRefsOf(other.ownFields) == old(FieldRefsOf(other.ownFields))
    ensures FieldCargoOf(other.ownFields) == old(FieldCargoOf(other.ownFields))
  {
    hide Sound, Moving, EventMapsOf, RefsOf, CargoOf, FieldMapsOf, FieldRefsOf, FieldCargoOf, Known, EventsOf;
    terminated, added := MoveEvents(s, other, maps, refs, cargo, w);
    assert FieldsUntouched(other, w);
  }

  /** The derived class's members, one after the other, after the base was moved. */
  method MoveElements(s: Skeleton, other: Skeleton, ghost maps: EventMaps, ghost refs: Refs, ghost cargo: map<Name,
                      Cargo>,
                      ghost fieldMaps: FieldMaps, ghost fieldRefs: Refs, ghost fieldCargo: map<Name, FieldCargo>,
                      ghost w: World) returns (terminated: bool, ghost w': World)
    requires Sound(w) && s in w.skeletons && other in w.skeletons && s != other
    requires s.ownEvents == map[] && s.ownFields == map[]
    requires maps == EventMapsOf(w.skeletons) && refs == RefsOf(other.ownEvents) && cargo == CargoOf(other.ownEvents)
    requires fieldMaps == FieldMapsOf(w.skeletons) && fieldRefs == FieldRefsOf(other.ownFields)
    requires fieldCargo == FieldCargoOf(other.ownFields)
    requires (forall n :: n in refs ==> refs[n] in w.skeletons)
    requires (forall n :: n in fieldRefs ==> fieldRefs[n] in w.skeletons)
    modifies w.skeletons`events, w.skeletons`fields, s`ownEvents, s`ownFields,
             EventsOf(other, w)`binding, EventsOf(other, w)`offered,
             FieldsOf(other, w)`event, FieldsOf(other, w)`initial, w.events`holder, w.bindings`owner
    ensures Sound(w') && w' == w.(events := w'.events, fields := w'.fields)
    ensures w.events <= w'.events && fresh(w'.events - w.events)
    ensures w.fields <= w'.fields && fresh(w'.fields - w.fields)
    ensures terminated <==> !Known(maps, refs, refs.Keys) || !Known(fieldMaps, fieldRefs, fieldRefs.Keys)
    ensures !terminated ==> Followed(s, w', maps, refs, cargo, fieldMaps, fieldRefs, fieldCargo)
  {
    hide Sound, Moving, EventMapsOf, RefsOf, CargoOf, FieldMapsOf, FieldRefsOf, FieldCargoOf, Known, Followed;
    ghost var added;
    terminated, added := MoveEventsOnly(s, other, maps, refs, cargo, w);
    w' := w.(events := w.events + added);
    if !terminated {
      terminated, w' := MoveFieldsToo(s, other, maps, refs, cargo, fieldMaps, fieldRefs, fieldCargo, w');
    }
  }

  method MoveFieldsToo(s: Skeleton, other: Skeleton, ghost maps: EventMaps, ghost refs: Refs, ghost cargo: map<Name,
                       Cargo>,
                       ghost fieldMaps: FieldMaps, ghost fieldRefs: Refs, ghost fieldCargo: map<Name, FieldCargo>,
                       ghost w: World) returns (terminated: bool, ghost w': World)
    requires Sound(w) && s in w.skeletons && other in w.skeletons && s != other && s.ownFields == map[]
    requires Moving(s, other, {}, maps, refs, cargo, w.skeletons) && refs.Keys == other.ownEvents.Keys
    requires fieldMaps == FieldMapsOf(w.skeletons) && fieldRefs == FieldRefsOf(other.ownFields)
    requires fieldCargo == FieldCargoOf(other.ownFields) && forall n :: n in fieldRefs ==> fieldRefs[n] in w.skeletons
    modifies w.skeletons`fields, s`ownFields, FieldsOf(other, w)`event, FieldsOf(other, w)`initial, w.events`holder
    ensures Sound(w') && w' == w.(fields := w'.fields)
    ensures w.fields <= w'.fields && fresh(w'.fields - w.fields)
    ensures terminated <==> !Known(fieldMaps, fieldRefs, fieldRefs.Keys)
    ensures !terminated ==> Followed(s, w', maps, refs, cargo, fieldMaps, fieldRefs, fieldCargo)
  {
    hide Sound, Moving, FieldsUnderWay, EventMapsOf, FieldMapsOf, FieldRefsOf, FieldCargoOf, Known, Followed, FieldsOf;
    ghost var added;
    terminated, added := MoveFields(s, other, fieldMaps, fieldRefs, fieldCargo, w);
    w' := w.(fields := w.fields + added);
    if !terminated {
      AllMoved(s, other, w', maps, refs, cargo, fieldMaps, fieldRefs, fieldCargo);
    }
  }

  lemma AllMoved(s: Skeleton, other: Skeleton, w: World, maps: EventMaps, refs: Refs, cargo: map<Name, Cargo>,
                 fieldMaps: FieldMaps, fieldRefs: Refs, fieldCargo: map<Name, FieldCargo>)
    requires Moving(s, other, {}, maps, refs, cargo, w.skeletons) && refs.Keys == other.ownEvents.Keys
    requires FieldsUnderWay(s, other, {}, fieldMaps, fieldRefs, fieldCargo, w.skeletons)
    requires fieldRefs.Keys == other.ownFields.Keys
    ensures Followed(s, w, maps, refs, cargo, fieldMaps, fieldRefs, fieldCargo)
  {
    hide Replaced, EventMapsOf, FieldMapsOf;
    assert other.ownEvents.Keys - {} == refs.Keys;
    assert other.ownFields.Keys - {} == fieldRefs.Keys;
  }

  // ----- what can be told before the move

  /** The event will refer to the skeleton whose base takes over from `other`: to
      `to`, if that exists already, or to a new one. */
  ghost predicate WillRefer(e: SkeletonEvent, other: Skeleton, to: Skeleton?)
    reads e`skeleton, other`events
  {
    e in other.events.Values || e.skeleton == to
  }

  ghost predicate FieldWillRefer(f: SkeletonField, other: Skeleton, to: Skeleton?)
    reads f`skeleton, other`fields
  {
    f in other.fields.Values || f.skeleton == to
  }

  /** Everything a move follows exists. */
  ghost predicate Followable(events: map<Name, SkeletonEvent>, fields: map<Name, SkeletonField>, other: Skeleton,
                             w: World)
    reads events.Values`skeleton, fields.Values`skeleton, other`events, other`fields
  {
    && RegisteredExist(other, w)
    && (forall n :: n in events ==> events[n] in w.events && events[n].skeleton in w.skeletons)
    && (forall n :: n in fields ==> fields[n] in w.fields && fields[n].skeleton in w.skeletons)
  }

  /** Each name is known to the skeleton that will be told. */
  ghost predicate EventsKnown(events: map<Name, SkeletonEvent>, other: Skeleton, to: Skeleton?,
                              skeletons: set<Skeleton>)
    requires forall n :: n in events ==> events[n].skeleton in skeletons
    reads events.Values`skeleton, other`events, skeletons`events
  {
    forall n :: n in events ==>
      if WillRefer(events[n], other, to) then n in other.events
      else events[n].skeleton != other && n in events[n].skeleton.events
  }

  ghost predicate FieldsKnown(fields: map<Name, SkeletonField>, other: Skeleton, to: Skeleton?,
                              skeletons: set<Skeleton>)
    requires forall n :: n in fields ==> fields[n].skeleton in skeletons
    reads fields.Values`skeleton, other`fields, skeletons`fields
  {
    forall n :: n in fields ==>
      if FieldWillRefer(fields[n], other, to) then n in other.fields
      else fields[n].skeleton != other && n in fields[n].skeleton.fields
  }

  /** All elements will refer to that skeleton, whose map will have just their names. */
  ghost predicate EventsFollow(events: map<Name, SkeletonEvent>, other: Skeleton, to: Skeleton?)
    reads events.Values`skeleton, other`events
  {
    other.events.Keys == events.Keys && forall n :: n in events ==> WillRefer(events[n], other, to)
  }

  ghost predicate FieldsFollow(fields: map<Name, SkeletonField>, other: Skeleton, to: Skeleton?)
    reads fields.Values`skeleton, other`fields
  {
    other.fields.Keys == fields.Keys && forall n :: n in fields ==> FieldWillRefer(fields[n], other, to)
  }

  /** No element will tell `t` its address. */
  ghost predicate NoEventTells(events: map<Name, SkeletonEvent>, other: Skeleton, to: Skeleton?, t: Skeleton)
    reads events.Values`skeleton, other`events
  {
    forall n :: n in events ==> WillRefer(events[n], other, to) || events[n].skeleton != t
  }

  ghost predicate NoFieldTells(fields: map<Name, SkeletonField>, other: Skeleton, to: Skeleton?, t: Skeleton)
    reads fields.Values`skeleton, other`fields
  {
    forall n :: n in fields ==> FieldWillRefer(fields[n], other, to) || fields[n].skeleton != t
  }

  /** Nothing of `t` is registered with `other`. */
  ghost predicate NotRegistered(t: Skeleton, other: Skeleton)
    reads t`ownEvents, t`ownFields, other`events, other`fields
  {
    && (forall n :: n in t.ownEvents ==> t.ownEvents[n] !in other.events.Values)
    && (forall n :: n in t.ownFields ==> t.ownFields[n] !in other.fields.Values)
  }

  /** The move does not concern `t`. */
  ghost predicate LeftAlone(t: Skeleton, events: map<Name, SkeletonEvent>, fields: map<Name, SkeletonField>,
                            other: Skeleton, to: Skeleton?)
    reads events.Values`skeleton, fields.Values`skeleton, other`events, other`fields, t`ownEvents, t`ownFields
  {
    NoEventTells(events, other, to, t) && NoFieldTells(fields, other, to, t) && NotRegistered(t, other)
  }

  /** The base took over: the maps of `other` are those of `s`, and the elements
      registered there refer to `s`. */
  twostate predicate BaseMoved(new s: Skeleton, other: Skeleton, to: Skeleton?, w: World, new skeletons: set<Skeleton>)
    reads s`events, s`fields, w.skeletons`events, w.skeletons`fields, w.events`skeleton, w.fields`skeleton
  {
    && skeletons == w.skeletons + {s} && other in w.skeletons && s != other
    && (if to == null then s !in w.skeletons else to == s && s in w.skeletons)
    && s.events == old(other.events) && s.fields == old(other.fields) && other.events == map[] && other.fields == map[]
    && (forall t :: t in w.skeletons && t != s && t != other ==>
          t.events == old(t.events) && t.fields == old(t.fields))
    && Rebased(s, other, w)
  }

  twostate predicate EventsAfterBase(new s: Skeleton, other: Skeleton, to: Skeleton?, w: World,
                                     new skeletons: set<Skeleton>, events: map<Name, SkeletonEvent>)
    requires BaseMoved(s, other, to, w, skeletons)
    requires forall n :: n in events ==> events[n] in w.events && old(events[n].skeleton) in w.skeletons
    reads s`events, s`fields, w.skeletons`events, w.skeletons`fields, w.events`skeleton, w.fields`skeleton,
          skeletons`events, events.Values`skeleton
    ensures forall n :: n in events ==> RefsOf(events)[n] in skeletons
    ensures Known(EventMapsOf(skeletons), RefsOf(events), events.Keys) <==>
              old(EventsKnown(events, other, to, w.skeletons))
  {
    assert forall n :: n in events ==>
             RefsOf(events)[n] == if old(WillRefer(events[n], other, to)) then s else old(events[n].skeleton);
    true
  }

  twostate predicate EventsTellAfterBase(new s: Skeleton, other: Skeleton, to: Skeleton?, w: World,
                                         new skeletons: set<Skeleton>, events: map<Name, SkeletonEvent>)
    requires BaseMoved(s, other, to, w, skeletons)
    requires forall n :: n in events ==> events[n] in w.events && old(events[n].skeleton) in w.skeletons
    reads s`events, s`fields, w.skeletons`events, w.skeletons`fields, w.events`skeleton, w.fields`skeleton,
          skeletons`events, events.Values`skeleton
    ensures AllTo(EventMapsOf(skeletons), RefsOf(events), s) <==> old(EventsFollow(events, other, to))
    ensures forall t :: t in w.skeletons && t != s ==>
              (NoneTo(RefsOf(events), t) <==> old(NoEventTells(events, other, to, t)))
  {
    assert forall n :: n in events ==>
             RefsOf(events)[n] == if old(WillRefer(events[n], other, to)) then s else old(events[n].skeleton);
    assert EventMapsOf(skeletons)[s] == old(other.events);
    true
  }

  twostate predicate FieldsAfterBase(new s: Skeleton, other: Skeleton, to: Skeleton?, w: World,
                                     new skeletons: set<Skeleton>, fields: map<Name, SkeletonField>)
    requires BaseMoved(s, other, to, w, skeletons)
    requires forall n :: n in fields ==> fields[n] in w.fields && old(fields[n].skeleton) in w.skeletons
    reads s`events, s`fields, w.skeletons`events, w.skeletons`fields, w.events`skeleton, w.fields`skeleton,
          skeletons`fields, fields.Values`skeleton
    ensures forall n :: n in fields ==> FieldRefsOf(fields)[n] in skeletons
    ensures Known(FieldMapsOf(skeletons), FieldRefsOf(fields), fields.Keys) <==>
              old(FieldsKnown(fields, other, to, w.skeletons))
  {
    assert forall n :: n in fields ==>
             FieldRefsOf(fields)[n] == if old(FieldWillRefer(fields[n], other, to)) then s else old(fields[n].skeleton);
    true
  }

  twostate predicate FieldsTellAfterBase(new s: Skeleton, other: Skeleton, to: Skeleton?, w: World,
                                         new skeletons: set<Skeleton>, fields: map<Name, SkeletonField>)
    requires BaseMoved(s, other, to, w, skeletons)
    requires forall n :: n in fields ==> fields[n] in w.fields && old(fields[n].skeleton) in w.skeletons
    reads s`events, s`fields, w.skeletons`events, w.skeletons`fields, w.events`skeleton, w.fields`skeleton,
          skeletons`fields, fields.Values`skeleton
    ensures AllTo(FieldMapsOf(skeletons), FieldRefsOf(fields), s) <==> old(FieldsFollow(fields, other, to))
    ensures forall t :: t in w.skeletons && t != s ==>
              (NoneTo(FieldRefsOf(fields), t) <==> old(NoFieldTells(fields, other, to, t)))
  {
    assert forall n :: n in fields ==>
             FieldRefsOf(fields)[n] == if old(FieldWillRefer(fields[n], other, to)) then s else old(fields[n].skeleton);
    assert FieldMapsOf(skeletons)[s] == old(other.fields);
    true
  }

  twostate predicate OthersAfterBase(new s: Skeleton, other: Skeleton, to: Skeleton?, w: World,
                                     new skeletons: set<Skeleton>)
    requires old(Sound(w)) && BaseMoved(s, other, to, w, skeletons)
    requires forall t :: t in w.skeletons ==> t.ownEvents == old(t.ownEvents) && t.ownFields == old(t.ownFields)
    reads s`events, s`fields, w.skeletons, w.events`skeleton, w.fields`skeleton, skeletons`events, skeletons`fields
    ensures forall t :: t in w.skeletons && t != s && t != other && old(Linked(t)) ==>
              && EventMapsOf(skeletons)[t] == t.ownEvents && FieldMapsOf(skeletons)[t] == t.ownFields
              && (OwnRefer(t) <==> old(NotRegistered(t, other)))
  {
    assert forall t, n :: t in w.skeletons && n in t.ownEvents ==> t.ownEvents[n] in w.events;
    assert forall t, n :: t in w.skeletons && n in t.ownFields ==> t.ownFields[n] in w.fields;
    true
  }

  /** What can be told of a move before it begins: whether all names are known,
      whether all elements follow, and, of the skeletons that have their links,
      whom no event and no field will tell anything and of whom nothing is
      registered with the source. */
  datatype Forecast = Forecast(
    eventsKnown: bool, fieldsKnown: bool, eventsFollow: bool, fieldsFollow: bool,
    linked: set<Skeleton>, noEvent: set<Skeleton>, noField: set<Skeleton>, notRegistered: set<Skeleton>,
    ownEvents: EventMaps, ownFields: FieldMaps)      // the members of the skeletons in `linked`

  ghost function ForecastOf(events: map<Name, SkeletonEvent>, fields: map<Name, SkeletonField>, other: Skeleton,
                            to: Skeleton?, w: World): Forecast
    requires forall n :: n in events ==> events[n].skeleton in w.skeletons
    requires forall n :: n in fields ==> fields[n].skeleton in w.skeletons
    reads *
  {
    var linked := set t | t in w.skeletons && t != other && t != to && Linked(t);
    Forecast(EventsKnown(events, other, to, w.skeletons), FieldsKnown(fields, other, to, w.skeletons),
             EventsFollow(events, other, to), FieldsFollow(fields, other, to), linked,
             set t | t in linked && NoEventTells(events, other, to, t),
             set t | t in linked && NoFieldTells(fields, other, to, t),
             set t | t in linked && NotRegistered(t, other),
             map t | t in linked :: t.ownEvents, map t | t in linked :: t.ownFields)
  }

  /** The names in everybody's maps. */
  ghost function NamesOf(skeletons: set<Skeleton>): (names: map<Skeleton, (set<Name>, set<Name>)>)
    reads skeletons`events, skeletons`fields
    ensures names.Keys == skeletons
  {
    map t | t in skeletons :: (t.events.Keys, t.fields.Keys)
  }

  twostate predicate NamesPassOn(new s: Skeleton, other: Skeleton, to: Skeleton?, w: World,
                                 new skeletons: set<Skeleton>)
    requires BaseMoved(s, other, to, w, skeletons)
    reads s`events, s`fields, w.skeletons`events, w.skeletons`fields, w.events`skeleton, w.fields`skeleton,
          skeletons`events, skeletons`fields
    ensures NamesOf(skeletons) == old(NamesOf(w.skeletons))[other := ({}, {})][s := old(NamesOf(w.skeletons))[other]]
  {
    assert other.events.Keys == {} && other.fields.Keys == {};
    assert forall t :: t in skeletons ==>
             NamesOf(skeletons)[t] == if t == s then old(NamesOf(w.skeletons))[other]
                                      else if t == other then ({}, {}) else old(NamesOf(w.skeletons))[t];
    true
  }

  lemma LinkedOnes(events: map<Name, SkeletonEvent>, fields: map<Name, SkeletonField>, other: Skeleton, to: Skeleton?,
                   w: World)
    requires forall n :: n in events ==> events[n].skeleton in w.skeletons
    requires forall n :: n in fields ==> fields[n].skeleton in w.skeletons
    ensures
      var fc := ForecastOf(events, fields, other, to, w);
      fc.linked <= w.skeletons && other !in fc.linked && to !in fc.linked
  {
  }

  /** The forecast in terms of the maps and references after the base was moved. */
  ghost predicate EventsTold(fc: Forecast, s: Skeleton, maps: EventMaps, refs: Refs)
  {
    && (Known(maps, refs, refs.Keys) <==> fc.eventsKnown)
    && (AllTo(maps, refs, s) <==> fc.eventsFollow)
    && (forall t :: t in fc.linked ==>
          t in maps && t in fc.ownEvents && maps[t] == fc.ownEvents[t] && (NoneTo(refs, t) <==> t in fc.noEvent))
  }

  ghost predicate FieldsTold(fc: Forecast, s: Skeleton, maps: FieldMaps, refs: Refs)
  {
    && (Known(maps, refs, refs.Keys) <==> fc.fieldsKnown)
    && (AllTo(maps, refs, s) <==> fc.fieldsFollow)
    && (forall t :: t in fc.linked ==>
          t in maps && t in fc.ownFields && maps[t] == fc.ownFields[t] && (NoneTo(refs, t) <==> t in fc.noField))
  }

  /** The members are as they were, and refer to their own skeleton unless they
      are registered with the source. */
  ghost predicate ReferencesTold(fc: Forecast)
    reads *
  {
    forall t :: t in fc.linked ==>
      && t in fc.ownEvents && t.ownEvents == fc.ownEvents[t] && t in fc.ownFields && t.ownFields == fc.ownFields[t]
      && (OwnRefer(t) <==> t in fc.notRegistered)
  }

  twostate predicate EventsForetold(new s: Skeleton, other: Skeleton, to: Skeleton?, w: World,
                                    new skeletons: set<Skeleton>, events: map<Name, SkeletonEvent>,
                                    fields: map<Name, SkeletonField>)
    requires BaseMoved(s, other, to, w, skeletons)
    requires forall n :: n in events ==> events[n] in w.events && old(events[n].skeleton) in w.skeletons
    requires forall n :: n in fields ==> old(fields[n].skeleton) in w.skeletons
    requires forall t :: t in w.skeletons ==> t.ownEvents == old(t.ownEvents)
    reads s, w.skeletons, skeletons, w.events, w.fields, events.Values
    ensures forall n :: n in events ==> events[n].skeleton in skeletons
    ensures EventsTold(old(ForecastOf(events, fields, other, to, w)), s, EventMapsOf(skeletons), RefsOf(events))
  {
    assert EventsAfterBase(s, other, to, w, skeletons, events);
    assert EventsTellAfterBase(s, other, to, w, skeletons, events);
    true
  }

  twostate predicate FieldsForetold(new s: Skeleton, other: Skeleton, to: Skeleton?, w: World,
                                    new skeletons: set<Skeleton>, events: map<Name, SkeletonEvent>,
                                    fields: map<Name, SkeletonField>)
    requires BaseMoved(s, other, to, w, skeletons)
    requires forall n :: n in fields ==> fields[n] in w.fields && old(fields[n].skeleton) in w.skeletons
    requires forall n :: n in events ==> old(events[n].skeleton) in w.skeletons
    requires forall t :: t in w.skeletons ==> t.ownFields == old(t.ownFields)
    reads s, w.skeletons, skeletons, w.events, w.fields, fields.Values
    ensures forall n :: n in fields ==> fields[n].skeleton in skeletons
    ensures FieldsTold(old(ForecastOf(events, fields, other, to, w)), s, FieldMapsOf(skeletons), FieldRefsOf(fields))
  {
    assert FieldsAfterBase(s, other, to, w, skeletons, fields);
    assert FieldsTellAfterBase(s, other, to, w, skeletons, fields);
    true
  }

  twostate predicate ReferencesForetold(new s: Skeleton, other: Skeleton, to: Skeleton?, w: World,
                                        new skeletons: set<Skeleton>, events: map<Name, SkeletonEvent>,
                                        fields: map<Name, SkeletonField>)
    requires old(Sound(w)) && BaseMoved(s, other, to, w, skeletons)
    requires forall t :: t in w.skeletons ==> t.ownEvents == old(t.ownEvents) && t.ownFields == old(t.ownFields)
    requires forall n :: n in events ==> old(events[n].skeleton) in w.skeletons
    requires forall n :: n in fields ==> old(fields[n].skeleton) in w.skeletons
    reads *
    ensures ReferencesTold(old(ForecastOf(events, fields, other, to, w)))
  {
    assert OthersAfterBase(s, other, to, w, skeletons);
    true
  }

  /** What the names in everybody's maps come to when `s` takes over from `other`. */
  ghost function PassedOn(names: Names, s: Skeleton, other: Skeleton): Names
    requires other in names
  {
    names[other := ({}, {})][s := names[other]]
  }

  /** The state after the base moved, told before. */
  ghost predicate Told(fc: Forecast, names: Names, s: Skeleton, events: map<Name, SkeletonEvent>,
                       fields: map<Name, SkeletonField>, w: World)
    reads *
  {
    && Sound(w) && s in w.skeletons && fc.linked <= w.skeletons && s !in fc.linked
    && (forall n :: n in events ==> events[n].skeleton in w.skeletons)
    && (forall n :: n in fields ==> fields[n].skeleton in w.skeletons)
    && EventsTold(fc, s, EventMapsOf(w.skeletons), RefsOf(events))
    && FieldsTold(fc, s, FieldMapsOf(w.skeletons), FieldRefsOf(fields))
    && ReferencesTold(fc) && NamesOf(w.skeletons) == names
  }

  /** What the elements bring along. */
  ghost predicate Carrying(events: map<Name, SkeletonEvent>, fields: map<Name, SkeletonField>, cargo: map<Name, Cargo>,
                           fieldCargo: map<Name, FieldCargo>)
    reads events.Values`binding, events.Values`offered,
          fields.Values`event, fields.Values`prepared, fields.Values`initial,
          fields.Values`history
  {
    CargoOf(events) == cargo && FieldCargoOf(fields) == fieldCargo
  }

  /** The state at the end, told before. */
  ghost predicate CameTrue(fc: Forecast, names: Names, s: Skeleton, w: World)
    reads *
  {
    && NamesOf(w.skeletons) == names
    && (Linked(s) <==> fc.eventsFollow && fc.fieldsFollow)
    && (forall t :: t in fc.linked ==> (Linked(t) <==> t in fc.noEvent && t in fc.noField && t in fc.notRegistered))
  }

  lemma IsTold(fc: Forecast, names: Names, s: Skeleton, events: map<Name, SkeletonEvent>,
               fields: map<Name, SkeletonField>, w: World)
    requires Sound(w) && s in w.skeletons && fc.linked <= w.skeletons && s !in fc.linked
    requires forall n :: n in events ==> events[n].skeleton in w.skeletons
    requires forall n :: n in fields ==> fields[n].skeleton in w.skeletons
    requires EventsTold(fc, s, EventMapsOf(w.skeletons), RefsOf(events))
    requires FieldsTold(fc, s, FieldMapsOf(w.skeletons), FieldRefsOf(fields))
    requires ReferencesTold(fc) && NamesOf(w.skeletons) == names
    ensures Told(fc, names, s, events, fields, w)
  {
  }

  twostate predicate StillCarrying(events: map<Name, SkeletonEvent>, fields: map<Name, SkeletonField>,
                                   cargo: map<Name, Cargo>, fieldCargo: map<Name, FieldCargo>)
    requires old(Carrying(events, fields, cargo, fieldCargo))
    requires forall n :: n in events ==> Load(events[n]) == old(Load(events[n]))
    requires forall n :: n in fields ==> FieldLoad(fields[n]) == old(FieldLoad(fields[n]))
    reads events.Values, fields.Values
    ensures Carrying(events, fields, cargo, fieldCargo)
  {
    true
  }

  method MoveBaseWithCargo(other: Skeleton, ghost cargo: map<Name, Cargo>, ghost fieldCargo: map<Name, FieldCargo>,
                           ghost w: World) returns (s: Skeleton, ghost w': World)
    requires Carrying(other.ownEvents, other.ownFields, cargo, fieldCargo)
    requires Sound(w) && other in w.skeletons && RegisteredExist(other, w)
    modifies other`binding, other`events, other`fields, other`serviceOffered, w.roots`owner,
             w.events`skeleton, w.fields`skeleton
    ensures fresh(s) && w' == w.(skeletons := w.skeletons + {s}) && Sound(w')
    ensures s.ownEvents == map[] && s.ownFields == map[] && Emptied(other)
    ensures s.binding == old(other.binding) && s.serviceOffered == old(other.serviceOffered)
    ensures BaseMoved(s, other, null, w, w'.skeletons)
    ensures Carrying(other.ownEvents, other.ownFields, cargo, fieldCargo)
    ensures Rebased(s, other, w)
  {
    hide Sound, Carrying, Rebased;
    s, w' := MoveBaseIn(other, w);
    assert StillCarrying(other.ownEvents, other.ownFields, cargo, fieldCargo);
  }

  twostate predicate BaseTold(new s: Skeleton, other: Skeleton, to: Skeleton?, w: World, new w': World,
                              events: map<Name, SkeletonEvent>, fields: map<Name, SkeletonField>, fc: Forecast,
                              new names: Names)
    requires old(Sound(w)) && Sound(w') && BaseMoved(s, other, to, w, w'.skeletons)
    requires forall n :: n in events ==> events[n] in w.events && old(events[n].skeleton) in w.skeletons
    requires forall n :: n in fields ==> fields[n] in w.fields && old(fields[n].skeleton) in w.skeletons
    requires forall t :: t in w.skeletons ==> t.ownEvents == old(t.ownEvents) && t.ownFields == old(t.ownFields)
    requires fc == old(ForecastOf(events, fields, other, to, w)) && names == NamesOf(w'.skeletons)
    requires s in w'.skeletons && other in w.skeletons && fc.linked <= w'.skeletons && s !in fc.linked
    reads *
    ensures Told(fc, names, s, events, fields, w')
  {
    assert EventsForetold(s, other, to, w, w'.skeletons, events, fields);
    assert FieldsForetold(s, other, to, w, w'.skeletons, events, fields);
    assert ReferencesForetold(s, other, to, w, w'.skeletons, events, fields);
    IsTold(fc, names, s, events, fields, w');
    true
  }

  /** The base, with all it means for what follows. */
  method MoveBaseTold(other: Skeleton, ghost fc: Forecast, ghost cargo: map<Name, Cargo>,
                      ghost fieldCargo: map<Name, FieldCargo>, ghost names: Names, ghost w: World)
      returns (s: Skeleton, ghost w': World)
    requires Sound(w) && other in w.skeletons && Followable(other.ownEvents, other.ownFields, other, w)
    requires fc == ForecastOf(other.ownEvents, other.ownFields, other, null, w) && names == NamesOf(w.skeletons)
    requires Carrying(other.ownEvents, other.ownFields, cargo, fieldCargo)
    modifies other`binding, other`events, other`fields, other`serviceOffered, w.roots`owner,
             w.events`skeleton, w.fields`skeleton
    ensures fresh(s) && w' == w.(skeletons := w.skeletons + {s})
    ensures s.ownEvents == map[] && s.ownFields == map[] && Emptied(other)
    ensures s.binding == old(other.binding) && s.serviceOffered == old(other.serviceOffered)
    ensures Told(fc, PassedOn(names, s, other), s, other.ownEvents, other.ownFields, w')
    ensures Carrying(other.ownEvents, other.ownFields, cargo, fieldCargo)
    ensures Rebased(s, other, w)
  {
    hide Sound, EventMapsOf, RefsOf, FieldMapsOf, FieldRefsOf, EventsTold, FieldsTold, ReferencesTold, ForecastOf,
         NamesOf, Told, BaseMoved, Rebased, Carrying, CargoOf, FieldCargoOf;
    LinkedOnes(other.ownEvents, other.ownFields, other, null, w);
    s, w' := MoveBaseWithCargo(other, cargo, fieldCargo, w);
    assert NamesPassOn(s, other, null, w, w'.skeletons);
    assert BaseTold(s, other, null, w, w', other.ownEvents, other.ownFields, fc, PassedOn(names, s, other));
  }

  /** From there on the links are as told. */
  lemma LinksAsTold(s: Skeleton, w: World, maps: EventMaps, refs: Refs, cargo: map<Name, Cargo>,
                    fieldMaps: FieldMaps, fieldRefs: Refs, fieldCargo: map<Name, FieldCargo>, ts: set<Skeleton>)
    requires Followed(s, w, maps, refs, cargo, fieldMaps, fieldRefs, fieldCargo)
    requires Known(maps, refs, refs.Keys) && Known(fieldMaps, fieldRefs, fieldRefs.Keys)
    requires Sound(w) && s in w.skeletons && ts <= w.skeletons && s !in ts
    requires forall t :: t in ts ==>
               t in maps && maps[t] == t.ownEvents && t in fieldMaps && fieldMaps[t] == t.ownFields
    ensures Linked(s) <==> AllTo(maps, refs, s) && AllTo(fieldMaps, fieldRefs, s)
    ensures forall t :: t in ts ==> (Linked(t) <==> NoneTo(refs, t) && NoneTo(fieldRefs, t) && OwnRefer(t))
  {
    FollowedLinksIff(s, w, maps, refs, cargo, fieldMaps, fieldRefs, fieldCargo);
    hide Followed, Known, AllTo, NoneTo;
    forall t | t in ts ensures Linked(t) <==> NoneTo(refs, t) && NoneTo(fieldRefs, t) && OwnRefer(t) {
      FollowedOthersIff(s, w, maps, refs, cargo, fieldMaps, fieldRefs, fieldCargo, t);
    }
  }

  /** Nothing the members refer to changed. */
  twostate predicate StillTold(fc: Forecast)
    requires old(ReferencesTold(fc))
    requires forall t :: t in fc.linked ==>
               && t.ownEvents == old(t.ownEvents) && t.ownFields == old(t.ownFields)
               && (forall n :: n in t.ownEvents ==> t.ownEvents[n].skeleton == old(t.ownEvents[n].skeleton))
               && (forall n :: n in t.ownFields ==> t.ownFields[n].skeleton == old(t.ownFields[n].skeleton))
    reads *
    ensures ReferencesTold(fc)
  {
    true
  }

  lemma KnownTold(fc: Forecast, s: Skeleton, maps: EventMaps, refs: Refs, fieldMaps: FieldMaps, fieldRefs: Refs)
    requires EventsTold(fc, s, maps, refs) && FieldsTold(fc, s, fieldMaps, fieldRefs)
    ensures Known(maps, refs, refs.Keys) <==> fc.eventsKnown
    ensures Known(fieldMaps, fieldRefs, fieldRefs.Keys) <==> fc.fieldsKnown
  {
  }

  /** What the elements' moves come to is as foretold. */
  lemma AsTold(fc: Forecast, s: Skeleton, w: World, maps: EventMaps, refs: Refs, cargo: map<Name, Cargo>,
               fieldMaps: FieldMaps, fieldRefs: Refs, fieldCargo: map<Name, FieldCargo>,
               names: Names)
    requires Followed(s, w, maps, refs, cargo, fieldMaps, fieldRefs, fieldCargo)
    requires Known(maps, refs, refs.Keys) && Known(fieldMaps, fieldRefs, fieldRefs.Keys)
    requires Sound(w) && s in w.skeletons && fc.linked <= w.skeletons && s !in fc.linked
    requires EventsTold(fc, s, maps, refs) && FieldsTold(fc, s, fieldMaps, fieldRefs) && ReferencesTold(fc)
    requires cargo.Keys == refs.Keys && fieldCargo.Keys == fieldRefs.Keys
    requires names.Keys == w.skeletons == maps.Keys == fieldMaps.Keys
    requires forall t :: t in names ==> names[t] == (maps[t].Keys, fieldMaps[t].Keys)
    ensures Carrying(s.ownEvents, s.ownFields, cargo, fieldCargo) && CameTrue(fc, names, s, w)
  {
    hide Sound, Followed, Known, AllTo, NoneTo, Linked, OwnRefer, CargoOf, FieldCargoOf, NamesOf;
    LinksAsTold(s, w, maps, refs, cargo, fieldMaps, fieldRefs, fieldCargo, fc.linked);
    FollowedCargo(s, w, maps, refs, cargo, fieldMaps, fieldRefs, fieldCargo);
    NamesKept(s, w, maps, refs, cargo, fieldMaps, fieldRefs, fieldCargo, names);
  }

  lemma NamesKept(s: Skeleton, w: World, maps: EventMaps, refs: Refs, cargo: map<Name, Cargo>,
                  fieldMaps: FieldMaps, fieldRefs: Refs, fieldCargo: map<Name, FieldCargo>,
                  names: Names)
    requires Followed(s, w, maps, refs, cargo, fieldMaps, fieldRefs, fieldCargo)
    requires names.Keys == w.skeletons == maps.Keys == fieldMaps.Keys
    requires forall t :: t in names ==> names[t] == (maps[t].Keys, fieldMaps[t].Keys)
    ensures NamesOf(w.skeletons) == names
  {
    forall t | t in w.skeletons ensures NamesOf(w.skeletons)[t] == names[t] {
      assert EventMapsOf(w.skeletons)[t] == t.events && FieldMapsOf(w.skeletons)[t] == t.fields;
    }
  }

  lemma NamesAre(skeletons: set<Skeleton>)
    ensures NamesOf(skeletons).Keys == EventMapsOf(skeletons).Keys == FieldMapsOf(skeletons).Keys == skeletons
    ensures forall t :: t in skeletons ==>
              NamesOf(skeletons)[t] == (EventMapsOf(skeletons)[t].Keys, FieldMapsOf(skeletons)[t].Keys)
  {
  }

  lemma RefsKnown(events: map<Name, SkeletonEvent>, fields: map<Name, SkeletonField>, skeletons: set<Skeleton>)
    requires forall n :: n in events ==> events[n].skeleton in skeletons
    requires forall n :: n in fields ==> fields[n].skeleton in skeletons
    ensures forall n :: n in RefsOf(events) ==> RefsOf(events)[n] in skeletons
    ensures forall n :: n in FieldRefsOf(fields) ==> FieldRefsOf(fields)[n] in skeletons
  {
  }

  /** The moves of the elements change nothing about whom the members of others refer to. */
  method MoveElementsOnly(s: Skeleton, other: Skeleton, ghost fc: Forecast, ghost maps: EventMaps, ghost refs: Refs,
                          ghost cargo: map<Name, Cargo>, ghost fieldMaps: FieldMaps, ghost fieldRefs: Refs,
                          ghost fieldCargo: map<Name, FieldCargo>, ghost w: World)
      returns (terminated: bool, ghost w': World)
    requires Sound(w) && s in w.skeletons && other in w.skeletons && s != other
    requires s.ownEvents == map[] && s.ownFields == map[] && s !in fc.linked && ReferencesTold(fc)
    requires maps == EventMapsOf(w.skeletons) && refs == RefsOf(other.ownEvents) && cargo == CargoOf(other.ownEvents)
    requires fieldMaps == FieldMapsOf(w.skeletons) && fieldRefs == FieldRefsOf(other.ownFields)
    requires fieldCargo == FieldCargoOf(other.ownFields)
    requires (forall n :: n in refs ==> refs[n] in w.skeletons)
    requires (forall n :: n in fieldRefs ==> fieldRefs[n] in w.skeletons)
    modifies w.skeletons`events, w.skeletons`fields, s`ownEvents, s`ownFields,
             EventsOf(other, w)`binding, EventsOf(other, w)`offered,
             FieldsOf(other, w)`event, FieldsOf(other, w)`initial, w.events`holder, w.bindings`owner
    ensures Sound(w') && w' == w.(events := w'.events, fields := w'.fields)
    ensures w.events <= w'.events && fresh(w'.events - w.events)
    ensures w.fields <= w'.fields && fresh(w'.fields - w.fields)
    ensures terminated <==> !Known(maps, refs, refs.Keys) || !Known(fieldMaps, fieldRefs, fieldRefs.Keys)
    ensures !terminated ==> Followed(s, w', maps, refs, cargo, fieldMaps, fieldRefs, fieldCargo)
    ensures ReferencesTold(fc)
  {
    hide Sound, Followed, Known, EventMapsOf, RefsOf, CargoOf, FieldMapsOf, FieldRefsOf, FieldCargoOf, ReferencesTold,
         EventsOf, FieldsOf;
    terminated, w' := MoveElements(s, other, maps, refs, cargo, fieldMaps, fieldRefs, fieldCargo, w);
    assert StillTold(fc);
  }

  /** The elements follow, and all is as foretold. */
  method MoveElementsTold(s: Skeleton, other: Skeleton, ghost fc: Forecast, ghost names: Names,
                          ghost cargo: map<Name, Cargo>, ghost fieldCargo: map<Name, FieldCargo>, ghost w: World)
      returns (terminated: bool, ghost w': World)
    requires Told(fc, names, s, other.ownEvents, other.ownFields, w) && other in w.skeletons && s != other
    requires s.ownEvents == map[] && s.ownFields == map[]
    requires Carrying(other.ownEvents, other.ownFields, cargo, fieldCargo)
    modifies w.skeletons`events, w.skeletons`fields, s`ownEvents, s`ownFields,
             EventsOf(other, w)`binding, EventsOf(other, w)`offered,
             FieldsOf(other, w)`event, FieldsOf(other, w)`initial, w.events`holder, w.bindings`owner
    ensures Sound(w') && w' == w.(events := w'.events, fields := w'.fields)
    ensures w.events <= w'.events && fresh(w'.events - w.events)
    ensures w.fields <= w'.fields && fresh(w'.fields - w.fields)
    ensures terminated <==> !fc.eventsKnown || !fc.fieldsKnown
    ensures !terminated ==> Carrying(s.ownEvents, s.ownFields, cargo, fieldCargo) && CameTrue(fc, names, s, w')
  {
    hide NamesOf, Sound, Followed, Known, EventMapsOf, RefsOf, CargoOf, FieldMapsOf, FieldRefsOf, FieldCargoOf,
         Linked, EventsTold, FieldsTold, ReferencesTold, EventsOf, FieldsOf, CameTrue;
    ghost var maps, refs := EventMapsOf(w.skeletons), RefsOf(other.ownEvents);
    ghost var fieldMaps, fieldRefs := FieldMapsOf(w.skeletons), FieldRefsOf(other.ownFields);
    RefsKnown(other.ownEvents, other.ownFields, w.skeletons);
    NamesAre(w.skeletons);
    KnownTold(fc, s, maps, refs, fieldMaps, fieldRefs);
    terminated, w' := MoveElementsOnly(s, other, fc, maps, refs, cargo, fieldMaps, fieldRefs, fieldCargo, w);
    if !terminated {
      AsTold(fc, s, w', maps, refs, cargo, fieldMaps, fieldRefs, fieldCargo, names);
    }
  }

  /** Base and elements. */
  method MoveBoth(other: Skeleton, ghost fc: Forecast, ghost names: Names, ghost cargo: map<Name, Cargo>,
                  ghost fieldCargo: map<Name, FieldCargo>, ghost w: World)
      returns (terminated: bool, s: Skeleton, ghost w': World)
    requires Sound(w) && other in w.skeletons && Followable(other.ownEvents, other.ownFields, other, w)
    requires fc == ForecastOf(other.ownEvents, other.ownFields, other, null, w) && names == NamesOf(w.skeletons)
    requires Carrying(other.ownEvents, other.ownFields, cargo, fieldCargo)
    modifies w.skeletons`events, w.skeletons`fields, other`binding, other`serviceOffered, w.roots`owner,
             w.events`skeleton, w.fields`skeleton, EventsOf(other, w)`binding, EventsOf(other, w)`offered,
             FieldsOf(other, w)`event, FieldsOf(other, w)`initial, w.events`holder, w.bindings`owner
    ensures Sound(w') && fresh(s) && w' == w.(skeletons := w.skeletons + {s}, events := w'.events, fields := w'.fields)
    ensures w.events <= w'.events && fresh(w'.events - w.events)
    ensures w.fields <= w'.fields && fresh(w'.fields - w.fields)
    ensures terminated <==> !fc.eventsKnown || !fc.fieldsKnown
    ensures other.binding == null && !other.serviceOffered
    ensures s.binding == old(other.binding) && s.serviceOffered == old(other.serviceOffered)
    ensures !terminated ==>
              && Carrying(s.ownEvents, s.ownFields, cargo, fieldCargo)
              && CameTrue(fc, PassedOn(names, s, other), s, w')
    ensures Rebased(s, other, w)
  {
    hide Sound, Followable, ForecastOf, NamesOf, Carrying, Told, CameTrue, EventsOf, FieldsOf, PassedOn, Rebased;
    s, w' := MoveBaseTold(other, fc, cargo, fieldCargo, names, w);
    SameElements(other, w, w');
    terminated, w' := MoveElementsTold(s, other, fc, PassedOn(names, s, other), cargo, fieldCargo, w');
  }

  lemma SameElements(other: Skeleton, w: World, w': World)
    requires w'.events == w.events && w'.fields == w.fields
    ensures EventsOf(other, w') == EventsOf(other, w) && FieldsOf(other, w') == FieldsOf(other, w)
  {
  }

  twostate predicate NamesAsForetold(new s: Skeleton, other: Skeleton, skeletons: set<Skeleton>,
                                     new skeletons': set<Skeleton>)
    requires other in skeletons && skeletons' == skeletons + {s} && s != other
    requires NamesOf(skeletons') == PassedOn(old(NamesOf(skeletons)), s, other)
    reads *
    ensures other.events == map[] && other.fields == map[]
    ensures forall t :: t in skeletons && t != other && t != s ==>
              t.events.Keys == old(t.events.Keys) && t.fields.Keys == old(t.fields.Keys)
  {
    assert NamesOf(skeletons')[other] == ({}, {});
    assert forall t :: t in skeletons && t != other && t != s ==> NamesOf(skeletons')[t] == old(NamesOf(skeletons))[t];
    true
  }

  twostate predicate AllCame(new s: Skeleton, other: Skeleton, cargo: map<Name, Cargo>, fieldCargo: map<Name,
                             FieldCargo>)
    requires Emptied(other) && s.binding == old(other.binding) && s.serviceOffered == old(other.serviceOffered)
    requires old(Carrying(other.ownEvents, other.ownFields, cargo, fieldCargo))
    requires Carrying(s.ownEvents, s.ownFields, cargo, fieldCargo)
    reads s, other, s.ownEvents.Values, s.ownFields.Values
    ensures TookOver(s, other)
  {
    true
  }

  /** Move construction of a whole skeleton, whatever state the source is in.  It
      terminates exactly if some element's name is not known to the skeleton that
      will be told.  Otherwise everything the source had comes along; the new
      skeleton has its links exactly if all members will refer to it and were
      registered with the source under just their names; and another skeleton that
      had its links keeps them exactly if the move does not concern it. */
  method MoveConstruct(other: Skeleton, ghost w: World) returns (terminated: bool, s: Skeleton, ghost w': World)
    requires Sound(w) && other in w.skeletons && Followable(other.ownEvents, other.ownFields, other, w)
    modifies w.skeletons`events, w.skeletons`fields, other`binding, other`serviceOffered, w.roots`owner,
             w.events`skeleton, w.fields`skeleton, EventsOf(other, w)`binding, EventsOf(other, w)`offered,
             FieldsOf(other, w)`event, FieldsOf(other, w)`initial, w.events`holder, w.bindings`owner
    ensures Sound(w') && fresh(s) && w' == w.(skeletons := w.skeletons + {s}, events := w'.events, fields := w'.fields)
    ensures w.events <= w'.events && fresh(w'.events - w.events)
    ensures w.fields <= w'.fields && fresh(w'.fields - w.fields)
    ensures terminated <==>
              !old(EventsKnown(other.ownEvents, other, null, w.skeletons)) ||
              !old(FieldsKnown(other.ownFields, other, null, w.skeletons))
    ensures !terminated ==> TookOver(s, other)
    ensures !terminated ==>
              (Linked(s) <==>
                 old(EventsFollow(other.ownEvents, other, null) && FieldsFollow(other.ownFields, other, null)))
    ensures !terminated ==>
              forall t :: t in w.skeletons && t != other && old(Linked(t)) ==>
                (Linked(t) <==> old(LeftAlone(t, other.ownEvents, other.ownFields, other, null)))
    ensures !terminated ==>
              forall t :: t in w.skeletons && t != other ==>
                t.events.Keys == old(t.events.Keys) && t.fields.Keys == old(t.fields.Keys)
    ensures Rebased(s, other, w)
  {
    hide Sound, CargoOf, FieldCargoOf, Carrying, Linked, EventsKnown, FieldsKnown, EventsFollow, FieldsFollow,
         LeftAlone, EventsOf, FieldsOf, Followable, ForecastOf, NamesOf, CameTrue, PassedOn, TookOver, Rebased;
    FollowableRefs(other.ownEvents, other.ownFields, other, w);
    ghost var fc := ForecastOf(other.ownEvents, other.ownFields, other, null, w);
    InWords(fc, other.ownEvents, other.ownFields, other, null, w);
    ghost var names := NamesOf(w.skeletons);
    ghost var cargo, fieldCargo := CargoOf(other.ownEvents), FieldCargoOf(other.ownFields);
    IsCarrying(other.ownEvents, other.ownFields);
    terminated, s, w' := MoveBoth(other, fc, names, cargo, fieldCargo, w);
    if !terminated {
      ItCameTrue(fc, PassedOn(names, s, other), s, w');
      assert NamesAsForetold(s, other, w.skeletons, w'.skeletons);
      assert AllCame(s, other, cargo, fieldCargo);
    }
  }

  lemma FollowableRefs(events: map<Name, SkeletonEvent>, fields: map<Name, SkeletonField>, other: Skeleton, w: World)
    requires Followable(events, fields, other, w)
    ensures forall n :: n in events ==> events[n].skeleton in w.skeletons
    ensures forall n :: n in fields ==> fields[n].skeleton in w.skeletons
  {
  }

  /** The forecast in words. */
  lemma InWords(fc: Forecast, events: map<Name, SkeletonEvent>, fields: map<Name, SkeletonField>, other: Skeleton,
                to: Skeleton?, w: World)
    requires forall n :: n in events ==> events[n].skeleton in w.skeletons
    requires forall n :: n in fields ==> fields[n].skeleton in w.skeletons
    requires fc == ForecastOf(events, fields, other, to, w)
    ensures fc.eventsKnown <==> EventsKnown(events, other, to, w.skeletons)
    ensures fc.fieldsKnown <==> FieldsKnown(fields, other, to, w.skeletons)
    ensures fc.eventsFollow <==> EventsFollow(events, other, to)
    ensures fc.fieldsFollow <==> FieldsFollow(fields, other, to)
    ensures forall t :: t in fc.linked <==> t in w.skeletons && t != other && t != to && Linked(t)
    ensures forall t :: t in fc.linked ==>
              (t in fc.noEvent && t in fc.noField && t in fc.notRegistered <==> LeftAlone(t, events, fields, other, to))
  {
    hide Linked, NoEventTells, NoFieldTells, NotRegistered, EventsKnown, FieldsKnown, EventsFollow, FieldsFollow;
  }

  lemma IsCarrying(events: map<Name, SkeletonEvent>, fields: map<Name, SkeletonField>)
    ensures Carrying(events, fields, CargoOf(events), FieldCargoOf(fields))
  {
  }

  lemma ItCameTrue(fc: Forecast, names: Names, s: Skeleton, w: World)
    requires CameTrue(fc, names, s, w)
    ensures NamesOf(w.skeletons) == names
    ensures Linked(s) <==> fc.eventsFollow && fc.fieldsFollow
    ensures forall t :: t in fc.linked ==>
              (Linked(t) <==> t in fc.noEvent && t in fc.noField && t in fc.notRegistered)
  {
  }

  // ----- the same for an assignment

  method AssignEventsOnly(s: Skeleton, other: Skeleton, ghost maps: EventMaps, ghost refs: Refs,
                          ghost cargo: map<Name, Cargo>, ghost w: World) returns (terminated: bool)
    requires Sound(w) && s in w.skeletons && other in w.skeletons && s != other
    requires s.ownEvents.Keys == other.ownEvents.Keys
    requires maps == EventMapsOf(w.skeletons) && refs == RefsOf(s.ownEvents) && cargo == CargoOf(other.ownEvents)
    requires forall n :: n in refs ==> refs[n] in w.skeletons
    modifies w.skeletons`events, EventsOf(s, w)`binding, EventsOf(s, w)`offered,
             EventsOf(other, w)`binding, EventsOf(other, w)`offered, w.bindings`offered, w.bindings`owner
    ensures Sound(w)
    ensures terminated <==> !Known(maps, refs, refs.Keys)
    ensures !terminated ==> Assigning(s, other, {}, maps, refs, cargo, w.skeletons)
    ensures FieldMapsOf(w.skeletons) == old(FieldMapsOf(w.skeletons))
    ensures FieldRefsOf(other.ownFields) == old(FieldRefsOf(other.ownFields))
    ensures FieldCargoOf(other.ownFields) == old(FieldCargoOf(other.ownFields))
  {
    hide Sound, Assigning, EventMapsOf, RefsOf, CargoOf, FieldMapsOf, FieldRefsOf, FieldCargoOf, Known, EventsOf;
    terminated := AssignEvents(s, other, maps, refs, cargo, w);
    assert FieldsUntouched(other, w);
  }

  lemma EventsAssigned(s: Skeleton, other: Skeleton, maps: EventMaps, refs: Refs, cargo: map<Name, Cargo>,
                       skeletons: set<Skeleton>)
    requires Assigning(s, other, {}, maps, refs, cargo, skeletons)
    requires cargo.Keys == refs.Keys == s.ownEvents.Keys
    ensures CargoOf(s.ownEvents) == cargo && RefsOf(s.ownEvents) == refs
    ensures Replaced(EventMapsOf(skeletons), maps, s.ownEvents, refs, refs.Keys)
  {
    hide Replaced, EventMapsOf;
    assert s.ownEvents.Keys - {} == refs.Keys;
  }

  lemma AllAssigned(s: Skeleton, other: Skeleton, w: World, maps: EventMaps, refs: Refs, cargo: map<Name, Cargo>,
                    fieldMaps: FieldMaps, fieldRefs: Refs, fieldCargo: map<Name, FieldCargo>)
    requires Sound(w) && s in w.skeletons && CargoOf(s.ownEvents) == cargo && RefsOf(s.ownEvents) == refs
    requires Replaced(EventMapsOf(w.skeletons), maps, s.ownEvents, refs, refs.Keys)
    requires FieldsAssigning(s.ownFields, EntriesOf(s.ownFields), EntriesOf(other.ownFields), FieldMapsOf(w.skeletons),
                             {}, fieldMaps, fieldRefs, fieldCargo)
    requires fieldRefs.Keys == s.ownFields.Keys
    ensures Followed(s, w, maps, refs, cargo, fieldMaps, fieldRefs, fieldCargo)
  {
    forall n | n in s.ownEvents ensures s.ownEvents[n].name == n { Members(w, s, n); }
    hide Sound, Replaced, EventMapsOf, FieldMapsOf;
    assert s.ownFields.Keys - {} == fieldRefs.Keys;
  }

  twostate predicate SameRefs(m: map<Name, SkeletonEvent>)
    requires forall n :: n in m ==> m[n].skeleton == old(m[n].skeleton)
    reads m.Values`skeleton
    ensures RefsOf(m) == old(RefsOf(m))
  {
    true
  }

  method AssignFieldsToo(s: Skeleton, other: Skeleton, ghost maps: EventMaps, ghost refs: Refs,
                         ghost cargo: map<Name, Cargo>, ghost fieldMaps: FieldMaps, ghost fieldRefs: Refs,
                         ghost fieldCargo: map<Name, FieldCargo>, ghost w: World) returns (terminated: bool)
    requires Sound(w) && s in w.skeletons && other in w.skeletons && s != other
    requires s.ownFields.Keys == other.ownFields.Keys && cargo.Keys == refs.Keys == s.ownEvents.Keys
    requires Assigning(s, other, {}, maps, refs, cargo, w.skeletons)
    requires fieldMaps == FieldMapsOf(w.skeletons) && fieldRefs == FieldRefsOf(other.ownFields)
    requires fieldCargo == FieldCargoOf(other.ownFields) && forall n :: n in fieldRefs ==> fieldRefs[n] in w.skeletons
    modifies w.skeletons`fields, FieldsOf(s, w), FieldsOf(other, w)`event, FieldsOf(other, w)`initial,
             w.events`holder, w.events`binding, w.events`offered, w.bindings`offered, w.bindings`owner
    ensures Sound(w)
    ensures terminated <==> !Known(fieldMaps, fieldRefs, fieldRefs.Keys)
    ensures !terminated ==> Followed(s, w, maps, refs, cargo, fieldMaps, fieldRefs, fieldCargo)
  {
    hide Sound, Assigning, FieldsAssigning, EventMapsOf, RefsOf, CargoOf, FieldMapsOf, FieldRefsOf, FieldCargoOf, Known,
         Followed, FieldsOf, Replaced;
    EventsAssigned(s, other, maps, refs, cargo, w.skeletons);
    terminated := AssignFields(s, other, fieldMaps, fieldRefs, fieldCargo, w);
    if !terminated {
      assert SameRefs(s.ownEvents);
      AllAssigned(s, other, w, maps, refs, cargo, fieldMaps, fieldRefs, fieldCargo);
    }
  }

  /** The derived class's members are assigned to one after the other, after the base. */
  method AssignElements(s: Skeleton, other: Skeleton, ghost maps: EventMaps, ghost refs: Refs,
                        ghost cargo: map<Name, Cargo>, ghost fieldMaps: FieldMaps, ghost fieldRefs: Refs,
                        ghost fieldCargo: map<Name, FieldCargo>, ghost w: World) returns (terminated: bool)
    requires Sound(w) && s in w.skeletons && other in w.skeletons && s != other
    requires s.ownEvents.Keys == other.ownEvents.Keys && s.ownFields.Keys == other.ownFields.Keys
    requires maps == EventMapsOf(w.skeletons) && refs == RefsOf(s.ownEvents) && cargo == CargoOf(other.ownEvents)
    requires fieldMaps == FieldMapsOf(w.skeletons) && fieldRefs == FieldRefsOf(other.ownFields)
    requires fieldCargo == FieldCargoOf(other.ownFields)
    requires (forall n :: n in refs ==> refs[n] in w.skeletons)
    requires (forall n :: n in fieldRefs ==> fieldRefs[n] in w.skeletons)
    modifies w.skeletons`events, w.skeletons`fields, FieldsOf(s, w), FieldsOf(other, w)`event,
             FieldsOf(other, w)`initial,
             w.events`holder, w.events`binding, w.events`offered, w.bindings`offered, w.bindings`owner
    ensures Sound(w)
    ensures terminated <==> !Known(maps, refs, refs.Keys) || !Known(fieldMaps, fieldRefs, fieldRefs.Keys)
    ensures !terminated ==> Followed(s, w, maps, refs, cargo, fieldMaps, fieldRefs, fieldCargo)
  {
    hide Sound, Assigning, EventMapsOf, RefsOf, CargoOf, FieldMapsOf, FieldRefsOf, FieldCargoOf, Known, Followed,
         FieldsOf;
    terminated := AssignEventsOnly(s, other, maps, refs, cargo, w);
    if !terminated {
      terminated := AssignFieldsToo(s, other, maps, refs, cargo, fieldMaps, fieldRefs, fieldCargo, w);
    }
  }

  twostate predicate StillToldApart(fc: Forecast, s: Skeleton, w: World)
    requires old(Sound(w)) && s !in fc.linked && fc.linked <= w.skeletons && old(ReferencesTold(fc))
    requires forall t :: t in w.skeletons ==> t.ownEvents == old(t.ownEvents) && t.ownFields == old(t.ownFields)
    requires forall e :: e in w.events ==> e.skeleton == old(e.skeleton)
    requires forall f :: f in w.fields && f.home != s ==> f.skeleton == old(f.skeleton)
    reads *
    ensures ReferencesTold(fc)
  {
    assert forall t, n :: t in fc.linked && n in t.ownEvents ==> t.ownEvents[n] in w.events;
    assert forall t, n :: t in fc.linked && n in t.ownFields ==> t.ownFields[n] in w.fields && t.ownFields[n].home == t;
    assert StillTold(fc);
    true
  }

  method AssignElementsOnly(s: Skeleton, other: Skeleton, ghost fc: Forecast, ghost maps: EventMaps, ghost refs: Refs,
                            ghost cargo: map<Name, Cargo>, ghost fieldMaps: FieldMaps, ghost fieldRefs: Refs,
                            ghost fieldCargo: map<Name, FieldCargo>, ghost w: World) returns (terminated: bool)
    requires Sound(w) && s in w.skeletons && other in w.skeletons && s != other
    requires s.ownEvents.Keys == other.ownEvents.Keys && s.ownFields.Keys == other.ownFields.Keys
    requires s !in fc.linked && fc.linked <= w.skeletons && ReferencesTold(fc)
    requires maps == EventMapsOf(w.skeletons) && refs == RefsOf(s.ownEvents) && cargo == CargoOf(other.ownEvents)
    requires fieldMaps == FieldMapsOf(w.skeletons) && fieldRefs == FieldRefsOf(other.ownFields)
    requires fieldCargo == FieldCargoOf(other.ownFields)
    requires (forall n :: n in refs ==> refs[n] in w.skeletons)
    requires (forall n :: n in fieldRefs ==> fieldRefs[n] in w.skeletons)
    modifies w.skeletons`events, w.skeletons`fields, FieldsOf(s, w), FieldsOf(other, w)`event,
             FieldsOf(other, w)`initial,
             w.events`holder, w.events`binding, w.events`offered, w.bindings`offered, w.bindings`owner
    ensures Sound(w) && ReferencesTold(fc)
    ensures terminated <==> !Known(maps, refs, refs.Keys) || !Known(fieldMaps, fieldRefs, fieldRefs.Keys)
    ensures !terminated ==> Followed(s, w, maps, refs, cargo, fieldMaps, fieldRefs, fieldCargo)
  {
    hide Sound, Followed, Known, EventMapsOf, RefsOf, CargoOf, FieldMapsOf, FieldRefsOf, FieldCargoOf, ReferencesTold;
    terminated := AssignElements(s, other, maps, refs, cargo, fieldMaps, fieldRefs, fieldCargo, w);
    assert StillToldApart(fc, s, w);
  }

  /** The elements follow, and all is as foretold. */
  method AssignElementsTold(s: Skeleton, other: Skeleton, ghost fc: Forecast, ghost names: Names,
                            ghost cargo: map<Name, Cargo>, ghost fieldCargo: map<Name, FieldCargo>, ghost w: World)
      returns (terminated: bool)
    requires Told(fc, names, s, s.ownEvents, other.ownFields, w) && other in w.skeletons && s != other
    requires s.ownEvents.Keys == other.ownEvents.Keys && s.ownFields.Keys == other.ownFields.Keys
    requires Carrying(other.ownEvents, other.ownFields, cargo, fieldCargo)
    modifies w.skeletons`events, w.skeletons`fields, FieldsOf(s, w), FieldsOf(other, w)`event,
             FieldsOf(other, w)`initial,
             w.events`holder, w.events`binding, w.events`offered, w.bindings`offered, w.bindings`owner
    ensures Sound(w)
    ensures terminated <==> !fc.eventsKnown || !fc.fieldsKnown
    ensures !terminated ==> Carrying(s.ownEvents, s.ownFields, cargo, fieldCargo) && CameTrue(fc, names, s, w)
  {
    hide NamesOf, Sound, Followed, Known, EventMapsOf, RefsOf, CargoOf, FieldMapsOf, FieldRefsOf, FieldCargoOf,
         Linked, EventsTold, FieldsTold, ReferencesTold, FieldsOf, CameTrue;
    ghost var maps, refs := EventMapsOf(w.skeletons), RefsOf(s.ownEvents);
    ghost var fieldMaps, fieldRefs := FieldMapsOf(w.skeletons), FieldRefsOf(other.ownFields);
    RefsKnown(s.ownEvents, other.ownFields, w.skeletons);
    NamesAre(w.skeletons);
    KnownTold(fc, s, maps, refs, fieldMaps, fieldRefs);
    terminated := AssignElementsOnly(s, other, fc, maps, refs, cargo, fieldMaps, fieldRefs, fieldCargo, w);
    if !terminated {
      AsTold(fc, s, w, maps, refs, cargo, fieldMaps, fieldRefs, fieldCargo, names);
    }
  }

  method AssignBaseMoved(s: Skeleton, other: Skeleton, ghost w: World)
    requires Sound(w) && s in w.skeletons && other in w.skeletons && s != other && RegisteredExist(other, w)
    modifies s`binding, s`events, s`fields, s`serviceOffered, w.roots`prepared, w.roots`owner,
             other`binding, other`events, other`fields, other`serviceOffered, w.events`skeleton, w.fields`skeleton
    ensures Sound(w) && Emptied(other) && BaseMoved(s, other, s, w, w.skeletons)
    ensures s.binding == old(other.binding) && s.serviceOffered == old(other.serviceOffered)
    ensures StoppedOnly(s, w.roots)
  {
    hide Sound, StoppedOnly, Rebased;
    AssignBaseIn(s, other, w);
    assert w.skeletons == w.skeletons + {s};
  }

  method AssignBaseWithCargo(s: Skeleton, other: Skeleton, ghost cargo: map<Name, Cargo>,
                             ghost fieldCargo: map<Name, FieldCargo>, ghost w: World)
    requires Carrying(other.ownEvents, other.ownFields, cargo, fieldCargo)
    requires Sound(w) && s in w.skeletons && other in w.skeletons && s != other && RegisteredExist(other, w)
    modifies s`binding, s`events, s`fields, s`serviceOffered, w.roots`prepared, w.roots`owner,
             other`binding, other`events, other`fields, other`serviceOffered, w.events`skeleton, w.fields`skeleton
    ensures Sound(w) && Emptied(other) && BaseMoved(s, other, s, w, w.skeletons)
    ensures s.binding == old(other.binding) && s.serviceOffered == old(other.serviceOffered)
    ensures Carrying(other.ownEvents, other.ownFields, cargo, fieldCargo)
    ensures StoppedOnly(s, w.roots)
  {
    hide Sound, StoppedOnly, Carrying, BaseMoved;
    AssignBaseMoved(s, other, w);
    assert StillCarrying(other.ownEvents, other.ownFields, cargo, fieldCargo);
  }

  /** The base of the target, with all it means for what follows. */
  method AssignBaseTold(s: Skeleton, other: Skeleton, ghost fc: Forecast, ghost cargo: map<Name, Cargo>,
                        ghost fieldCargo: map<Name, FieldCargo>, ghost names: Names, ghost w: World)
    requires Sound(w) && s in w.skeletons && other in w.skeletons && s != other
    requires Followable(s.ownEvents, other.ownFields, other, w)
    requires fc == ForecastOf(s.ownEvents, other.ownFields, other, s, w) && names == NamesOf(w.skeletons)
    requires Carrying(other.ownEvents, other.ownFields, cargo, fieldCargo)
    modifies s`binding, s`events, s`fields, s`serviceOffered, w.roots`prepared, w.roots`owner,
             other`binding, other`events, other`fields, other`serviceOffered, w.events`skeleton, w.fields`skeleton
    ensures Emptied(other) && s.binding == old(other.binding) && s.serviceOffered == old(other.serviceOffered)
    ensures Told(fc, PassedOn(names, s, other), s, s.ownEvents, other.ownFields, w)
    ensures Carrying(other.ownEvents, other.ownFields, cargo, fieldCargo)
    ensures StoppedOnly(s, w.roots)
  {
    hide Sound, StoppedOnly, EventMapsOf, RefsOf, FieldMapsOf, FieldRefsOf, EventsTold, FieldsTold, ReferencesTold,
         ForecastOf,
         NamesOf, Told, BaseMoved, Carrying, CargoOf, FieldCargoOf;
    LinkedOnes(s.ownEvents, other.ownFields, other, s, w);
    AssignBaseWithCargo(s, other, cargo, fieldCargo, w);
    assert NamesPassOn(s, other, s, w, w.skeletons);
    assert BaseTold(s, other, s, w, w, s.ownEvents, other.ownFields, fc, PassedOn(names, s, other));
  }

  /** Base and elements. */
  method AssignBoth(s: Skeleton, other: Skeleton, ghost fc: Forecast, ghost names: Names, ghost cargo: map<Name, Cargo>,
                    ghost fieldCargo: map<Name, FieldCargo>, ghost w: World) returns (terminated: bool)
    requires Sound(w) && s in w.skeletons && other in w.skeletons && s != other
    requires s.ownEvents.Keys == other.ownEvents.Keys && s.ownFields.Keys == other.ownFields.Keys
    requires Followable(s.ownEvents, other.ownFields, other, w)
    requires fc == ForecastOf(s.ownEvents, other.ownFields, other, s, w) && names == NamesOf(w.skeletons)
    requires Carrying(other.ownEvents, other.ownFields, cargo, fieldCargo)
    modifies w.skeletons`events, w.skeletons`fields, s`binding, s`serviceOffered, other`binding, other`serviceOffered,
             w.roots`prepared, w.roots`owner, w.events`skeleton, w.fields`skeleton,
             FieldsOf(s, w), FieldsOf(other, w)`event, FieldsOf(other, w)`initial,
             w.events`holder, w.events`binding, w.events`offered, w.bindings`offered, w.bindings`owner
    ensures Sound(w)
    ensures terminated <==> !fc.eventsKnown || !fc.fieldsKnown
    ensures other.binding == null && !other.serviceOffered
    ensures s.binding == old(other.binding) && s.serviceOffered == old(other.serviceOffered)
    ensures !terminated ==>
              && Carrying(s.ownEvents, s.ownFields, cargo, fieldCargo)
              && CameTrue(fc, PassedOn(names, s, other), s, w)
    ensures StoppedOnly(s, w.roots)
  {
    hide Sound, StoppedOnly, Followable, ForecastOf, NamesOf, Carrying, Told, CameTrue, EventsOf, FieldsOf, PassedOn;
    AssignBaseTold(s, other, fc, cargo, fieldCargo, names, w);
    terminated := AssignElementsTold(s, other, fc, PassedOn(names, s, other), cargo, fieldCargo, w);
  }

  /** Move assignment of a whole skeleton into another of its class.  The target's
      events keep whom they refer to, its fields take that over from the source, so
      the target's events and the source's fields decide: it terminates exactly if
      one of their names is not known to the skeleton that will be told.  Otherwise
      everything the source had comes along; the target has its links exactly if
      those elements will refer to it and were registered with the source under
      just their names; and a third skeleton that had its links keeps them exactly
      if the assignment does not concern it.  Assigning a skeleton to itself leaves
      it as it is. */
  method MoveAssign(s: Skeleton, other: Skeleton, ghost w: World) returns (terminated: bool)
    requires Sound(w) && s in w.skeletons && other in w.skeletons
    requires s.ownEvents.Keys == other.ownEvents.Keys && s.ownFields.Keys == other.ownFields.Keys
    requires Followable(s.ownEvents, other.ownFields, other, w)
    modifies w.skeletons`events, w.skeletons`fields, s`binding, s`serviceOffered, other`binding, other`serviceOffered,
             w.roots`prepared, w.roots`owner, w.events`skeleton, w.fields`skeleton,
             FieldsOf(s, w), FieldsOf(other, w)`event, FieldsOf(other, w)`initial,
             w.events`holder, w.events`binding, w.events`offered, w.bindings`offered, w.bindings`owner
    ensures Sound(w)
    ensures s == other ==>
              && !terminated && s.binding == old(s.binding) && s.serviceOffered == old(s.serviceOffered)
              && CargoOf(s.ownEvents) == old(CargoOf(s.ownEvents))
              && FieldCargoOf(s.ownFields) == old(FieldCargoOf(s.ownFields))
              && forall t :: t in w.skeletons ==> Linked(t) == old(Linked(t))
    ensures s != other ==>
              (terminated <==> !old(EventsKnown(s.ownEvents, other, s, w.skeletons)) ||
                               !old(FieldsKnown(other.ownFields, other, s, w.skeletons)))
    ensures s != other && !terminated ==>
              && TookOver(s, other)
              && (Linked(s) <==> old(EventsFollow(s.ownEvents, other, s) && FieldsFollow(other.ownFields, other, s)))
    ensures s != other && !terminated ==>
              forall t :: t in w.skeletons && t != s && t != other ==>
                && (old(Linked(t)) ==> (Linked(t) <==> old(LeftAlone(t, s.ownEvents, other.ownFields, other, s))))
                && t.events.Keys == old(t.events.Keys) && t.fields.Keys == old(t.fields.Keys)
    ensures s != other ==> StoppedOnly(s, w.roots)
  {
    hide Sound, StoppedOnly, CargoOf, FieldCargoOf, Carrying, Linked, EventsKnown, FieldsKnown, EventsFollow,
         FieldsFollow,
         LeftAlone, EventsOf, FieldsOf, Followable, ForecastOf, NamesOf, CameTrue, PassedOn, TookOver;
    if s == other {
      return false;
    }
    FollowableRefs(s.ownEvents, other.ownFields, other, w);
    ghost var fc := ForecastOf(s.ownEvents, other.ownFields, other, s, w);
    InWords(fc, s.ownEvents, other.ownFields, other, s, w);
    ghost var names := NamesOf(w.skeletons);
    ghost var cargo, fieldCargo := CargoOf(other.ownEvents), FieldCargoOf(other.ownFields);
    IsCarrying(other.ownEvents, other.ownFields);
    terminated := AssignBoth(s, other, fc, names, cargo, fieldCargo, w);
    if !terminated {
      ItCameTrue(fc, PassedOn(names, s, other), s, w);
      assert w.skeletons == w.skeletons + {s};
      assert NamesAsForetold(s, other, w.skeletons, w.skeletons);
      assert AllCame(s, other, cargo, fieldCargo);
    }
  }

  // ----- when the conditions hold

  lemma LinkedParts(s: Skeleton)
    requires Linked(s)
    ensures s.events == s.ownEvents && s.fields == s.ownFields
    ensures forall n :: n in s.ownEvents ==> s.ownEvents[n].skeleton == s
    ensures forall n :: n in s.ownFields ==> s.ownFields[n].skeleton == s
  {
  }

  /** A source with its links can be moved from: nothing terminates, all elements
      follow and nobody else is concerned. */
  lemma LinkedSource(other: Skeleton, w: World)
    requires Sound(w) && other in w.skeletons && Linked(other)
    ensures Followable(other.ownEvents, other.ownFields, other, w)
    ensures EventsKnown(other.ownEvents, other, null, w.skeletons)
    ensures FieldsKnown(other.ownFields, other, null, w.skeletons)
    ensures EventsFollow(other.ownEvents, other, null) && FieldsFollow(other.ownFields, other, null)
    ensures forall t :: t in w.skeletons && t != other && Linked(t) ==>
              LeftAlone(t, other.ownEvents, other.ownFields, other, null)
  {
    forall n | n in other.ownEvents ensures other.ownEvents[n] in w.events { Members(w, other, n); }
    forall n | n in other.ownFields ensures other.ownFields[n] in w.fields { FieldMembers(w, other, n); }
  }

  /** Of the sources that have their links or an empty base, as after a move, just
      those that have their links pass them on.  Otherwise every skeleton some
      element refers to is told of an element that is not its own. */
  lemma OnlyLinkedSourcesPassOn(other: Skeleton, w: World)
    requires Sound(w) && other in w.skeletons && (Linked(other) || Emptied(other))
    requires Followable(other.ownEvents, other.ownFields, other, w)
    ensures EventsFollow(other.ownEvents, other, null) && FieldsFollow(other.ownFields, other, null) <==> Linked(other)
    ensures Emptied(other) ==>
              && (forall n :: n in other.ownEvents ==>
                    !LeftAlone(other.ownEvents[n].skeleton, other.ownEvents, other.ownFields, other, null))
              && (forall n :: n in other.ownFields ==>
                    !LeftAlone(other.ownFields[n].skeleton, other.ownEvents, other.ownFields, other, null))
  {
  }

  /** Each event of `s` refers to it, as after construction and unlike after a move. */
  predicate SelfReferring(s: Skeleton)
    reads s`ownEvents, s.ownEvents.Values`skeleton
  {
    forall n :: n in s.ownEvents ==> s.ownEvents[n].skeleton == s
  }

  /** If the source of an assignment has its links, the target gets them exactly if
      its own events refer to it; then nothing terminates and nobody else is
      concerned.  Otherwise whoever such an event refers to is told of it. */
  lemma AssigningLinked(s: Skeleton, other: Skeleton, w: World)
    requires Sound(w) && s in w.skeletons && other in w.skeletons && s != other && Linked(other)
    requires s.ownEvents.Keys == other.ownEvents.Keys && s.ownFields.Keys == other.ownFields.Keys
    requires forall n :: n in s.ownEvents ==> s.ownEvents[n].skeleton in w.skeletons
    ensures Followable(s.ownEvents, other.ownFields, other, w)
    ensures EventsFollow(s.ownEvents, other, s) && FieldsFollow(other.ownFields, other, s) <==> SelfReferring(s)
    ensures FieldsKnown(other.ownFields, other, s, w.skeletons)
    ensures SelfReferring(s) ==>
              && EventsKnown(s.ownEvents, other, s, w.skeletons)
              && forall t :: t in w.skeletons && t != s && t != other && Linked(t) ==>
                   LeftAlone(t, s.ownEvents, other.ownFields, other, s)
    ensures forall n :: n in s.ownEvents && s.ownEvents[n].skeleton != s ==>
              !LeftAlone(s.ownEvents[n].skeleton, s.ownEvents, other.ownFields, other, s)
  {
    forall n | n in s.ownEvents
      ensures s.ownEvents[n] in w.events && s.ownEvents[n] !in other.events.Values
    {
      Members(w, s, n);
      NoneRegistered(s.ownEvents[n], other, w);
    }
    forall n | n in other.ownEvents ensures other.ownEvents[n] in w.events { Members(w, other, n); }
    forall n | n in other.ownFields ensures other.ownFields[n] in w.fields { FieldMembers(w, other, n); }
    forall t | t in w.skeletons && t != s && t != other && Linked(t) ensures NotRegistered(t, other) {
      forall n | n in t.ownEvents ensures t.ownEvents[n] !in other.events.Values { LinkedParts(other); LinkedParts(t); }
      forall n | n in t.ownFields ensures t.ownFields[n] !in other.fields.Values { LinkedParts(other); LinkedParts(t); }
    }
    hide Sound;
  }

  /** Nobody else's member is registered with a skeleton that has its links. */
  lemma NoneRegistered(e: SkeletonEvent, other: Skeleton, w: World)
    requires Sound(w) && other in w.skeletons && Linked(other) && e in w.events && e.home != other
    ensures e !in other.events.Values
  {
    forall n | n in other.events ensures other.events[n] != e { Members(w, other, n); }
  }
}
