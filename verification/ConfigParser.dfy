/** The configuration parser, its cross-checks and what a parsed configuration
    can be relied on for.  `None` stands for the end of the process. */
module ConfigParser {

  import opened Wrappers
  import opened Json
  import opened Deployments
  import opened ConfigDescription

  // ----- lists that become maps

  /** The entries of a list by their keys, unless one cannot be read or a key comes
      twice. */
  function Collected<K(==), V>(entries: seq<Option<(K, V)>>): Option<map<K, V>>
  {
    if entries == [] then Some(map[])
    else
      var m := Collected(entries[..|entries| - 1]);
      var e := entries[|entries| - 1];
      if m.None? || e.None? || e.value.0 in m.value then None else Some(m.value[e.value.0 := e.value.1])
  }

  ghost predicate Collectable<K, V>(entries: seq<Option<(K, V)>>)
  {
    && (forall k :: 0 <= k < |entries| ==> entries[k].Some?)
    && (forall j, k :: 0 <= j < k < |entries| ==> entries[j].value.0 != entries[k].value.0)
  }

  /** The map holds the entries and nothing else. */
  ghost predicate Holds<K, V>(m: map<K, V>, entries: seq<Option<(K, V)>>)
  {
    && (forall k :: 0 <= k < |entries| && entries[k].Some? ==>
          entries[k].value.0 in m && m[entries[k].value.0] == entries[k].value.1)
    && (forall n :: n in m ==> Some((n, m[n])) in entries)
  }

  lemma {:induction false} CollectedHolds<K, V>(entries: seq<Option<(K, V)>>)
    ensures Collected(entries).Some? <==> Collectable(entries)
    ensures Collected(entries).Some? ==> Holds(Collected(entries).value, entries)
  {
    if entries != [] {
      var front, last := entries[..|entries| - 1], |entries| - 1;
      CollectedHolds(front);
      assert forall k :: 0 <= k < last ==> front[k] == entries[k];
      if Collected(front).Some? && entries[last].Some? {
        var m, n := Collected(front).value, entries[last].value.0;
        if n in m {
          assert Some((n, m[n])) in front;
        } else {
          var m' := m[n := entries[last].value.1];
          forall k | k in m' ensures Some((k, m'[k])) in entries {
            if k == n {
              assert entries[last] == Some((k, m'[k]));
            } else {
              assert Some((k, m[k])) in front;
            }
          }
        }
      }
    }
  }

  lemma HoldsTheSame<K, V>(m: map<K, V>, m': map<K, V>, entries: seq<Option<(K, V)>>)
    requires Collectable(entries) && Holds(m, entries) && Holds(m', entries)
    ensures m == m'
  {
    forall n | n in m ensures n in m' && m'[n] == m[n] {
      var k :| 0 <= k < |entries| && entries[k] == Some((n, m[n]));
    }
    forall n | n in m' ensures n in m {
      var k :| 0 <= k < |entries| && entries[k] == Some((n, m'[n]));
    }
  }

  lemma {:induction false} CollectedFails<K, V>(entries: seq<Option<(K, V)>>, k: nat)
    requires k <= |entries| && Collected(entries[..k]).None?
    ensures Collected(entries).None?
    decreases |entries|
  {
    if k == |entries| {
      assert entries[..k] == entries;
    } else {
      assert entries[..|entries| - 1][..k] == entries[..k];
      CollectedFails(entries[..|entries| - 1], k);
    }
  }

  lemma CollectedNone<K, V>()
    ensures Collected<K, V>([]) == Some(map[])
  {
  }

  lemma CollectedNext<K, V>(entries: seq<Option<(K, V)>>, k: nat, m: map<K, V>)
    requires k < |entries| && Collected(entries[..k]) == Some(m)
    ensures entries[k].Some? && entries[k].value.0 !in m ==>
              Collected(entries[..k + 1]) == Some(m[entries[k].value.0 := entries[k].value.1])
    ensures entries[k].None? || entries[k].value.0 in m ==> Collected(entries).None?
  {
    assert entries[..k + 1][..k] == entries[..k];
    if entries[k].None? || entries[k].value.0 in m {
      CollectedFails(entries, k + 1);
    }
  }

  /** The entry is what the item says. */
  ghost predicate Reads<K(!new), V(!new)>(item: Json, entry: Option<(K, V)>, says: (Json, K, V) -> bool)
  {
    forall n, v :: says(item, n, v) <==> entry == Some((n, v))
  }

  ghost predicate AllRead<K(!new), V(!new)>(items: seq<Json>, entries: seq<Option<(K, V)>>,
                                            says: (Json, K, V) -> bool)
  {
    |entries| == |items| && forall k :: 0 <= k < |items| ==> Reads(items[k], entries[k], says)
  }

  lemma AboutIff<K(!new), V(!new)>(items: seq<Json>, entries: seq<Option<(K, V)>>, m: map<K, V>,
                                   says: (Json, K, V) -> bool, k: nat, n: K)
    requires AllRead(items, entries, says) && k < |items|
    ensures About(items[k], m, n, says) <==> n in m && entries[k] == Some((n, m[n]))
  {
    assert Reads(items[k], entries[k], says);
  }

  /** Then the map is collected exactly if the items describe it one by one. */
  lemma CollectedIff<K(!new), V(!new)>(items: seq<Json>, entries: seq<Option<(K, V)>>, m: map<K, V>,
                                       says: (Json, K, V) -> bool)
    requires AllRead(items, entries, says)
    ensures Collected(entries) == Some(m) <==> ItemByItem(items, m, says)
  {
    assert |entries| == |items|;
    hide AllRead, ItemByItem;
    CollectedHolds(entries);
    if Collected(entries) == Some(m) {
      HeldAreDescribed(items, entries, m, says);
    }
    if ItemByItem(items, m, says) {
      DescribedAreHeld(items, entries, m, says);
      HoldsTheSame(m, Collected(entries).value, entries);
    }
  }

  lemma HeldHaveEntries<K(!new), V(!new)>(items: seq<Json>, entries: seq<Option<(K, V)>>, m: map<K, V>,
                                          says: (Json, K, V) -> bool)
    requires AllRead(items, entries, says) && |entries| == |items|
    requires Collectable(entries) && Holds(m, entries)
    ensures ItemsHaveEntries(items, m, says)
  {
    hide AllRead, About;
    forall k | 0 <= k < |items| ensures HasEntry(items[k], m, says) {
      var n := entries[k].value.0;
      assert entries[k] == Some((n, m[n]));
      AboutIff(items, entries, m, says, k, n);
    }
  }

  lemma HeldHaveItems<K(!new), V(!new)>(items: seq<Json>, entries: seq<Option<(K, V)>>, m: map<K, V>,
                                        says: (Json, K, V) -> bool)
    requires AllRead(items, entries, says) && |entries| == |items|
    requires Holds(m, entries)
    ensures EntriesHaveItems(items, m, says)
  {
    hide AllRead, About;
    forall n | n in m ensures exists k :: 0 <= k < |items| && About(items[k], m, n, says) {
      var k :| 0 <= k < |entries| && entries[k] == Some((n, m[n]));
      AboutIff(items, entries, m, says, k, n);
    }
  }

  lemma HeldAreDescribed<K(!new), V(!new)>(items: seq<Json>, entries: seq<Option<(K, V)>>, m: map<K, V>,
                                           says: (Json, K, V) -> bool)
    requires AllRead(items, entries, says) && |entries| == |items|
    requires Collectable(entries) && Holds(m, entries)
    ensures ItemByItem(items, m, says)
  {
    hide AllRead, About, Holds, ItemsHaveEntries, EntriesHaveItems;
    HeldHaveEntries(items, entries, m, says);
    HeldHaveItems(items, entries, m, says);
    forall j: nat, k: nat, n | j < k < |items| && n in m
      ensures !(About(items[j], m, n, says) && About(items[k], m, n, says))
    {
      AboutIff(items, entries, m, says, j, n);
      AboutIff(items, entries, m, says, k, n);
    }
  }

  lemma DescribedAreHeld<K(!new), V(!new)>(items: seq<Json>, entries: seq<Option<(K, V)>>, m: map<K, V>,
                                           says: (Json, K, V) -> bool)
    requires AllRead(items, entries, says) && ItemByItem(items, m, says)
    ensures Collectable(entries) && Holds(m, entries)
  {
    hide ItemsHaveEntries, EntriesHaveItems, NoEntryTwice;
    forall k: nat | k < |entries|
      ensures entries[k].Some? && entries[k].value.0 in m && m[entries[k].value.0] == entries[k].value.1
    {
      ItHasAnEntry(items, entries, m, says, k);
    }
    forall j: nat, k: nat | j < k < |entries| ensures entries[j].value.0 != entries[k].value.0 {
      NotTwice(items, entries, m, says, j, k);
    }
    forall n | n in m ensures Some((n, m[n])) in entries {
      ItHasAnItem(items, entries, m, says, n);
    }
  }

  lemma ItHasAnEntry<K(!new), V(!new)>(items: seq<Json>, entries: seq<Option<(K, V)>>, m: map<K, V>,
                                       says: (Json, K, V) -> bool, k: nat)
    requires AllRead(items, entries, says) && ItemsHaveEntries(items, m, says) && k < |items|
    ensures entries[k].Some? && entries[k].value.0 in m && m[entries[k].value.0] == entries[k].value.1
  {
    hide About, Reads;
    assert HasEntry(items[k], m, says);
    var n :| n in m && About(items[k], m, n, says);
    AboutIff(items, entries, m, says, k, n);
  }

  lemma NotTwice<K(!new), V(!new)>(items: seq<Json>, entries: seq<Option<(K, V)>>, m: map<K, V>,
                                   says: (Json, K, V) -> bool, j: nat, k: nat)
    requires AllRead(items, entries, says) && NoEntryTwice(items, m, says) && j < k < |items|
    requires entries[j].Some? && entries[k].Some?
    requires entries[j].value.0 in m && m[entries[j].value.0] == entries[j].value.1
    requires entries[k].value.0 in m && m[entries[k].value.0] == entries[k].value.1
    ensures entries[j].value.0 != entries[k].value.0
  {
    hide About, Reads;
    AboutIff(items, entries, m, says, j, entries[j].value.0);
    AboutIff(items, entries, m, says, k, entries[j].value.0);
  }

  lemma ItHasAnItem<K(!new), V(!new)>(items: seq<Json>, entries: seq<Option<(K, V)>>, m: map<K, V>,
                                      says: (Json, K, V) -> bool, n: K)
    requires AllRead(items, entries, says) && EntriesHaveItems(items, m, says) && n in m
    ensures Some((n, m[n])) in entries
  {
    hide About, Reads;
    var k :| 0 <= k < |items| && About(items[k], m, n, says);
    AboutIff(items, entries, m, says, k, n);
    assert entries[k] == Some((n, m[n]));
  }

  // ----- small lookups

  function ListAt(o: Object, key: string): Option<seq<Json>>
  {
    if key in o && o[key].List? then Some(o[key].items) else None
  }

  /** An optional value: absent, read, or fatal. */
  function OptionalNumber(o: Object, key: string, limit: nat): (r: Option<Option<nat>>)
    ensures r.Some? && r.value.Some? ==> r.value.value < limit
  {
    if key !in o then Some(None)
    else if NumberAt(o, key, limit).Some? then Some(NumberAt(o, key, limit))
    else None
  }

  function OptionalBool(o: Object, key: string): Option<Option<bool>>
  {
    if key !in o then Some(None) else if o[key].Bool? then Some(Some(o[key].flag)) else None
  }

  function ServiceTypeIdentifier(o: Object): Option<ServiceIdentifier>
  {
    var name := StringAt(o, "serviceTypeName");
    var version := ObjectAt(o, "version");
    if name.None? || version.None? then None
    else
      var major := NumberAt(version.value, "major", U32);
      var minor := NumberAt(version.value, "minor", U32);
      if major.Some? && minor.Some? then
        Some(ServiceIdentifier(CString(name.value), ServiceVersion(major.value, minor.value)))
      else None
  }

  function AsilLevel(o: Object): Option<Option<QualityType>>
  {
    if "asil-level" !in o then Some(None)
    else if !o["asil-level"].Str? then None
    else Some(Some(match o["asil-level"].text case "QM" => AsilQm case "B" => AsilB case _ => Invalid))
  }

  // ----- ids of the elements of a service type

  /** The configured id is read with 16 bits and stored with 8. */
  function ElementId(j: Json, nameKey: string, idKey: string): Option<(string, u8)>
  {
    if !j.Obj? then None
    else
      var name := StringAt(j.members, nameKey);
      var id := NumberAt(j.members, idKey, U16);
      if name.Some? && id.Some? then Some((name.value, id.value % U8)) else None
  }

  function IdEntries(list: seq<Json>, nameKey: string, idKey: string): seq<Option<(string, u8)>>
  {
    seq(|list|, k requires 0 <= k < |list| => ElementId(list[k], nameKey, idKey))
  }

  function ElementIds(list: seq<Json>, nameKey: string, idKey: string): Option<map<string, u8>>
  {
    Collected(IdEntries(list, nameKey, idKey))
  }

  /** Element `k` of the list configures name `n` with the stored id `id`. */
  predicate Configures(list: seq<Json>, nameKey: string, idKey: string, k: nat, n: string, id: u8)
  {
    k < |list| && ElementId(list[k], nameKey, idKey) == Some((n, id))
  }

  /** If the list is accepted, the map holds exactly what it configures. */
  lemma ElementIdsContents(list: seq<Json>, nameKey: string, idKey: string, n: string, id: u8)
    requires ElementIds(list, nameKey, idKey).Some?
    ensures n in ElementIds(list, nameKey, idKey).value && ElementIds(list, nameKey, idKey).value[n] == id <==>
              exists k: nat :: Configures(list, nameKey, idKey, k, n, id)
  {
    var entries, m := IdEntries(list, nameKey, idKey), ElementIds(list, nameKey, idKey).value;
    CollectedHolds(entries);
    if k: nat :| Configures(list, nameKey, idKey, k, n, id) {
      assert entries[k] == Some((n, id));
    }
    if n in m && m[n] == id {
      var k :| 0 <= k < |entries| && entries[k] == Some((n, id));
      assert Configures(list, nameKey, idKey, k, n, id);
    }
  }

  /** The list is accepted exactly if every element can be read and no name
      appears twice. */
  lemma ElementIdsAccepted(list: seq<Json>, nameKey: string, idKey: string)
    ensures ElementIds(list, nameKey, idKey).Some? <==>
              && (forall k :: 0 <= k < |list| ==> ElementId(list[k], nameKey, idKey).Some?)
              && (forall j, k :: 0 <= j < k < |list| ==>
                    ElementId(list[j], nameKey, idKey).value.0 != ElementId(list[k], nameKey, idKey).value.0)
  {
    var entries := IdEntries(list, nameKey, idKey);
    CollectedHolds(entries);
    assert forall k :: 0 <= k < |list| ==> entries[k] == ElementId(list[k], nameKey, idKey);
  }

  method ParseElementTypeDeployments(list: seq<Json>, nameKey: string, idKey: string)
      returns (ids: Option<map<string, u8>>)
    ensures ids == ElementIds(list, nameKey, idKey)
  {
    hide Collected;
    ghost var entries := IdEntries(list, nameKey, idKey);
    CollectedNone<string, u8>();
    assert entries[..0] == [];
    var result: map<string, u8> := map[];
    for k := 0 to |list|
      invariant Collected(entries[..k]) == Some(result)
    {
      CollectedNext(entries, k, result);
      var e := ElementId(list[k], nameKey, idKey);
      if e.None? || e.value.0 in result {
        return None;
      }
      result := result[e.value.0 := e.value.1];
    }
    assert entries[..|list|] == entries;
    return Some(result);
  }

  method AreEventAndFieldIdsUnique(events: map<string, u8>, fields: map<string, u8>) returns (unique: bool)
    ensures unique <==> IdsUnique(events, fields)
  {
    var ids: set<u8> := {};
    var todo := events.Keys;
    while todo != {}
      invariant todo <= events.Keys
      invariant forall n :: n in events && n !in todo ==> events[n] in ids
      invariant forall i :: i in ids ==> exists n :: n in events && n !in todo && events[n] == i
      invariant forall a, b :: a in events && b in events && a !in todo && b !in todo && a != b ==>
                  events[a] != events[b]
      decreases todo
    {
      var n :| n in todo;
      if events[n] in ids {
        return false;
      }
      ids := ids + {events[n]};
      todo := todo - {n};
    }
    todo := fields.Keys;
    while todo != {}
      invariant todo <= fields.Keys
      invariant forall n :: n in events ==> events[n] in ids
      invariant forall n :: n in fields && n !in todo ==> fields[n] in ids
      invariant forall i :: i in ids ==>
                  || (exists n :: n in events && events[n] == i)
                  || (exists n :: n in fields && n !in todo && fields[n] == i)
      invariant forall a, b :: a in events && b in events && a != b ==> events[a] != events[b]
      invariant forall a, b :: a in fields && b in fields && a !in todo && b !in todo && a != b ==>
                  fields[a] != fields[b]
      invariant forall a, b :: a in events && b in fields && b !in todo ==> events[a] != fields[b]
      decreases todo
    {
      var n :| n in todo;
      if fields[n] in ids {
        return false;
      }
      ids := ids + {fields[n]};
      todo := todo - {n};
    }
    return true;
  }

  // ----- service types

  /** An absent list of elements, or one that could be read. */
  function ElementsOfType(o: Object, key: string, nameKey: string, idKey: string): Option<Option<map<string, u8>>>
  {
    if key !in o then Some(None)
    else if !o[key].List? then None
    else
      var ids := ElementIds(o[key].items, nameKey, idKey);
      if ids.Some? then Some(ids) else None
  }

  ghost function LolaTypeOf(o: Object): Option<TypeBinding>
  {
    var id := NumberAt(o, "serviceId", U16);
    var events := ElementsOfType(o, "events", "eventName", "eventId");
    var fields := ElementsOfType(o, "fields", "fieldName", "fieldId");
    if id.None? || events.None? || fields.None? then None
    else if events.value.None? && fields.value.None? then None
    else
      var e := if events.value.Some? then events.value.value else map[];
      var f := if fields.value.Some? then fields.value.value else map[];
      if IdsUnique(e, f) then Some(LolaType(id.value, e, f)) else None
  }

  method ParseElements(o: Object, key: string, nameKey: string, idKey: string)
      returns (r: Option<Option<map<string, u8>>>)
    ensures r == ElementsOfType(o, key, nameKey, idKey)
  {
    if key !in o {
      return Some(None);
    }
    if !o[key].List? {
      return None;
    }
    var ids := ParseElementTypeDeployments(o[key].items, nameKey, idKey);
    return if ids.Some? then Some(ids) else None;
  }

  method ParseLolaServiceTypeDeployment(o: Object) returns (r: Option<TypeBinding>)
    ensures r == LolaTypeOf(o)
  {
    hide ElementsOfType, IdsUnique;
    var id := NumberAt(o, "serviceId", U16);
    if id.None? {
      return None;
    }
    var events := ParseElements(o, "events", "eventName", "eventId");
    var fields := ParseElements(o, "fields", "fieldName", "fieldId");
    if events.None? || fields.None? || (events.value.None? && fields.value.None?) {
      return None;
    }
    var e := if events.value.Some? then events.value.value else map[];
    var f := if fields.value.Some? then fields.value.value else map[];
    var unique := AreEventAndFieldIdsUnique(e, f);
    return if unique then Some(LolaType(id.value, e, f)) else None;
  }

  /** The id an element configures, with all its 16 bits. */
  function ConfiguredId(j: Json, idKey: string): Option<u16>
  {
    if !j.Obj? then None else NumberAt(j.members, idKey, U16)
  }

  /** The list at `key`; empty if there is none. */
  function ItemsAt(o: Object, key: string): seq<Json>
  {
    if key in o && o[key].List? then o[key].items else []
  }

  /** Every element of the list, if it is there, can be read, and no name appears twice. */
  ghost predicate ListAccepted(o: Object, key: string, nameKey: string, idKey: string)
  {
    && (key in o ==> o[key].List?)
    && var list := ItemsAt(o, key);
       && (forall k :: 0 <= k < |list| ==> ElementId(list[k], nameKey, idKey).Some?)
       && (forall j, k :: 0 <= j < k < |list| ==>
             ElementId(list[j], nameKey, idKey).value.0 != ElementId(list[k], nameKey, idKey).value.0)
  }

  /** Two elements whose configured ids agree in the low byte. */
  predicate SameLowByte(a: Json, aKey: string, b: Json, bKey: string)
  {
    && ConfiguredId(a, aKey).Some? && ConfiguredId(b, bKey).Some?
    && ConfiguredId(a, aKey).value % U8 == ConfiguredId(b, bKey).value % U8
  }

  /** No two elements, be they events or fields, have configured ids that agree in
      the low byte. */
  ghost predicate LowBytesDistinct(events: seq<Json>, fields: seq<Json>)
  {
    && (forall j, k :: 0 <= j < k < |events| ==> !SameLowByte(events[j], "eventId", events[k], "eventId"))
    && (forall j, k :: 0 <= j < k < |fields| ==> !SameLowByte(fields[j], "fieldId", fields[k], "fieldId"))
    && (forall j, k :: 0 <= j < |events| && 0 <= k < |fields| ==>
          !SameLowByte(events[j], "eventId", fields[k], "fieldId"))
  }

  /** What an accepted list stores, by position. */
  lemma StoredAt(list: seq<Json>, nameKey: string, idKey: string, k: nat)
    requires ElementIds(list, nameKey, idKey).Some? && k < |list|
    ensures
      var e := ElementId(list[k], nameKey, idKey);
      && e.Some? && e.value.0 in ElementIds(list, nameKey, idKey).value
      && ElementIds(list, nameKey, idKey).value[e.value.0] == e.value.1
      && ConfiguredId(list[k], idKey).Some? && e.value.1 == ConfiguredId(list[k], idKey).value % U8
  {
    ElementIdsAccepted(list, nameKey, idKey);
    var e := ElementId(list[k], nameKey, idKey);
    assert Configures(list, nameKey, idKey, k, e.value.0, e.value.1);
    ElementIdsContents(list, nameKey, idKey, e.value.0, e.value.1);
  }

  /** Every stored name comes from a position. */
  lemma PositionOf(list: seq<Json>, nameKey: string, idKey: string, n: string) returns (k: nat)
    requires ElementIds(list, nameKey, idKey).Some? && n in ElementIds(list, nameKey, idKey).value
    ensures k < |list| && ElementId(list[k], nameKey, idKey) == Some((n, ElementIds(list, nameKey, idKey).value[n]))
    ensures ConfiguredId(list[k], idKey).Some?
    ensures ElementIds(list, nameKey, idKey).value[n] == ConfiguredId(list[k], idKey).value % U8
  {
    var id := ElementIds(list, nameKey, idKey).value[n];
    ElementIdsContents(list, nameKey, idKey, n, id);
    k :| Configures(list, nameKey, idKey, k, n, id);
  }

  /** Stored ids of two lists collide exactly where configured ids share the low byte. */
  lemma CollisionsAreShared(a: seq<Json>, aName: string, aId: string, b: seq<Json>, bName: string, bId: string)
    requires ElementIds(a, aName, aId).Some? && ElementIds(b, bName, bId).Some?
    ensures
      var x, y := ElementIds(a, aName, aId).value, ElementIds(b, bName, bId).value;
      (forall m, n :: m in x && n in y ==> x[m] != y[n]) <==>
      (forall j, k :: 0 <= j < |a| && 0 <= k < |b| ==> !SameLowByte(a[j], aId, b[k], bId))
  {
    hide ElementIds, ElementId, ConfiguredId;
    var x, y := ElementIds(a, aName, aId).value, ElementIds(b, bName, bId).value;
    if m, n :| m in x && n in y && x[m] == y[n] {
      var j := PositionOf(a, aName, aId, m);
      var k := PositionOf(b, bName, bId, n);
      assert SameLowByte(a[j], aId, b[k], bId);
    }
    if j, k :| 0 <= j < |a| && 0 <= k < |b| && SameLowByte(a[j], aId, b[k], bId) {
      StoredAt(a, aName, aId, j);
      StoredAt(b, bName, bId, k);
    }
  }

  /** The same within one list, where different positions have different names. */
  lemma CollisionsWithin(a: seq<Json>, aName: string, aId: string)
    requires ElementIds(a, aName, aId).Some?
    ensures
      var x := ElementIds(a, aName, aId).value;
      (forall m, n :: m in x && n in x && m != n ==> x[m] != x[n]) <==>
      (forall j, k :: 0 <= j < k < |a| ==> !SameLowByte(a[j], aId, a[k], aId))
  {
    ElementIdsAccepted(a, aName, aId);
    hide ElementIds, ElementId, ConfiguredId;
    var x := ElementIds(a, aName, aId).value;
    if m, n :| m in x && n in x && m != n && x[m] == x[n] {
      var j := PositionOf(a, aName, aId, m);
      var k := PositionOf(a, aName, aId, n);
      assert SameLowByte(a[j], aId, a[k], aId) && SameLowByte(a[k], aId, a[j], aId);
    }
    if j, k :| 0 <= j < k < |a| && SameLowByte(a[j], aId, a[k], aId) {
      StoredAt(a, aName, aId, j);
      StoredAt(a, aName, aId, k);
    }
  }

  lemma ListAcceptedIff(o: Object, key: string, nameKey: string, idKey: string)
    ensures ListAccepted(o, key, nameKey, idKey) <==> ElementsOfType(o, key, nameKey, idKey).Some?
    ensures ListAccepted(o, key, nameKey, idKey) ==>
              && ElementIds(ItemsAt(o, key), nameKey, idKey).Some?
              && ElementsOfType(o, key, nameKey, idKey).value ==
                   if key in o then ElementIds(ItemsAt(o, key), nameKey, idKey) else None
  {
    ElementIdsAccepted(ItemsAt(o, key), nameKey, idKey);
  }

  lemma UniqueIffLowBytes(events: seq<Json>, fields: seq<Json>)
    requires ElementIds(events, "eventName", "eventId").Some? && ElementIds(fields, "fieldName", "fieldId").Some?
    ensures IdsUnique(ElementIds(events, "eventName", "eventId").value,
                      ElementIds(fields, "fieldName", "fieldId").value)
            <==> LowBytesDistinct(events, fields)
  {
    hide ElementIds, SameLowByte;
    CollisionsWithin(events, "eventName", "eventId");
    CollisionsWithin(fields, "fieldName", "fieldId");
    CollisionsAreShared(events, "eventName", "eventId", fields, "fieldName", "fieldId");
  }

  /** A LoLa service type is accepted if and only if it has a service id and at
      least one of the two lists, the lists are accepted, and no two configured
      ids agree in the low byte: different ids are not enough. */
  lemma TypeAcceptedIff(o: Object)
    ensures LolaTypeOf(o).Some? <==>
              && NumberAt(o, "serviceId", U16).Some? && ("events" in o || "fields" in o)
              && ListAccepted(o, "events", "eventName", "eventId")
              && ListAccepted(o, "fields", "fieldName", "fieldId")
              && LowBytesDistinct(ItemsAt(o, "events"), ItemsAt(o, "fields"))
  {
    hide ElementsOfType, ElementIds, ListAccepted, LowBytesDistinct, IdsUnique;
    ListAcceptedIff(o, "events", "eventName", "eventId");
    ListAcceptedIff(o, "fields", "fieldName", "fieldId");
    NoElements("eventName", "eventId");
    NoElements("fieldName", "fieldId");
    if ListAccepted(o, "events", "eventName", "eventId") && ListAccepted(o, "fields", "fieldName", "fieldId") {
      UniqueIffLowBytes(ItemsAt(o, "events"), ItemsAt(o, "fields"));
    }
  }

  lemma NoElements(nameKey: string, idKey: string)
    ensures ElementIds([], nameKey, idKey) == Some(map[])
  {
  }

  /** A type whose two events have the different ids 1 and 257 is refused. */
  lemma DifferentIdsCanCollide(name: string, other: string, o: Object)
    requires "events" in o
    requires o["events"] == List([Obj(map["eventName" := Str(name), "eventId" := Num(1)]),
                                  Obj(map["eventName" := Str(other), "eventId" := Num(257)])])
    ensures ConfiguredId(ItemsAt(o, "events")[0], "eventId") == Some(1)
    ensures ConfiguredId(ItemsAt(o, "events")[1], "eventId") == Some(257)
    ensures LolaTypeOf(o).None?
  {
    TypeAcceptedIff(o);
    assert |"eventName"| != |"eventId"|;
    assert SameLowByte(ItemsAt(o, "events")[0], "eventId", ItemsAt(o, "events")[1], "eventId");
  }

  /** The first SHM binding decides; SOME/IP is skipped; without SHM the type is blank. */
  ghost function TypeDeploymentOf(bindings: seq<Json>): Option<TypeBinding>
  {
    if bindings == [] then Some(BlankType)
    else if !bindings[0].Obj? then None
    else
      var kind := StringAt(bindings[0].members, "binding");
      if kind == Some("SHM") then LolaTypeOf(bindings[0].members)
      else if kind == Some("SOME/IP") then TypeDeploymentOf(bindings[1..])
      else None
  }

  method ParseServiceTypeDeployment(bindings: seq<Json>) returns (r: Option<TypeBinding>)
    ensures r == TypeDeploymentOf(bindings)
  {
    hide LolaTypeOf;
    var k := 0;
    while k < |bindings|
      invariant 0 <= k <= |bindings| && TypeDeploymentOf(bindings) == TypeDeploymentOf(bindings[k..])
    {
      if !bindings[k].Obj? {
        return None;
      }
      var kind := StringAt(bindings[k].members, "binding");
      if kind == Some("SHM") {
        r := ParseLolaServiceTypeDeployment(bindings[k].members);
        return;
      } else if kind != Some("SOME/IP") {
        return None;
      }
      assert bindings[k..][1..] == bindings[k + 1..];
      k := k + 1;
    }
    return Some(BlankType);
  }

  ghost function ServiceTypeOf(j: Json): Option<(ServiceIdentifier, TypeBinding)>
  {
    if !j.Obj? then None
    else
      var id := ServiceTypeIdentifier(j.members);
      var bindings := ListAt(j.members, "bindings");
      if id.None? || bindings.None? then None
      else
        var t := TypeDeploymentOf(bindings.value);
        if t.Some? then Some((id.value, t.value)) else None
  }

  ghost function TypeEntries(list: seq<Json>): seq<Option<(ServiceIdentifier, TypeBinding)>>
  {
    seq(|list|, k requires 0 <= k < |list| => ServiceTypeOf(list[k]))
  }

  ghost function ServiceTypesOf(list: seq<Json>): Option<map<ServiceIdentifier, TypeBinding>>
  {
    Collected(TypeEntries(list))
  }

  method ParseServiceType(j: Json) returns (r: Option<(ServiceIdentifier, TypeBinding)>)
    ensures r == ServiceTypeOf(j)
  {
    hide TypeDeploymentOf, ServiceTypeIdentifier;
    if !j.Obj? {
      return None;
    }
    var id := ServiceTypeIdentifier(j.members);
    var bindings := ListAt(j.members, "bindings");
    if id.None? || bindings.None? {
      return None;
    }
    var t := ParseServiceTypeDeployment(bindings.value);
    return if t.Some? then Some((id.value, t.value)) else None;
  }

  method ParseServiceTypes(list: seq<Json>) returns (r: Option<map<ServiceIdentifier, TypeBinding>>)
    ensures r == ServiceTypesOf(list)
  {
    hide ServiceTypeOf, Collected;
    ghost var entries := TypeEntries(list);
    CollectedNone<ServiceIdentifier, TypeBinding>();
    assert entries[..0] == [];
    var types: map<ServiceIdentifier, TypeBinding> := map[];
    for k := 0 to |list|
      invariant Collected(entries[..k]) == Some(types)
    {
      CollectedNext(entries, k, types);
      var t := ParseServiceType(list[k]);
      if t.None? || t.value.0 in types {
        return None;
      }
      types := types[t.value.0 := t.value.1];
    }
    assert entries[..|list|] == entries;
    return Some(types);
  }

  // ----- service instances

  function EventInstanceOf(j: Json, nameKey: string, isEvent: bool): Option<(string, EventInstance)>
  {
    if !j.Obj? then None
    else if "maxConcurrentAllocations" in j.members then None
    else
      var o := j.members;
      var name := StringAt(o, nameKey);
      var slots := SlotsOf(o, isEvent);
      var subscribers := OptionalNumber(o, "maxSubscribers", U8);
      var enforce := OptionalBool(o, "enforceMaxSamples");
      if name.None? || slots.None? || subscribers.None? || enforce.None? then None
      else Some((name.value, EventInstance(slots.value, subscribers.value, None, enforce.value, false)))
  }

  /** The deprecated key is for events only and excludes the new one. */
  function SlotsOf(o: Object, isEvent: bool): (r: Option<Option<u16>>)
  {
    if isEvent && "maxSamples" in o then
      if "numberOfSampleSlots" in o then None else OptionalNumber(o, "maxSamples", U16)
    else OptionalNumber(o, "numberOfSampleSlots", U16)
  }

  function ElementEntries(list: seq<Json>, nameKey: string, isEvent: bool): seq<Option<(string, EventInstance)>>
  {
    seq(|list|, k requires 0 <= k < |list| => EventInstanceOf(list[k], nameKey, isEvent))
  }

  function ElementInstances(list: seq<Json>, nameKey: string, isEvent: bool): Option<map<string, EventInstance>>
  {
    Collected(ElementEntries(list, nameKey, isEvent))
  }

  function ElementInstancesAt(o: Object, key: string, nameKey: string, isEvent: bool): Option<map<string,
                              EventInstance>>
  {
    if key !in o then Some(map[])
    else if o[key].List? then ElementInstances(o[key].items, nameKey, isEvent)
    else None
  }

  method ParseElementInstances(list: seq<Json>, nameKey: string, isEvent: bool)
      returns (r: Option<map<string, EventInstance>>)
    ensures r == ElementInstances(list, nameKey, isEvent)
  {
    hide EventInstanceOf, Collected;
    ghost var entries := ElementEntries(list, nameKey, isEvent);
    CollectedNone<string, EventInstance>();
    assert entries[..0] == [];
    var elements: map<string, EventInstance> := map[];
    for k := 0 to |list|
      invariant Collected(entries[..k]) == Some(elements)
    {
      CollectedNext(entries, k, elements);
      var e := EventInstanceOf(list[k], nameKey, isEvent);
      if e.None? || e.value.0 in elements {
        return None;
      }
      elements := elements[e.value.0 := e.value.1];
    }
    assert entries[..|list|] == entries;
    return Some(elements);
  }

  function QualityOfUser(s: string): Option<QualityType>
  {
    if s == "QM" then Some(AsilQm) else if s == "B" then Some(AsilB) else None
  }

  predicate ReadableUsers(o: Object)
  {
    forall s :: s in o ==> QualityOfUser(s).Some? && UidsFromJson(o[s]).Some?
  }

  function AllowedUsers(o: Object, key: string): Option<UidMap>
  {
    if key !in o then Some(map[])
    else if !o[key].Obj? || !ReadableUsers(o[key].members) then None
    else
      var users := o[key].members;
      var qm: UidMap := if "QM" in users then map[AsilQm := UidsFromJson(users["QM"]).value] else map[];
      Some(if "B" in users then qm[AsilB := UidsFromJson(users["B"]).value] else qm)
  }

  function PermissionChecks(o: Object): Option<bool>
  {
    if "permission-checks" !in o then Some(false)
    else if o["permission-checks"] == Str("strict") then Some(true)
    else if o["permission-checks"] == Str("file-permissions-on-empty") then Some(false)
    else None
  }

  function LolaInstanceOf(o: Object): Option<Binding>
  {
    var size := OptionalNumber(o, "shm-size", U64);
    var id := OptionalNumber(o, "instanceId", U16);
    var events := ElementInstancesAt(o, "events", "eventName", true);
    var fields := ElementInstancesAt(o, "fields", "fieldName", false);
    var strict := PermissionChecks(o);
    var consumer := AllowedUsers(o, "allowedConsumer");
    var provider := AllowedUsers(o, "allowedProvider");
    if size.None? || id.None? || events.None? || fields.None? || strict.None? || consumer.None? || provider.None?
    then None
    else Some(Lola(id.value, size.value, events.value, fields.value, strict.value, consumer.value, provider.value))
  }

  function DeploymentOf(j: Json, service: ServiceIdentifier, specifier: InstanceSpecifier): Option<ServiceInstance>
  {
    if !j.Obj? then None
    else
      var asil := AsilLevel(j.members);
      if asil.None? || asil.value.None? || asil.value == Some(Invalid) then None
      else if StringAt(j.members, "binding") == Some("SHM") then
        var lola := LolaInstanceOf(j.members);
        if lola.Some? then Some(ServiceInstance(service, lola.value, asil.value.value, specifier)) else None
      else None
  }

  /** A specifier, a service and exactly one deployment. */
  function ServiceInstanceOf(j: Json): Option<ServiceInstance>
  {
    if !j.Obj? then None
    else
      var specifier := StringAt(j.members, "instanceSpecifier");
      var service := ServiceTypeIdentifier(j.members);
      var deployments := ListAt(j.members, "instances");
      if specifier.None? || !IsSpecifier(specifier.value) || service.None? || deployments.None? then None
      else if |deployments.value| != 1 then None
      else DeploymentOf(deployments.value[0], service.value, specifier.value)
  }

  function InstanceEntry(j: Json): Option<(InstanceSpecifier, ServiceInstance)>
  {
    var d := ServiceInstanceOf(j);
    if d.Some? then Some((d.value.specifier, d.value)) else None
  }

  function InstanceEntries(list: seq<Json>): seq<Option<(InstanceSpecifier, ServiceInstance)>>
  {
    seq(|list|, k requires 0 <= k < |list| => InstanceEntry(list[k]))
  }

  function ServiceInstancesOf(list: seq<Json>): Option<map<InstanceSpecifier, ServiceInstance>>
  {
    Collected(InstanceEntries(list))
  }

  method ParseServiceInstances(list: seq<Json>) returns (r: Option<map<InstanceSpecifier, ServiceInstance>>)
    ensures r == ServiceInstancesOf(list)
  {
    hide ServiceInstanceOf, Collected;
    ghost var entries := InstanceEntries(list);
    CollectedNone<InstanceSpecifier, ServiceInstance>();
    assert entries[..0] == [];
    var instances: map<InstanceSpecifier, ServiceInstance> := map[];
    for k := 0 to |list|
      invariant Collected(entries[..k]) == Some(instances)
    {
      CollectedNext(entries, k, instances);
      var d := ServiceInstanceOf(list[k]);
      if d.None? || d.value.specifier in instances {
        return None;
      }
      instances := instances[d.value.specifier := d.value];
    }
    assert entries[..|list|] == entries;
    return Some(instances);
  }

  // ----- cross-checks

  method CrosscheckAsilLevels(c: Config) returns (ok: bool)
    ensures ok <==> AsilLevelsFit(c)
  {
    var todo := c.instances.Keys;
    while todo != {}
      invariant todo <= c.instances.Keys
      invariant forall s :: s in c.instances && s !in todo && c.instances[s].asil == AsilB ==> c.processAsil == AsilB
      decreases todo
    {
      var s: InstanceSpecifier :| s in todo;
      if c.instances[s].asil == AsilB && c.processAsil != AsilB {
        return false;
      }
      todo := todo - {s};
    }
    return true;
  }

  method AllDeclared<T>(elements: map<string, T>, ids: map<string, u8>) returns (ok: bool)
    ensures ok <==> elements.Keys <= ids.Keys
  {
    var todo := elements.Keys;
    while todo != {}
      invariant todo <= elements.Keys && elements.Keys - todo <= ids.Keys
      decreases todo
    {
      var n :| n in todo;
      if n !in ids {
        assert n in elements.Keys && n !in ids.Keys;
        return false;
      }
      todo := todo - {n};
    }
    return true;
  }

  method CrosscheckServiceInstancesToTypes(c: Config) returns (ok: bool)
    ensures ok <==> forall s :: s in c.instances ==> Declared(c.instances[s], c.types)
  {
    var todo := c.instances.Keys;
    while todo != {}
      invariant todo <= c.instances.Keys
      invariant forall s :: s in c.instances && s !in todo ==> Declared(c.instances[s], c.types)
      decreases todo
    {
      var s: InstanceSpecifier :| s in todo;
      var d := c.instances[s];
      if d.service !in c.types || !d.binding.Lola? || !c.types[d.service].LolaType? {
        assert !Declared(d, c.types);
        return false;
      }
      var events := AllDeclared(d.binding.events, c.types[d.service].eventIds);
      var fields := AllDeclared(d.binding.fields, c.types[d.service].fieldIds);
      if !events || !fields {
        assert !Declared(d, c.types);
        return false;
      }
      todo := todo - {s};
    }
    return true;
  }

  // ----- the whole configuration

  function ProcessAsil(o: Object): Option<QualityType>
  {
    if "global" !in o then Some(AsilQm)
    else if !o["global"].Obj? then None
    else
      var asil := AsilLevel(o["global"].members);
      if asil.None? || asil.value == Some(Invalid) then None
      else Some(if asil.value.None? then AsilQm else asil.value.value)
  }

  // ----- the parser and the description agree

  lemma IdsIff(o: Object, key: string, nameKey: string, idKey: string, ids: map<string, u8>)
    ensures SaysIds(o, key, nameKey, idKey, ids) <==>
              && ElementsOfType(o, key, nameKey, idKey).Some?
              && ids == if key in o then ElementsOfType(o, key, nameKey, idKey).value.value else map[]
  {
    if key in o && o[key].List? {
      var items := o[key].items;
      var entries := IdEntries(items, nameKey, idKey);
      forall k | 0 <= k < |items| ensures Reads(items[k], entries[k], IdSays(nameKey, idKey)) {
        assert entries[k] == ElementId(items[k], nameKey, idKey);
      }
      CollectedIff(items, entries, ids, IdSays(nameKey, idKey));
    }
  }

  lemma LolaTypeIff(o: Object, t: TypeBinding)
    ensures LolaTypeOf(o) == Some(t) <==> SaysLolaType(o, t)
  {
    if t.LolaType? {
      IdsIff(o, "events", "eventName", "eventId", t.eventIds);
      IdsIff(o, "fields", "fieldName", "fieldId", t.fieldIds);
      hide SaysIds, IdsUnique;
    }
  }

  lemma {:induction false} TypeBindingIff(bindings: seq<Json>, t: TypeBinding)
    ensures TypeDeploymentOf(bindings) == Some(t) <==> SaysTypeBinding(bindings, t)
  {
    hide LolaTypeOf, SaysLolaType;
    if bindings != [] && HasBinding(bindings[0], "SOME/IP") {
      TypeBindingIff(bindings[1..], t);
      SkippedFirst(bindings, t);
    } else if bindings != [] && HasBinding(bindings[0], "SHM") {
      LolaTypeIff(bindings[0].members, t);
      DecidedFirst(bindings, t);
    } else if bindings != [] {
      DecidedFirst(bindings, t);
    } else {
      DecidedFirst(bindings, t);
    }
  }

  lemma SkippedFirst(bindings: seq<Json>, t: TypeBinding)
    requires bindings != [] && HasBinding(bindings[0], "SOME/IP")
    ensures SaysTypeBinding(bindings, t) <==> SaysTypeBinding(bindings[1..], t)
  {
    hide SaysLolaType;
    if SaysTypeBinding(bindings, t) {
      var k :| TypeDecidedAt(bindings, t, k);
      assert TypeDecidedAt(bindings[1..], t, k - 1);
    }
    if SaysTypeBinding(bindings[1..], t) {
      var k :| TypeDecidedAt(bindings[1..], t, k);
      assert forall j :: 0 < j < k + 1 ==> bindings[j] == bindings[1..][j - 1];
      assert TypeDecidedAt(bindings, t, k + 1);
    }
  }

  lemma DecidedFirst(bindings: seq<Json>, t: TypeBinding)
    requires bindings == [] || !HasBinding(bindings[0], "SOME/IP")
    ensures SaysTypeBinding(bindings, t) <==>
              if bindings == [] then t == BlankType
              else HasBinding(bindings[0], "SHM") && SaysLolaType(bindings[0].members, t)
  {
    hide SaysLolaType;
    if TypeDecidedAt(bindings, t, 0) {
      assert SaysTypeBinding(bindings, t);
    }
  }

  lemma ServiceIff(o: Object, s: ServiceIdentifier)
    ensures ServiceTypeIdentifier(o) == Some(s) <==> SaysService(o, s)
  {
    if "serviceTypeName" in o && o["serviceTypeName"].Str? {
      CutAtNul(o["serviceTypeName"].text, s.name);
    }
  }

  lemma ServiceTypeIff(j: Json, s: ServiceIdentifier, t: TypeBinding)
    ensures ServiceTypeOf(j) == Some((s, t)) <==> SaysServiceType(j, s, t)
  {
    if j.Obj? {
      ServiceIff(j.members, s);
      hide SaysService, ServiceTypeIdentifier;
      if HasList(j.members, "bindings") {
        TypeBindingIff(j.members["bindings"].items, t);
      }
      hide TypeDeploymentOf, SaysTypeBinding;
    }
  }

  lemma ServiceTypesIff(items: seq<Json>, types: map<ServiceIdentifier, TypeBinding>)
    ensures ServiceTypesOf(items) == Some(types) <==> ItemByItem(items, types, SaysServiceType)
  {
    hide ServiceTypeOf, SaysServiceType, ItemByItem, Collected;
    var entries := TypeEntries(items);
    forall k | 0 <= k < |items| ensures Reads(items[k], entries[k], SaysServiceType) {
      assert entries[k] == ServiceTypeOf(items[k]);
      forall s, t ensures SaysServiceType(items[k], s, t) <==> entries[k] == Some((s, t)) {
        ServiceTypeIff(items[k], s, t);
      }
    }
    CollectedIff(items, entries, types, SaysServiceType);
  }

  ghost function Parsed(json: Json): Option<Config>
  {
    if !json.Obj? then None
    else
      var types := ListAt(json.members, "serviceTypes");
      var instances := ListAt(json.members, "serviceInstances");
      var asil := ProcessAsil(json.members);
      if types.None? || instances.None? || asil.None? then None
      else
        var t := ServiceTypesOf(types.value);
        var i := ServiceInstancesOf(instances.value);
        if t.None? || i.None? then None
        else
          var c := Config(t.value, i.value, asil.value);
          if AsilLevelsFit(c) && forall s :: s in c.instances ==> Declared(c.instances[s], c.types) then Some(c)
          else None
  }

  lemma ElementIff(j: Json, nameKey: string, isEvent: bool, n: string, e: EventInstance)
    ensures EventInstanceOf(j, nameKey, isEvent) == Some((n, e)) <==> SaysElement(j, nameKey, isEvent, n, e)
  {
  }

  lemma ElementsIff(o: Object, key: string, nameKey: string, isEvent: bool, m: map<string, EventInstance>)
    ensures ElementInstancesAt(o, key, nameKey, isEvent) == Some(m) <==> SaysElements(o, key, nameKey, isEvent, m)
  {
    hide EventInstanceOf, SaysElement, ItemByItem, Collected;
    if key in o && o[key].List? {
      var items, entries := o[key].items, ElementEntries(o[key].items, nameKey, isEvent);
      forall k | 0 <= k < |items| ensures Reads(items[k], entries[k], ElementSays(nameKey, isEvent)) {
        assert entries[k] == EventInstanceOf(items[k], nameKey, isEvent);
        forall n, e ensures ElementSays(nameKey, isEvent)(items[k], n, e) <==> entries[k] == Some((n, e)) {
          ElementIff(items[k], nameKey, isEvent, n, e);
        }
      }
      CollectedIff(items, entries, m, ElementSays(nameKey, isEvent));
    }
  }

  lemma UsersIff(o: Object, key: string, users: UidMap)
    ensures AllowedUsers(o, key) == Some(users) <==> SaysUsers(o, key, users)
  {
    hide UidsFromJson, ListsNumbers;
    if key in o && o[key].Obj? {
      var said := o[key].members;
      if "QM" in said && AsilQm in users {
        UidsIff(said["QM"], users[AsilQm]);
      }
      if "B" in said && AsilB in users {
        UidsIff(said["B"], users[AsilB]);
      }
      if SaysUsers(o, key, users) {
        var read := AllowedUsers(o, key).value;
        forall q | q in users || q in read ensures q in users && q in read && users[q] == read[q] {
          match q
          case Invalid =>
          case AsilQm =>
          case AsilB =>
        }
        assert read == users;
      }
    }
  }

  lemma LolaInstanceIff(o: Object, b: Binding)
    ensures LolaInstanceOf(o) == Some(b) <==> SaysLola(o, b)
  {
    if b.Lola? {
      ElementsIff(o, "events", "eventName", true, b.events);
      ElementsIff(o, "fields", "fieldName", false, b.fields);
      UsersIff(o, "allowedConsumer", b.allowedConsumer);
      UsersIff(o, "allowedProvider", b.allowedProvider);
      hide ElementInstancesAt, SaysElements, AllowedUsers, SaysUsers;
    }
  }

  lemma AsilIff(o: Object, q: QualityType)
    ensures SaysAsil(o, q) <==> q != Invalid && AsilLevel(o) == Some(Some(q))
  {
  }

  lemma InstanceIff(j: Json, s: InstanceSpecifier, d: ServiceInstance)
    ensures InstanceEntry(j) == Some((s, d)) <==> SaysInstance(j, s, d)
  {
    hide LolaInstanceOf, SaysLola, ServiceTypeIdentifier, SaysService, AsilLevel, SaysAsil, IsSpecifier;
    if j.Obj? {
      ServiceIff(j.members, d.service);
      if HasList(j.members, "instances") && |j.members["instances"].items| == 1 {
        var deployment := j.members["instances"].items[0];
        if deployment.Obj? {
          AsilIff(deployment.members, d.asil);
          LolaInstanceIff(deployment.members, d.binding);
        }
      }
    }
  }

  lemma InstancesIff(items: seq<Json>, instances: map<InstanceSpecifier, ServiceInstance>)
    ensures ServiceInstancesOf(items) == Some(instances) <==> ItemByItem(items, instances, SaysInstance)
  {
    hide InstanceEntry, SaysInstance, ItemByItem, Collected;
    var entries := InstanceEntries(items);
    forall k | 0 <= k < |items| ensures Reads(items[k], entries[k], SaysInstance) {
      assert entries[k] == InstanceEntry(items[k]);
      forall s: InstanceSpecifier, d ensures SaysInstance(items[k], s, d) <==> entries[k] == Some((s, d)) {
        InstanceIff(items[k], s, d);
      }
    }
    CollectedIff(items, entries, instances, SaysInstance);
  }

  lemma ProcessIff(o: Object, q: QualityType)
    ensures ProcessAsil(o) == Some(q) <==> SaysProcess(o, q)
  {
    if "global" in o && o["global"].Obj? {
      AsilIff(o["global"].members, q);
    }
  }

  /** A configuration is returned exactly if the file describes it: every value in it
      is what the file says under the key it belongs to, nothing is left out, and
      both cross-checks hold. */
  lemma ParsedIff(json: Json, c: Config)
    ensures Parsed(json) == Some(c) <==> Describes(json, c)
  {
    hide ServiceTypesOf, ServiceInstancesOf, ProcessAsil, SaysProcess, ItemByItem, AsilLevelsFit, Declared;
    if json.Obj? && HasList(json.members, "serviceTypes") && HasList(json.members, "serviceInstances") {
      ServiceTypesIff(json.members["serviceTypes"].items, c.types);
      InstancesIff(json.members["serviceInstances"].items, c.instances);
      ProcessIff(json.members, c.processAsil);
    }
  }

  method Parse(json: Json) returns (r: Option<Config>)
    ensures r == Parsed(json)
    ensures r.Some? ==> Describes(json, r.value)
    ensures r.None? ==> forall c :: !Describes(json, c)
  {
    forall c ensures Parsed(json) == Some(c) <==> Describes(json, c) { ParsedIff(json, c); }
    hide Describes, ServiceTypesOf, ServiceInstancesOf, ProcessAsil, AsilLevelsFit, Declared;
    if !json.Obj? {
      return None;
    }
    var types := ListAt(json.members, "serviceTypes");
    var instances := ListAt(json.members, "serviceInstances");
    var asil := ProcessAsil(json.members);
    if types.None? || instances.None? || asil.None? {
      return None;
    }
    var t := ParseServiceTypes(types.value);
    var i := ParseServiceInstances(instances.value);
    if t.None? || i.None? {
      return None;
    }
    var c := Config(t.value, i.value, asil.value);
    var levels := CrosscheckAsilLevels(c);
    var declared := CrosscheckServiceInstancesToTypes(c);
    return if levels && declared then Some(c) else None;
  }

  // ----- what a parsed configuration can be relied on for

  ghost predicate WellFormed(c: Config)
  {
    && (forall s :: s in c.instances ==>
          && c.instances[s].specifier == s
          && c.instances[s].asil != Invalid
          && (c.instances[s].asil == AsilB ==> c.processAsil == AsilB)
          && Declared(c.instances[s], c.types)
          && (forall n :: n in c.instances[s].binding.events ==> Plain(c.instances[s].binding.events[n]))
          && (forall n :: n in c.instances[s].binding.fields ==> Plain(c.instances[s].binding.fields[n])))
    && (forall t :: t in c.types && c.types[t].LolaType? ==> IdsUnique(c.types[t].eventIds, c.types[t].fieldIds))
  }

  /** The parser never sets these. */
  predicate Plain(e: EventInstance) { e.maxConcurrentAllocations.None? && !e.tracing }

  lemma ElementsArePlain(list: seq<Json>, nameKey: string, isEvent: bool, n: string)
    requires ElementInstances(list, nameKey, isEvent).Some? && n in ElementInstances(list, nameKey, isEvent).value
    ensures Plain(ElementInstances(list, nameKey, isEvent).value[n])
  {
    var entries := ElementEntries(list, nameKey, isEvent);
    CollectedHolds(entries);
    var k :| 0 <= k < |entries| && entries[k] == Some((n, ElementInstances(list, nameKey, isEvent).value[n]));
    assert entries[k] == EventInstanceOf(list[k], nameKey, isEvent);
  }

  /** What holds of every instance on its own. */
  ghost predicate GoodInstance(d: ServiceInstance)
  {
    && d.asil != Invalid && d.binding.Lola?
    && (forall n :: n in d.binding.events ==> Plain(d.binding.events[n]))
    && (forall n :: n in d.binding.fields ==> Plain(d.binding.fields[n]))
  }

  lemma LolaInstanceIsPlain(o: Object)
    requires LolaInstanceOf(o).Some?
    ensures
      var b := LolaInstanceOf(o).value;
      && b.Lola? && (forall n :: n in b.events ==> Plain(b.events[n]))
      && (forall n :: n in b.fields ==> Plain(b.fields[n]))
  {
    var b := LolaInstanceOf(o).value;
    forall n | n in b.events ensures Plain(b.events[n]) { ElementsArePlain(o["events"].items, "eventName", true, n); }
    forall n | n in b.fields ensures Plain(b.fields[n]) { ElementsArePlain(o["fields"].items, "fieldName", false, n); }
  }

  lemma InstanceIsGood(j: Json)
    requires ServiceInstanceOf(j).Some?
    ensures GoodInstance(ServiceInstanceOf(j).value)
  {
    hide LolaInstanceOf, ServiceTypeIdentifier, IsSpecifier;
    var deployment := ListAt(j.members, "instances").value[0];
    LolaInstanceIsPlain(deployment.members);
  }

  lemma InstancesAreGood(list: seq<Json>, s: InstanceSpecifier)
    requires ServiceInstancesOf(list).Some? && s in ServiceInstancesOf(list).value
    ensures ServiceInstancesOf(list).value[s].specifier == s && GoodInstance(ServiceInstancesOf(list).value[s])
  {
    hide ServiceInstanceOf, GoodInstance;
    var entries := InstanceEntries(list);
    CollectedHolds(entries);
    var k :| 0 <= k < |entries| && entries[k] == Some((s, ServiceInstancesOf(list).value[s]));
    assert entries[k] == InstanceEntry(list[k]);
    InstanceIsGood(list[k]);
  }

  lemma {:induction false} TypeHasUniqueIds(bindings: seq<Json>)
    requires TypeDeploymentOf(bindings).Some? && TypeDeploymentOf(bindings).value.LolaType?
    ensures IdsUnique(TypeDeploymentOf(bindings).value.eventIds, TypeDeploymentOf(bindings).value.fieldIds)
  {
    if StringAt(bindings[0].members, "binding") == Some("SOME/IP") {
      TypeHasUniqueIds(bindings[1..]);
    }
  }

  lemma TypesHaveUniqueIds(list: seq<Json>, t: ServiceIdentifier)
    requires ServiceTypesOf(list).Some? && t in ServiceTypesOf(list).value && ServiceTypesOf(list).value[t].LolaType?
    ensures IdsUnique(ServiceTypesOf(list).value[t].eventIds, ServiceTypesOf(list).value[t].fieldIds)
  {
    hide TypeDeploymentOf, IdsUnique, ServiceTypeIdentifier;
    var entries := TypeEntries(list);
    CollectedHolds(entries);
    var k :| 0 <= k < |entries| && entries[k] == Some((t, ServiceTypesOf(list).value[t]));
    assert entries[k] == ServiceTypeOf(list[k]);
    TypeHasUniqueIds(ListAt(list[k].members, "bindings").value);
  }

  /** The main result: every configuration that is returned is well formed. */
  lemma ParsedIsWellFormed(json: Json)
    requires Parsed(json).Some?
    ensures WellFormed(Parsed(json).value)
  {
    hide ServiceTypesOf, ServiceInstancesOf, ProcessAsil, IdsUnique;
    var c := Parsed(json).value;
    var types, instances := ListAt(json.members, "serviceTypes").value, ListAt(json.members, "serviceInstances").value;
    forall s | s in c.instances ensures c.instances[s].specifier == s && GoodInstance(c.instances[s]) {
      InstancesAreGood(instances, s);
    }
    forall t | t in c.types && c.types[t].LolaType? ensures IdsUnique(c.types[t].eventIds, c.types[t].fieldIds) {
      TypesHaveUniqueIds(types, t);
    }
  }

  /** The deployment of instance `k` of the file. */
  predicate InstanceHasLevel(json: Json, k: nat, level: string)
  {
    && json.Obj? && HasList(json.members, "serviceInstances") && k < |json.members["serviceInstances"].items|
    && var j := json.members["serviceInstances"].items[k];
    && j.Obj? && HasList(j.members, "instances") && |j.members["instances"].items| == 1
    && j.members["instances"].items[0].Obj?
    && Has(j.members["instances"].items[0].members, "asil-level", Str(level))
  }

  predicate ProcessHasLevel(json: Json, level: string)
  {
    && json.Obj? && "global" in json.members && json.members["global"].Obj?
    && Has(json.members["global"].members, "asil-level", Str(level))
  }

  /** The levels of a returned configuration are the file's: an instance is ASIL-B
      exactly if its deployment says "B", and QM exactly if it says "QM"; the process
      is ASIL-B exactly if "global" says "B". */
  lemma LevelsAreTheFiles(json: Json, k: nat, s: InstanceSpecifier)
    requires Parsed(json).Some? && json.Obj? && HasList(json.members, "serviceInstances")
    requires k < |json.members["serviceInstances"].items| && json.members["serviceInstances"].items[k].Obj?
    requires Has(json.members["serviceInstances"].items[k].members, "instanceSpecifier", Str(s))
    ensures s in Parsed(json).value.instances
    ensures Parsed(json).value.instances[s].asil == AsilB <==> InstanceHasLevel(json, k, "B")
    ensures Parsed(json).value.instances[s].asil == AsilQm <==> InstanceHasLevel(json, k, "QM")
    ensures Parsed(json).value.processAsil == AsilB <==> ProcessHasLevel(json, "B")
  {
    hide Parsed, SaysService, SaysLola, EntriesHaveItems, NoEntryTwice;
    var c := Parsed(json).value;
    ParsedIff(json, c);
    assert HasEntry(json.members["serviceInstances"].items[k], c.instances, SaysInstance);
  }

  /** An instance marked "B" in a process that is not ends the process. */
  lemma LevelBNeedsProcessB(json: Json, k: nat)
    requires InstanceHasLevel(json, k, "B") && !ProcessHasLevel(json, "B")
    ensures Parsed(json).None?
  {
    hide Parsed, SaysService, SaysLola, EntriesHaveItems, NoEntryTwice;
    if Parsed(json).Some? {
      var c := Parsed(json).value;
      ParsedIff(json, c);
      var items := json.members["serviceInstances"].items;
      assert HasEntry(items[k], c.instances, SaysInstance);
      var s :| s in c.instances && About(items[k], c.instances, s, SaysInstance);
      LevelsAreTheFiles(json, k, s);
      assert false;
    }
  }

  /** `Runtime::resolve`. */
  function Resolve(c: Config, specifier: InstanceSpecifier): seq<(ServiceInstance, TypeBinding)>
  {
    if specifier in c.instances then
      var d := c.instances[specifier];
      if d.service in c.types then [(d, c.types[d.service])] else []
    else []
  }

  /** For a parsed configuration it yields exactly one identifier for a configured
      specifier, with the type that declares the instance, and none otherwise. */
  lemma ResolveIsExact(json: Json, specifier: InstanceSpecifier)
    requires Parsed(json).Some?
    ensures
      var c := Parsed(json).value;
      if specifier in c.instances then
        |Resolve(c, specifier)| == 1
        && Resolve(c, specifier)[0].0.specifier == specifier
        && Resolve(c, specifier)[0].1.LolaType?
        && Resolve(c, specifier)[0].0.binding.events.Keys <= Resolve(c, specifier)[0].1.eventIds.Keys
        && Resolve(c, specifier)[0].0.binding.fields.Keys <= Resolve(c, specifier)[0].1.fieldIds.Keys
      else Resolve(c, specifier) == []
  {
    hide Parsed;
    ParsedIsWellFormed(json);
  }
}
