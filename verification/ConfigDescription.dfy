/** What a configuration file says, read off the JSON tree key by key: the relation
    the parser is proved against. */
module ConfigDescription {

  import opened Wrappers
  import opened Json
  import opened Deployments

  datatype Config = Config(
    types: map<ServiceIdentifier, TypeBinding>,
    instances: map<InstanceSpecifier, ServiceInstance>,
    processAsil: QualityType)

  // ----- lists and maps

  /** The item says of some name what the map holds for it. */
  ghost predicate About<K, V>(j: Json, m: map<K, V>, n: K, says: (Json, K, V) -> bool) { n in m && says(j, n, m[n]) }

  ghost predicate HasEntry<K, V>(j: Json, m: map<K, V>, says: (Json, K, V) -> bool)
  {
    exists n :: n in m && About(j, m, n, says)
  }

  /** Every item is about some entry of the map ... */
  ghost predicate ItemsHaveEntries<K, V>(items: seq<Json>, m: map<K, V>, says: (Json, K, V) -> bool)
  {
    forall k :: 0 <= k < |items| ==> HasEntry(items[k], m, says)
  }

  /** ... every entry has some item ... */
  ghost predicate EntriesHaveItems<K, V>(items: seq<Json>, m: map<K, V>, says: (Json, K, V) -> bool)
  {
    forall n :: n in m ==> exists k :: 0 <= k < |items| && About(items[k], m, n, says)
  }

  /** ... and none has two. */
  ghost predicate NoEntryTwice<K, V>(items: seq<Json>, m: map<K, V>, says: (Json, K, V) -> bool)
  {
    forall j, k, n :: 0 <= j < k < |items| && n in m ==>
      !(About(items[j], m, n, says) && About(items[k], m, n, says))
  }

  ghost predicate ItemByItem<K, V>(items: seq<Json>, m: map<K, V>, says: (Json, K, V) -> bool)
  {
    ItemsHaveEntries(items, m, says) && EntriesHaveItems(items, m, says) && NoEntryTwice(items, m, says)
  }

  // ----- service types

  predicate SaysService(o: Object, s: ServiceIdentifier)
  {
    && "serviceTypeName" in o && o["serviceTypeName"].Str? && UpToNul(o["serviceTypeName"].text, s.name)
    && "version" in o && o["version"].Obj?
    && HasNumber(o["version"].members, "major", 0x1_0000_0000, s.version.major)
    && HasNumber(o["version"].members, "minor", 0x1_0000_0000, s.version.minor)
  }

  /** An id is configured with 16 bits, of which the lower eight are kept. */
  predicate SaysId(j: Json, nameKey: string, idKey: string, n: string, id: u8)
  {
    && j.Obj? && Has(j.members, nameKey, Str(n))
    && idKey in j.members && j.members[idKey].Num?
    && 0 <= j.members[idKey].value < 0x1_0000 && id == j.members[idKey].value % 0x100
  }

  ghost function IdSays(nameKey: string, idKey: string): (Json, string, u8) -> bool
  {
    (j: Json, n: string, id: u8) => SaysId(j, nameKey, idKey, n, id)
  }

  ghost predicate SaysIds(o: Object, key: string, nameKey: string, idKey: string, ids: map<string, u8>)
  {
    if key !in o then ids == map[]
    else o[key].List? && ItemByItem(o[key].items, ids, IdSays(nameKey, idKey))
  }

  ghost predicate IdsUnique(events: map<string, u8>, fields: map<string, u8>)
  {
    && (forall a, b :: a in events && b in events && a != b ==> events[a] != events[b])
    && (forall a, b :: a in fields && b in fields && a != b ==> fields[a] != fields[b])
    && (forall a, b :: a in events && b in fields ==> events[a] != fields[b])
  }

  ghost predicate SaysLolaType(o: Object, t: TypeBinding)
  {
    && t.LolaType? && HasNumber(o, "serviceId", 0x1_0000, t.serviceId)
    && ("events" in o || "fields" in o)
    && SaysIds(o, "events", "eventName", "eventId", t.eventIds)
    && SaysIds(o, "fields", "fieldName", "fieldId", t.fieldIds)
    && IdsUnique(t.eventIds, t.fieldIds)
  }

  predicate HasBinding(j: Json, name: string) { j.Obj? && Has(j.members, "binding", Str(name)) }

  /** All bindings before number `k` are SOME/IP, and that one is SHM and says what the
      type is, or there is none and the type is blank. */
  ghost predicate TypeDecidedAt(bindings: seq<Json>, t: TypeBinding, k: int)
  {
    && 0 <= k <= |bindings|
    && (forall j :: 0 <= j < k ==> HasBinding(bindings[j], "SOME/IP"))
    && if k == |bindings| then t == BlankType
       else HasBinding(bindings[k], "SHM") && SaysLolaType(bindings[k].members, t)
  }

  ghost predicate SaysTypeBinding(bindings: seq<Json>, t: TypeBinding) { exists k :: TypeDecidedAt(bindings, t, k) }

  ghost predicate SaysServiceType(j: Json, s: ServiceIdentifier, t: TypeBinding)
  {
    && j.Obj? && SaysService(j.members, s)
    && HasList(j.members, "bindings") && SaysTypeBinding(j.members["bindings"].items, t)
  }

  // ----- service instances

  /** The deprecated key is for events only and excludes the new one. */
  predicate SaysElement(j: Json, nameKey: string, isEvent: bool, n: string, e: EventInstance)
  {
    && j.Obj? && Has(j.members, nameKey, Str(n)) && "maxConcurrentAllocations" !in j.members
    && (if isEvent && "maxSamples" in j.members then
          "numberOfSampleSlots" !in j.members && MayHaveNumber(j.members, "maxSamples", 0x1_0000, e.sampleSlots)
        else MayHaveNumber(j.members, "numberOfSampleSlots", 0x1_0000, e.sampleSlots))
    && MayHaveNumber(j.members, "maxSubscribers", 0x100, e.maxSubscribers)
    && MayHaveBool(j.members, "enforceMaxSamples", e.enforceMaxSamples)
    && e.maxConcurrentAllocations.None? && !e.tracing
  }

  ghost function ElementSays(nameKey: string, isEvent: bool): (Json, string, EventInstance) -> bool
  {
    (j: Json, n: string, e: EventInstance) => SaysElement(j, nameKey, isEvent, n, e)
  }

  ghost predicate SaysElements(o: Object, key: string, nameKey: string, isEvent: bool, m: map<string, EventInstance>)
  {
    if key !in o then m == map[]
    else o[key].List? && ItemByItem(o[key].items, m, ElementSays(nameKey, isEvent))
  }

  /** "QM" and "B" and nothing else. */
  ghost predicate SaysUsers(o: Object, key: string, users: UidMap)
  {
    if key !in o then users == map[]
    else
      && o[key].Obj? && var said := o[key].members;
      && (forall s :: s in said ==> s == "QM" || s == "B")
      && (AsilQm in users <==> "QM" in said) && (AsilB in users <==> "B" in said) && Invalid !in users
      && ("QM" in said ==> ListsNumbers(said["QM"], users[AsilQm]))
      && ("B" in said ==> ListsNumbers(said["B"], users[AsilB]))
  }

  predicate SaysStrict(o: Object, strict: bool)
  {
    if strict then Has(o, "permission-checks", Str("strict"))
    else "permission-checks" !in o || o["permission-checks"] == Str("file-permissions-on-empty")
  }

  ghost predicate SaysLola(o: Object, b: Binding)
  {
    && b.Lola?
    && MayHaveNumber(o, "instanceId", 0x1_0000, b.instanceId)
    && MayHaveNumber(o, "shm-size", 0x1_0000_0000_0000_0000, b.sharedMemorySize)
    && SaysElements(o, "events", "eventName", true, b.events)
    && SaysElements(o, "fields", "fieldName", false, b.fields)
    && SaysStrict(o, b.strict)
    && SaysUsers(o, "allowedConsumer", b.allowedConsumer)
    && SaysUsers(o, "allowedProvider", b.allowedProvider)
  }

  predicate SaysAsil(o: Object, q: QualityType)
  {
    match q
    case AsilQm => Has(o, "asil-level", Str("QM"))
    case AsilB => Has(o, "asil-level", Str("B"))
    case Invalid => false
  }

  /** A specifier, a service and exactly one deployment. */
  ghost predicate SaysInstance(j: Json, s: InstanceSpecifier, d: ServiceInstance)
  {
    && d.specifier == s
    && j.Obj? && Has(j.members, "instanceSpecifier", Str(s)) && SaysService(j.members, d.service)
    && HasList(j.members, "instances") && |j.members["instances"].items| == 1
    && var deployment := j.members["instances"].items[0];
       deployment.Obj? && SaysAsil(deployment.members, d.asil)
       && HasBinding(deployment, "SHM") && SaysLola(deployment.members, d.binding)
  }

  // ----- the whole configuration

  /** Without a level the process is QM. */
  predicate SaysProcess(o: Object, q: QualityType)
  {
    if "global" !in o then q == AsilQm
    else
      && o["global"].Obj?
      && if "asil-level" in o["global"].members then SaysAsil(o["global"].members, q) else q == AsilQm
  }

  ghost predicate AsilLevelsFit(c: Config)
  {
    forall s :: s in c.instances && c.instances[s].asil == AsilB ==> c.processAsil == AsilB
  }

  /** The service of the instance has a LoLa type that declares all its elements. */
  ghost predicate Declared(d: ServiceInstance, types: map<ServiceIdentifier, TypeBinding>)
  {
    && d.service in types && d.binding.Lola? && types[d.service].LolaType?
    && d.binding.events.Keys <= types[d.service].eventIds.Keys
    && d.binding.fields.Keys <= types[d.service].fieldIds.Keys
  }

  /** The file describes the configuration and both cross-checks hold of it. */
  ghost predicate Describes(json: Json, c: Config)
  {
    && json.Obj? && HasList(json.members, "serviceTypes") && HasList(json.members, "serviceInstances")
    && ItemByItem(json.members["serviceTypes"].items, c.types, SaysServiceType)
    && ItemByItem(json.members["serviceInstances"].items, c.instances, SaysInstance)
    && SaysProcess(json.members, c.processAsil)
    && AsilLevelsFit(c) && forall s :: s in c.instances ==> Declared(c.instances[s], c.types)
  }
}
