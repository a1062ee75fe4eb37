/** The format of serialised deployments, read off the JSON tree key by key, and the
    proof that it is exactly what the readers accept. */
module DeploymentFormat {

  import opened Wrappers
  import opened Json
  import opened Deployments

  predicate Versioned(o: Object) { Has(o, "serializationVersion", Num(1)) }

  predicate HasObject(o: Object, key: string) { key in o && o[key].Obj? }

  // ----- parts of bindings

  /** A missing number is none, and so is one that cannot be read. */
  ghost predicate RecordsNumber(o: Object, key: string, limit: nat, n: Option<nat>)
  {
    if n.Some? then HasNumber(o, key, limit, n.value) else forall k: nat :: !HasNumber(o, key, limit, k)
  }

  ghost predicate RecordsBool(o: Object, key: string, b: Option<bool>)
  {
    if b.Some? then Has(o, key, Bool(b.value)) else forall f :: !Has(o, key, Bool(f))
  }

  ghost predicate RecordsEvent(j: Json, e: EventInstance)
  {
    && j.Obj? && Versioned(j.members)
    && RecordsNumber(j.members, "numberOfSampleSlots", 0x1_0000, e.sampleSlots)
    && RecordsNumber(j.members, "maxSubscribers", 0x100, e.maxSubscribers)
    && RecordsNumber(j.members, "maxConcurrentAllocations", 0x100, e.maxConcurrentAllocations)
    && RecordsBool(j.members, "enforceMaxSamples", e.enforceMaxSamples)
    && !e.tracing
  }

  predicate RecordsNothing(j: Json, e: Nothing) { j.Obj? }

  predicate RecordsIdElement(j: Json, id: u8) { j == Num(id) }

  /** The object at the key has one member for each element. */
  ghost predicate RecordsMap<T>(o: Object, key: string, m: map<string, T>, records: (Json, T) -> bool)
  {
    && HasObject(o, key) && o[key].members.Keys == m.Keys
    && forall n :: n in m ==> records(o[key].members[n], m[n])
  }

  function QualityName(q: QualityType): string
  {
    match q case Invalid => "kInvalid" case AsilQm => "kASIL_QM" case AsilB => "kASIL_B"
  }

  /** One list of user ids for each quality. */
  ghost predicate ListsUsers(said: Object, users: UidMap)
  {
    && (forall s :: s in said ==> s == "kInvalid" || s == "kASIL_QM" || s == "kASIL_B")
    && (forall q :: q in users <==> QualityName(q) in said)
    && forall q :: q in users ==> ListsNumbers(said[QualityName(q)], users[q])
  }

  ghost predicate RecordsUsers(o: Object, key: string, users: UidMap)
  {
    HasObject(o, key) && ListsUsers(o[key].members, users)
  }

  predicate RecordsId(o: Object, id: u16) { Versioned(o) && HasNumber(o, "instanceId", 0x1_0000, id) }

  /** An id has an object of its own. */
  predicate MayRecordId(o: Object, id: Option<u16>)
  {
    if id.Some? then HasObject(o, "instanceId") && RecordsId(o["instanceId"].members, id.value)
    else "instanceId" !in o
  }

  ghost predicate RecordsLola(o: Object, b: Binding)
  {
    && b.Lola? && Versioned(o) && MayRecordId(o, b.instanceId)
    && MayHaveNumber(o, "sharedMemorySize", 0x1_0000_0000_0000_0000, b.sharedMemorySize)
    && RecordsMap(o, "events", b.events, RecordsEvent)
    && RecordsMap(o, "fields", b.fields, RecordsEvent)
    && Has(o, "strict", Bool(b.strict))
    && RecordsUsers(o, "allowedConsumer", b.allowedConsumer)
    && RecordsUsers(o, "allowedProvider", b.allowedProvider)
  }

  ghost predicate RecordsSomeIp(o: Object, b: Binding)
  {
    && b.SomeIp? && Versioned(o) && MayRecordId(o, b.someIpId)
    && RecordsMap(o, "events", b.someIpEvents, RecordsNothing)
    && RecordsMap(o, "fields", b.someIpFields, RecordsNothing)
  }

  // ----- whole deployments

  /** The number of the alternative; each but the blank one has an object of its own. */
  predicate IsAlternative(o: Object, index: nat, blank: bool)
  {
    Has(o, "bindingInfoIndex", Num(index)) && (blank || HasObject(o, "bindingInfo"))
  }

  ghost predicate RecordsBinding(o: Object, b: Binding)
  {
    match b
    case Lola(_, _, _, _, _, _, _) => IsAlternative(o, 0, false) && RecordsLola(o["bindingInfo"].members, b)
    case SomeIp(_, _, _) => IsAlternative(o, 1, false) && RecordsSomeIp(o["bindingInfo"].members, b)
    case Blank => IsAlternative(o, 2, true)
  }

  predicate RecordsVersion(o: Object, v: ServiceVersion)
  {
    && Versioned(o)
    && HasNumber(o, "majorVersion", 0x1_0000_0000, v.major) && HasNumber(o, "minorVersion", 0x1_0000_0000, v.minor)
  }

  predicate RecordsService(o: Object, s: ServiceIdentifier)
  {
    && Versioned(o) && "serviceType" in o && o["serviceType"].Str? && UpToNul(o["serviceType"].text, s.name)
    && HasObject(o, "version") && RecordsVersion(o["version"].members, s.version)
  }

  ghost predicate RecordsInstance(o: Object, d: ServiceInstance)
  {
    && Versioned(o) && HasObject(o, "service") && RecordsService(o["service"].members, d.service)
    && RecordsBinding(o, d.binding)
    && Has(o, "asilLevel", Str(QualityName(d.asil)))
    && Has(o, "instanceSpecifier", Str(d.specifier))
  }

  ghost predicate RecordsLolaType(o: Object, t: TypeBinding)
  {
    && t.LolaType? && Versioned(o) && HasNumber(o, "serviceId", 0x1_0000, t.serviceId)
    && RecordsMap(o, "events", t.eventIds, RecordsIdElement)
    && RecordsMap(o, "fields", t.fieldIds, RecordsIdElement)
  }

  ghost predicate RecordsType(o: Object, t: TypeBinding)
  {
    && Versioned(o)
    && match t
       case LolaType(_, _, _) => IsAlternative(o, 0, false) && RecordsLolaType(o["bindingInfo"].members, t)
       case BlankType => IsAlternative(o, 1, true)
  }

  predicate RecordsInstanceId(o: Object, i: InstanceId)
  {
    && Versioned(o)
    && match i
       case LolaId(id) => IsAlternative(o, 0, false) && RecordsId(o["bindingInfo"].members, id)
       case SomeIpId(id) => IsAlternative(o, 1, false) && RecordsId(o["bindingInfo"].members, id)
       case BlankId => IsAlternative(o, 2, true)
  }

  // ----- the readers accept exactly this

  lemma VersionIff(o: Object)
    ensures VersionIs1(o) <==> Versioned(o)
  {
    hide KeyOf;
  }

  lemma EventIff(j: Json, e: EventInstance)
    ensures EventFromJson(j) == Some(e) <==> RecordsEvent(j, e)
  {
    hide NumberAt, BoolAt, RecordsNumber, RecordsBool, KeyOf, VersionIs1, Versioned;
    if j.Obj? {
      VersionIff(j.members);
      NumberIff(j.members, "numberOfSampleSlots", U16, e.sampleSlots);
      NumberIff(j.members, "maxSubscribers", U8, e.maxSubscribers);
      NumberIff(j.members, "maxConcurrentAllocations", U8, e.maxConcurrentAllocations);
      BoolIff(j.members, "enforceMaxSamples", e.enforceMaxSamples);
    }
  }

  lemma NumberIff(o: Object, key: string, limit: nat, n: Option<nat>)
    ensures NumberAt(o, key, limit) == n <==> RecordsNumber(o, key, limit, n)
  {
    if NumberAt(o, key, limit).Some? {
      assert HasNumber(o, key, limit, NumberAt(o, key, limit).value);
    }
  }

  lemma BoolIff(o: Object, key: string, b: Option<bool>)
    ensures BoolAt(o, key) == b <==> RecordsBool(o, key, b)
  {
    if BoolAt(o, key).Some? {
      assert Has(o, key, Bool(BoolAt(o, key).value));
    }
  }

  lemma MapIff<T(!new)>(o: Object, key: string, m: map<string, T>, parse: Json -> Option<T>, records: (Json, T) -> bool)
    requires forall j, e :: parse(j) == Some(e) <==> records(j, e)
    ensures ElementsAt(o, key, parse) == Some(m) <==> RecordsMap(o, key, m, records)
  {
    if HasObject(o, key) {
      var said := o[key].members;
      if RecordsMap(o, key, m, records) {
        assert forall n :: n in said ==> parse(said[n]) == Some(m[n]);
        assert (map n | n in said :: parse(said[n]).value) == m;
      }
    }
  }

  lemma EventsIff(o: Object, key: string, m: map<string, EventInstance>)
    ensures ElementsAt(o, key, EventFromJson) == Some(m) <==> RecordsMap(o, key, m, RecordsEvent)
  {
    hide EventFromJson, RecordsEvent, RecordsMap, ElementsAt;
    forall j, e ensures EventFromJson(j) == Some(e) <==> RecordsEvent(j, e) { EventIff(j, e); }
    MapIff(o, key, m, EventFromJson, RecordsEvent);
  }

  lemma NothingsIff(o: Object, key: string, m: map<string, Nothing>)
    ensures ElementsAt(o, key, NothingFromJson) == Some(m) <==> RecordsMap(o, key, m, RecordsNothing)
  {
    hide RecordsMap, ElementsAt;
    forall j, e: Nothing ensures NothingFromJson(j) == Some(e) <==> RecordsNothing(j, e) { assert e == Nothing; }
    MapIff(o, key, m, NothingFromJson, RecordsNothing);
  }

  lemma IdElementsIff(o: Object, key: string, m: map<string, u8>)
    ensures ElementsAt(o, key, IdElementFromJson) == Some(m) <==> RecordsMap(o, key, m, RecordsIdElement)
  {
    hide RecordsMap, ElementsAt;
    MapIff(o, key, m, IdElementFromJson, RecordsIdElement);
  }

  lemma UserIsRead(said: Object, users: UidMap, s: string)
    requires ListsUsers(said, users) && s in said
    ensures QualityFromString(s).Some? && QualityToString(QualityFromString(s).value) == s
    ensures QualityFromString(s).value in users
    ensures UidsFromJson(said[s]) == Some(users[QualityFromString(s).value])
  {
    var q := QualityFromString(s).value;
    assert QualityName(q) == s;
    UidsIff(said[s], users[q]);
  }

  lemma UsersAreRead(said: Object, users: UidMap)
    requires ListsUsers(said, users)
    ensures UidMapFromJson(said) == Some(users)
  {
    forall s | s in said
      ensures QualityFromString(s).Some? && QualityToString(QualityFromString(s).value) == s
      ensures QualityFromString(s).value in users
      ensures UidsFromJson(said[s]) == Some(users[QualityFromString(s).value])
    {
      UserIsRead(said, users, s);
    }
    forall q: QualityType
      ensures q in QUALITIES && QualityName(q) == QualityToString(q)
      ensures QualityFromString(QualityToString(q)) == Some(q)
    {
      InOrOut(map[], q);
    }
    hide UidsFromJson, QualityFromString, QualityToString, QualityName;
    assert ReadableUidMap(said);
    assert UidMapFromJson(said).value == users;
  }

  lemma ReadUsersAreListed(said: Object, users: UidMap)
    requires UidMapFromJson(said) == Some(users)
    ensures ListsUsers(said, users)
  {
    forall q ensures q in users <==> QualityName(q) in said { InOrOut(map[], q); }
    forall q | q in users ensures ListsNumbers(said[QualityName(q)], users[q]) {
      UidsIff(said[QualityName(q)], users[q]);
    }
  }

  lemma UidMapIff(o: Object, key: string, users: UidMap)
    ensures UidMapAt(o, key) == Some(users) <==> RecordsUsers(o, key, users)
  {
    hide UidMapFromJson, ListsUsers;
    if HasObject(o, key) {
      if ListsUsers(o[key].members, users) {
        UsersAreRead(o[key].members, users);
      } else if UidMapFromJson(o[key].members) == Some(users) {
        ReadUsersAreListed(o[key].members, users);
      }
    }
  }

  lemma IdIff(o: Object, id: u16)
    ensures IdFromJson(o) == Some(id) <==> RecordsId(o, id)
  {
  }

  lemma LolaIff(o: Object, b: Binding)
    ensures LolaFromJson(o) == Some(b) <==> RecordsLola(o, b)
  {
    hide ElementsAt, RecordsMap, UidMapAt, RecordsUsers, KeyOf;
    if b.Lola? {
      EventsIff(o, "events", b.events);
      EventsIff(o, "fields", b.fields);
      UidMapIff(o, "allowedConsumer", b.allowedConsumer);
      UidMapIff(o, "allowedProvider", b.allowedProvider);
    }
  }

  lemma SomeIpIff(o: Object, b: Binding)
    ensures SomeIpFromJson(o) == Some(b) <==> RecordsSomeIp(o, b)
  {
    hide ElementsAt, RecordsMap, KeyOf;
    if b.SomeIp? {
      NothingsIff(o, "events", b.someIpEvents);
      NothingsIff(o, "fields", b.someIpFields);
    }
  }

  lemma VariantAtIs<V>(o: Object, alternatives: seq<Object -> Option<V>>)
    ensures VariantAt(o, alternatives) ==
              if "bindingInfoIndex" in o && o["bindingInfoIndex"].Num?
                 && 0 <= o["bindingInfoIndex"].value < |alternatives|
              then alternatives[o["bindingInfoIndex"].value](o) else None
  {
    hide KeyOf;
    if "bindingInfoIndex" in o && o["bindingInfoIndex"].Num? {
      DeserializeVariantSelects(0, alternatives, o, o["bindingInfoIndex"].value);
    }
  }

  lemma BindingIff(o: Object, b: Binding)
    ensures VariantAt(o, BindingAlternatives()) == Some(b) <==> RecordsBinding(o, b)
  {
    hide LolaFromJson, SomeIpFromJson, RecordsLola, RecordsSomeIp, VariantAt, KeyOf;
    VariantAtIs(o, BindingAlternatives());
    if HasObject(o, "bindingInfo") {
      LolaIff(o["bindingInfo"].members, b);
      SomeIpIff(o["bindingInfo"].members, b);
      LolaGives(o["bindingInfo"].members);
    }
  }

  lemma LolaGives(o: Object)
    ensures LolaFromJson(o).Some? ==> LolaFromJson(o).value.Lola?
    ensures SomeIpFromJson(o).Some? ==> SomeIpFromJson(o).value.SomeIp?
  {
  }

  lemma ServiceVersionIff(o: Object, v: ServiceVersion)
    ensures VersionFromJson(o) == Some(v) <==> RecordsVersion(o, v)
  {
    hide KeyOf;
  }

  lemma ServiceIff(o: Object, s: ServiceIdentifier)
    ensures ServiceFromJson(o) == Some(s) <==> RecordsService(o, s)
  {
    hide KeyOf, CString, UpToNul, VersionFromJson, RecordsVersion, VersionIs1, Versioned;
    VersionIff(o);
    if "serviceType" in o && o["serviceType"].Str? {
      CutAtNul(o["serviceType"].text, s.name);
    }
    if HasObject(o, "version") {
      ServiceVersionIff(o["version"].members, s.version);
    }
  }

  /** A service instance deployment is read from an object exactly if the object
      records it. */
  lemma InstanceIff(o: Object, d: ServiceInstance)
    ensures InstanceFromJson(o) == Some(d) <==> RecordsInstance(o, d)
  {
    hide ServiceFromJson, RecordsService, RecordsBinding, VariantAt, BindingAlternatives, KeyOf, IsSpecifier;
    BindingIff(o, d.binding);
    if HasObject(o, "service") {
      ServiceIff(o["service"].members, d.service);
    }
  }

  lemma LolaTypeIff(o: Object, t: TypeBinding)
    ensures LolaTypeFromJson(o) == Some(t) <==> RecordsLolaType(o, t)
  {
    hide ElementsAt, RecordsMap, KeyOf;
    if t.LolaType? {
      IdElementsIff(o, "events", t.eventIds);
      IdElementsIff(o, "fields", t.fieldIds);
    }
  }

  lemma TypeIff(o: Object, t: TypeBinding)
    ensures TypeFromJson(o) == Some(t) <==> RecordsType(o, t)
  {
    hide LolaTypeFromJson, VariantAt, KeyOf;
    VariantAtIs(o, TypeAlternatives());
    if HasObject(o, "bindingInfo") {
      LolaTypeIff(o["bindingInfo"].members, t);
      hide RecordsLolaType;
    }
  }

  lemma InstanceIdIff(o: Object, i: InstanceId)
    ensures InstanceIdFromJson(o) == Some(i) <==> RecordsInstanceId(o, i)
  {
    hide IdFromJson, RecordsId, VariantAt, KeyOf;
    VariantAtIs(o, InstanceIdAlternatives());
    if HasObject(o, "bindingInfo") && !i.BlankId? {
      IdIff(o["bindingInfo"].members, i.id);
    }
  }

  /** No reader takes an object without the version, or with another one. */
  lemma OnlyThisVersion(o: Object)
    requires !Versioned(o)
    ensures EventFromJson(Obj(o)) == None && IdFromJson(o) == None && LolaFromJson(o) == None
    ensures SomeIpFromJson(o) == None && VersionFromJson(o) == None && ServiceFromJson(o) == None
    ensures InstanceFromJson(o) == None && LolaTypeFromJson(o) == None && TypeFromJson(o) == None
    ensures InstanceIdFromJson(o) == None
  {
    assert !VersionIs1(o);
  }

  // ----- and the writers write it

  /** What is written records the deployment, as it comes back. */
  lemma WrittenInstance(d: ServiceInstance)
    ensures RecordsInstance(InstanceToJson(d), AfterRoundTrip(d))
  {
    ServiceInstanceRoundTrip(d);
    InstanceIff(InstanceToJson(d), AfterRoundTrip(d));
  }

  lemma WrittenType(t: TypeBinding)
    ensures RecordsType(TypeToJson(t), t)
  {
    ServiceTypeRoundTrip(t);
    TypeIff(TypeToJson(t), t);
  }

  lemma WrittenInstanceId(i: InstanceId)
    ensures RecordsInstanceId(InstanceIdToJson(i), i)
  {
    InstanceIdRoundTrip(i);
    InstanceIdIff(InstanceIdToJson(i), i);
  }
}
