/** Service deployments and how they survive serialisation. */
module Deployments {

  import opened Wrappers
  import opened Json

  // ----- widths and names

  const U8 := 0x100
  const U16 := 0x1_0000
  const U32 := 0x1_0000_0000
  const U64 := 0x1_0000_0000_0000_0000

  type u8 = x: nat | x < U8
  type u16 = x: nat | x < U16
  type u32 = x: nat | x < U32
  type u64 = x: nat | x < U64

  const NUL := 0 as char

  /** What is left of a string that is passed on as a pointer to its characters. */
  function CString(s: string): (c: string)
    ensures c <= s && (c == s <==> NUL !in s)
    ensures NUL !in c && (c == s || s[|c|] == NUL)
  {
    if s == "" || s[0] == NUL then ""
    else
      assert s == [s[0]] + s[1..];
      [s[0]] + CString(s[1..])
  }

  lemma {:induction false} CStringTwice(s: string)
    ensures NUL !in CString(s) && CString(CString(s)) == CString(s)
  {
    if s != "" && s[0] != NUL {
      CStringTwice(s[1..]);
    }
  }

  /** What is left of the text up to its first NUL. */
  predicate UpToNul(text: string, s: string)
  {
    s <= text && NUL !in s && (s == text || text[|s|] == NUL)
  }

  lemma NoLonger(text: string, c: string, s: string)
    requires c <= text && s <= text && NUL !in s && (c == text || text[|c|] == NUL)
    ensures |s| <= |c|
  {
  }

  lemma CutAtNul(text: string, s: string)
    ensures CString(text) == s <==> UpToNul(text, s)
  {
    hide CString;
    if UpToNul(text, s) {
      NoLonger(text, CString(text), s);
      NoLonger(text, s, CString(text));
    }
  }

  predicate IsShortNameStart(c: char)
  {
    'A' <= c <= 'Z' || 'a' <= c <= 'z' || c == '_' || c == '/'
  }

  /** The three expressions `InstanceSpecifier::Create` checks. */
  predicate IsShortNameValid(s: string)
  {
    && s != "" && IsShortNameStart(s[0])
    && (forall k :: 0 <= k < |s| ==> IsShortNameStart(s[k]) || '0' <= s[k] <= '9')
    && s[|s| - 1] != '/'
    && (forall k :: 0 <= k < |s| - 1 ==> !(s[k] == '/' && s[k + 1] == '/'))
  }

  /** The check sees the characters up to the first NUL only. */
  predicate IsSpecifier(s: string) { IsShortNameValid(CString(s)) }

  type InstanceSpecifier = s: string | IsSpecifier(s) witness "a"

  datatype QualityType = Invalid | AsilQm | AsilB

  function QualityToString(q: QualityType): (s: string)
    ensures QualityFromString(s) == Some(q)
  {
    match q
    case Invalid => "kInvalid"
    case AsilQm => "kASIL_QM"
    case AsilB => "kASIL_B"
  }

  function QualityFromString(s: string): (q: Option<QualityType>)
  {
    if s == "kInvalid" then Some(Invalid)
    else if s == "kASIL_QM" then Some(AsilQm)
    else if s == "kASIL_B" then Some(AsilB)
    else None
  }

  lemma QualityNames(s: string)
    ensures QualityFromString(s).Some? <==> exists q :: QualityToString(q) == s
    ensures QualityFromString(s).Some? ==> QualityToString(QualityFromString(s).value) == s
  {
    if QualityFromString(s).Some? {
      assert QualityToString(QualityFromString(s).value) == s;
    }
  }

  // ----- the types

  datatype EventInstance = EventInstance(
    sampleSlots: Option<u16>,
    maxSubscribers: Option<u8>,
    maxConcurrentAllocations: Option<u8>,
    enforceMaxSamples: Option<bool>,
    tracing: bool)

  type UidMap = map<QualityType, seq<u32>>

  /** The elements of a SOME/IP deployment carry nothing. */
  datatype Nothing = Nothing

  datatype Binding =
    | Lola(
        instanceId: Option<u16>,
        sharedMemorySize: Option<u64>,
        events: map<string, EventInstance>,
        fields: map<string, EventInstance>,
        strict: bool,
        allowedConsumer: UidMap,
        allowedProvider: UidMap)
    | SomeIp(someIpId: Option<u16>, someIpEvents: map<string, Nothing>, someIpFields: map<string, Nothing>)
    | Blank

  datatype ServiceVersion = ServiceVersion(major: u32, minor: u32)

  datatype ServiceIdentifier = ServiceIdentifier(name: string, version: ServiceVersion)

  datatype ServiceInstance = ServiceInstance(
    service: ServiceIdentifier, binding: Binding, asil: QualityType, specifier: InstanceSpecifier)

  datatype TypeBinding =
    | LolaType(serviceId: u16, eventIds: map<string, u8>, fieldIds: map<string, u8>)
    | BlankType

  datatype InstanceId =
    | LolaId(id: u16)
    | SomeIpId(id: u16)
    | BlankId

  // ----- serialisation

  const VERSION: Json := Num(1)

  /** Stores a number under a key if there is one. */
  function With(o: Object, key: string, value: Option<nat>): Object
  {
    if value.Some? then o[key := Num(value.value)] else o
  }

  function EventToJson(e: EventInstance): Json
  {
    var o := map[Text(SerializationVersionKey) := VERSION];
    var o := With(o, Text(NumberOfSampleSlotsKey), e.sampleSlots);
    var o := With(o, Text(MaxSubscribersKey), e.maxSubscribers);
    var o := With(o, Text(MaxConcurrentAllocationsKey), e.maxConcurrentAllocations);
    Obj(if e.enforceMaxSamples.Some? then o[Text(EnforceMaxSamplesKey) := Bool(e.enforceMaxSamples.value)] else o)
  }

  /** An optional number; one that does not fit leaves the option empty. */
  function OptionalAt(o: Object, key: string, limit: nat): (r: Option<nat>)
    ensures r.Some? ==> r.value < limit
  {
    NumberAt(o, key, limit)
  }

  function EventFromJson(j: Json): Option<EventInstance>
  {
    if j.Obj? && VersionIs1(j.members) then
      var o := j.members;
      Some(EventInstance(
        OptionalAt(o, Text(NumberOfSampleSlotsKey), U16),
        OptionalAt(o, Text(MaxSubscribersKey), U8),
        OptionalAt(o, Text(MaxConcurrentAllocationsKey), U8),
        BoolAt(o, Text(EnforceMaxSamplesKey)),
        false))
    else None
  }

  function NothingToJson(e: Nothing): Json { Obj(map[]) }

  function NothingFromJson(j: Json): Option<Nothing> { if j.Obj? then Some(Nothing) else None }

  function IdToJson(id: u16): Json
  {
    Obj(map[Text(SerializationVersionKey) := VERSION, Text(InstanceIdKey) := Num(id)])
  }

  function IdFromJson(o: Object): (id: Option<u16>)
  {
    if VersionIs1(o) then NumberAt(o, Text(InstanceIdKey), U16) else None
  }

  /** An id stored as an object of its own under "instanceId": absent, read, or fatal. */
  function OptionalIdAt(o: Object): Option<Option<u16>>
  {
    if Text(InstanceIdKey) !in o then Some(None)
    else
      var inner := ObjectAt(o, Text(InstanceIdKey));
      if inner.Some? && IdFromJson(inner.value).Some? then Some(Some(IdFromJson(inner.value).value)) else None
  }

  // ----- permissions

  const QUALITIES: set<QualityType> := {Invalid, AsilQm, AsilB}

  const QUALITY_NAMES: set<string> := {"kInvalid", "kASIL_QM", "kASIL_B"}

  function UidsToJson(uids: seq<u32>): Json { List(seq(|uids|, i requires 0 <= i < |uids| => Num(uids[i]))) }

  function UidsFromJson(j: Json): Option<seq<u32>>
  {
    if j.List? && forall i :: 0 <= i < |j.items| ==> NumberOf(j.items[i], U32).Some? then
      Some(seq(|j.items|, i requires 0 <= i < |j.items| => NumberOf(j.items[i], U32).value))
    else None
  }

  lemma UidsIff(j: Json, uids: seq<u32>)
    ensures UidsFromJson(j) == Some(uids) <==> ListsNumbers(j, uids)
  {
    if ListsNumbers(j, uids) {
      assert forall i :: 0 <= i < |j.items| ==> NumberOf(j.items[i], U32) == Some(uids[i]);
      assert UidsFromJson(j).value == uids;
    }
    if UidsFromJson(j) == Some(uids) {
      assert forall i :: 0 <= i < |uids| ==> NumberOf(j.items[i], U32) == Some(uids[i]);
    }
  }

  function UidMapToJson(m: UidMap): Object
  {
    map s | s in QUALITY_NAMES && QualityFromString(s).value in m :: UidsToJson(m[QualityFromString(s).value])
  }

  predicate ReadableUidMap(o: Object)
  {
    forall s :: s in o ==> QualityFromString(s).Some? && UidsFromJson(o[s]).Some?
  }

  function UidMapFromJson(o: Object): Option<UidMap>
  {
    if ReadableUidMap(o) then
      Some(map q | q in QUALITIES && QualityToString(q) in o :: UidsFromJson(o[QualityToString(q)]).value)
    else None
  }

  lemma UidMapToJsonAt(m: UidMap, q: QualityType)
    ensures QualityToString(q) in UidMapToJson(m) <==> q in m
    ensures q in m ==> UidMapToJson(m)[QualityToString(q)] == UidsToJson(m[q])
  {
    assert QualityToString(q) in QUALITY_NAMES;
  }

  /** The insert loop over the permissions. */
  method ConvertUidMapToJson(inputMap: UidMap) returns (o: Object)
    ensures o == UidMapToJson(inputMap)
  {
    o := map[];
    var todo := inputMap.Keys;
    while todo != {}
      invariant todo <= inputMap.Keys
      invariant forall q: QualityType :: QualityToString(q) in o <==> q in inputMap && q !in todo
      invariant forall q: QualityType :: q in inputMap && q !in todo ==>
                  o[QualityToString(q)] == UidsToJson(inputMap[q])
      invariant forall s :: s in o ==> QualityFromString(s).Some? && QualityToString(QualityFromString(s).value) == s
      decreases todo
    {
      var q :| q in todo;
      assert QualityToString(q) !in o;     // the insertion takes place
      o := o[QualityToString(q) := UidsToJson(inputMap[q])];
      todo := todo - {q};
    }
    SameUidMap(o, inputMap);
  }

  lemma SameUidMap(o: Object, m: UidMap)
    requires forall q: QualityType :: QualityToString(q) in o <==> q in m
    requires forall q: QualityType :: q in m ==> o[QualityToString(q)] == UidsToJson(m[q])
    requires forall s :: s in o ==> QualityFromString(s).Some? && QualityToString(QualityFromString(s).value) == s
    ensures o == UidMapToJson(m)
  {
    hide QualityFromString, QualityToString, UidMapToJson;
    var spec := UidMapToJson(m);
    forall s | s in o ensures s in spec && o[s] == spec[s] {
      UidMapToJsonAt(m, QualityFromString(s).value);
    }
    forall s | s in spec ensures s in o {
      UidMapKeys(m, s);
      var q := QualityFromString(s).value;
      UidMapToJsonAt(m, q);
      assert q in m && QualityToString(q) in o;
    }
  }

  lemma UidMapKeys(m: UidMap, s: string)
    requires s in UidMapToJson(m)
    ensures QualityFromString(s).Some? && QualityToString(QualityFromString(s).value) == s
  {
    QualityNames(s);
  }

  /** And the loop back; an unknown quality or a bad uid ends the process. */
  method ConvertJsonToUidMap(o: Object) returns (m: Option<UidMap>)
    ensures m == UidMapFromJson(o)
  {
    var result: UidMap := map[];
    var todo := o.Keys;
    while todo != {}
      invariant todo <= o.Keys
      invariant forall s :: s in o && s !in todo ==> QualityFromString(s).Some? && UidsFromJson(o[s]).Some?
      invariant forall q: QualityType :: q in result <==> QualityToString(q) in o && QualityToString(q) !in todo
      invariant forall q: QualityType :: q in result ==> UidsFromJson(o[QualityToString(q)]) == Some(result[q])
      decreases todo
    {
      var s :| s in todo;
      var q := QualityFromString(s);
      var uids := UidsFromJson(o[s]);
      if q.None? || uids.None? {
        return None;
      }
      QualityNames(s);
      assert q.value !in result;
      result := result[q.value := uids.value];
      todo := todo - {s};
    }
    assert ReadableUidMap(o);
    forall q: QualityType ensures q in QUALITIES { InOrOut(map[], q); }
    assert result == UidMapFromJson(o).value;
    return Some(result);
  }

  // ----- bindings

  function WithId(o: Object, id: Option<u16>): Object
  {
    if id.Some? then o[Text(InstanceIdKey) := IdToJson(id.value)] else o
  }

  function BindingToJson(b: Binding): (o: Object)
    requires !b.Blank?
  {
    match b
    case Lola(id, size, events, fields, strict, consumer, provider) =>
      With(WithId(map[Text(SerializationVersionKey) := VERSION], id), Text(SharedMemorySizeKey), size)
        [Text(EventsKey) := Obj(MapToJson(events, EventToJson))]
        [Text(FieldsKey) := Obj(MapToJson(fields, EventToJson))]
        [Text(StrictKey) := Bool(strict)]
        [Text(AllowedConsumerKey) := Obj(UidMapToJson(consumer))]
        [Text(AllowedProviderKey) := Obj(UidMapToJson(provider))]
    case SomeIp(id, events, fields) =>
      WithId(map[Text(SerializationVersionKey) := VERSION], id)
        [Text(EventsKey) := Obj(MapToJson(events, NothingToJson))]
        [Text(FieldsKey) := Obj(MapToJson(fields, NothingToJson))]
  }

  function ElementsAt<T>(o: Object, key: string, parse: Json -> Option<T>): Option<map<string, T>>
  {
    var inner := ObjectAt(o, key);
    if inner.None? then None else MapFromJson(inner.value, parse)
  }

  function UidMapAt(o: Object, key: string): Option<UidMap>
  {
    var inner := ObjectAt(o, key);
    if inner.None? then None else UidMapFromJson(inner.value)
  }

  /** The shared memory size: absent, read, or fatal. */
  function SizeAt(o: Object): Option<Option<u64>>
  {
    if Text(SharedMemorySizeKey) !in o then Some(None)
    else
      var size := NumberAt(o, Text(SharedMemorySizeKey), U64);
      if size.Some? then Some(Some(size.value)) else None
  }

  function LolaFromJson(o: Object): Option<Binding>
  {
    var events := ElementsAt(o, Text(EventsKey), EventFromJson);
    var fields := ElementsAt(o, Text(FieldsKey), EventFromJson);
    var strict := BoolAt(o, Text(StrictKey));
    var consumer := UidMapAt(o, Text(AllowedConsumerKey));
    var provider := UidMapAt(o, Text(AllowedProviderKey));
    var id := OptionalIdAt(o);
    var size := SizeAt(o);
    if events.Some? && fields.Some? && strict.Some? && consumer.Some? && provider.Some? && VersionIs1(o)
       && id.Some? && size.Some? then
      Some(Lola(id.value, size.value, events.value, fields.value, strict.value, consumer.value, provider.value))
    else None
  }

  function SomeIpFromJson(o: Object): Option<Binding>
  {
    var events := ElementsAt(o, Text(EventsKey), NothingFromJson);
    var fields := ElementsAt(o, Text(FieldsKey), NothingFromJson);
    var id := OptionalIdAt(o);
    if events.Some? && fields.Some? && id.Some? && VersionIs1(o) then
      Some(SomeIp(id.value, events.value, fields.value))
    else None
  }

  /** `DoConstructVariant`: every alternative but the blank one reads the object
      stored under "bindingInfo". */
  function Held<V>(o: Object, parse: Object -> Option<V>): Option<V>
  {
    var inner := ObjectAt(o, Text(BindingInfoKey));
    if inner.None? then None else parse(inner.value)
  }

  function BindingAlternatives(): (a: seq<Object -> Option<Binding>>)
    ensures |a| == 3
  {
    [(o: Object) => Held(o, LolaFromJson), (o: Object) => Held(o, SomeIpFromJson), (o: Object) => Some(Blank)]
  }

  function BindingIndex(b: Binding): nat
  {
    match b case Lola(_, _, _, _, _, _, _) => 0 case SomeIp(_, _, _) => 1 case Blank => 2
  }

  /** The variant under the two keys every holder of one uses. */
  function VariantAt<V>(o: Object, alternatives: seq<Object -> Option<V>>): Option<V>
  {
    if Text(BindingInfoIndexKey) in o && o[Text(BindingInfoIndexKey)].Num? then
      DeserializeVariant(0, alternatives, o, o[Text(BindingInfoIndexKey)].value)
    else None
  }

  // ----- service instances

  function VersionToJson(v: ServiceVersion): Json
  {
    Obj(map[Text(SerializationVersionKey) := VERSION, Text(MajorVersionKey) := Num(v.major),
            Text(MinorVersionKey) := Num(v.minor)])
  }

  function VersionFromJson(o: Object): Option<ServiceVersion>
  {
    var major := NumberAt(o, Text(MajorVersionKey), U32);
    var minor := NumberAt(o, Text(MinorVersionKey), U32);
    if major.Some? && minor.Some? && VersionIs1(o) then Some(ServiceVersion(major.value, minor.value)) else None
  }

  function ServiceToJson(s: ServiceIdentifier): Json
  {
    Obj(map[Text(ServiceTypeKey) := Str(s.name), Text(VersionKey) := VersionToJson(s.version),
            Text(SerializationVersionKey) := VERSION])
  }

  /** The name is handed to the constructor as a C string. */
  function ServiceFromJson(o: Object): Option<ServiceIdentifier>
  {
    var name := StringAt(o, Text(ServiceTypeKey));
    var version := ObjectAt(o, Text(VersionKey));
    if name.Some? && version.Some? && VersionFromJson(version.value).Some? && VersionIs1(o) then
      Some(ServiceIdentifier(CString(name.value), VersionFromJson(version.value).value))
    else None
  }

  function InstanceToJson(d: ServiceInstance): Object
  {
    var o: Object := map[Text(BindingInfoIndexKey) := Num(BindingIndex(d.binding))];
    var o := if d.binding.Blank? then o else o[Text(BindingInfoKey) := Obj(BindingToJson(d.binding))];
    o[Text(AsilLevelKey) := Str(QualityToString(d.asil))]
     [Text(ServiceKey) := ServiceToJson(d.service)]
     [Text(InstanceSpecifierKey) := Str(d.specifier)]
     [Text(SerializationVersionKey) := VERSION]
  }

  function InstanceFromJson(o: Object): Option<ServiceInstance>
  {
    var service := ObjectAt(o, Text(ServiceKey));
    var binding := VariantAt(o, BindingAlternatives());
    var asil := StringAt(o, Text(AsilLevelKey));
    var specifier := StringAt(o, Text(InstanceSpecifierKey));
    if service.Some? && ServiceFromJson(service.value).Some? && binding.Some?
       && asil.Some? && QualityFromString(asil.value).Some?
       && specifier.Some? && IsSpecifier(specifier.value) && VersionIs1(o) then
      Some(ServiceInstance(ServiceFromJson(service.value).value, binding.value,
                           QualityFromString(asil.value).value, specifier.value))
    else None
  }

  // ----- service types and instance ids

  function IdElementToJson(id: u8): Json { Num(id) }

  function IdMapToJson(m: map<string, u8>): Object { MapToJson(m, IdElementToJson) }

  function IdElementFromJson(j: Json): Option<u8>
  {
    var n := NumberOf(j, U8);
    if n.Some? then Some(n.value) else None
  }

  function TypeToJson(t: TypeBinding): Object
  {
    var o: Object := map[Text(BindingInfoIndexKey) := Num(if t.LolaType? then 0 else 1),
                         Text(SerializationVersionKey) := VERSION];
    match t
    case LolaType(id, events, fields) =>
      o[Text(BindingInfoKey) := Obj(map[Text(SerializationVersionKey) := VERSION, Text(ServiceIdKey) := Num(id),
                                 Text(EventsKey) := Obj(IdMapToJson(events)),
                                 Text(FieldsKey) := Obj(IdMapToJson(fields))])]
    case BlankType => o
  }

  function LolaTypeFromJson(o: Object): Option<TypeBinding>
  {
    var id := NumberAt(o, Text(ServiceIdKey), U16);
    var events := ElementsAt(o, Text(EventsKey), IdElementFromJson);
    var fields := ElementsAt(o, Text(FieldsKey), IdElementFromJson);
    if id.Some? && events.Some? && fields.Some? && VersionIs1(o) then
      Some(LolaType(id.value, events.value, fields.value))
    else None
  }

  function TypeAlternatives(): (a: seq<Object -> Option<TypeBinding>>)
    ensures |a| == 2
  {
    [(o: Object) => Held(o, LolaTypeFromJson), (o: Object) => Some(BlankType)]
  }

  function TypeFromJson(o: Object): Option<TypeBinding>
  {
    if VersionIs1(o) then VariantAt(o, TypeAlternatives()) else None
  }

  function InstanceIdToJson(i: InstanceId): Object
  {
    match i
    case LolaId(id) =>
      map[Text(BindingInfoIndexKey) := Num(0), Text(SerializationVersionKey) := VERSION,
          Text(BindingInfoKey) := IdToJson(id)]
    case SomeIpId(id) =>
      map[Text(BindingInfoIndexKey) := Num(1), Text(SerializationVersionKey) := VERSION,
          Text(BindingInfoKey) := IdToJson(id)]
    case BlankId => map[Text(BindingInfoIndexKey) := Num(2), Text(SerializationVersionKey) := VERSION]
  }

  function InstanceIdAlternatives(): (a: seq<Object -> Option<InstanceId>>)
    ensures |a| == 3
  {
    [(o: Object) => Held(o, (inner: Object) =>
       if IdFromJson(inner).Some? then Some(LolaId(IdFromJson(inner).value)) else None),
     (o: Object) => Held(o, (inner: Object) =>
       if IdFromJson(inner).Some? then Some(SomeIpId(IdFromJson(inner).value)) else None),
     (o: Object) => Some(BlankId)]
  }

  function InstanceIdFromJson(o: Object): Option<InstanceId>
  {
    if VersionIs1(o) then VariantAt(o, InstanceIdAlternatives()) else None
  }

  // ----- round trips

  function Untraced(e: EventInstance): EventInstance { e.(tracing := false) }

  function UntracedAll(m: map<string, EventInstance>): map<string, EventInstance> { map k | k in m :: Untraced(m[k]) }

  /** What a deployment is after being written and read back. */
  function AfterRoundTrip(d: ServiceInstance): ServiceInstance
  {
    d.(service := d.service.(name := CString(d.service.name)),
       binding := if d.binding.Lola? then
                    d.binding.(events := UntracedAll(d.binding.events), fields := UntracedAll(d.binding.fields))
                  else d.binding)
  }

  lemma EventRoundTrip(e: EventInstance)
    ensures EventFromJson(EventToJson(e)) == Some(Untraced(e))
  {
  }

  lemma UidsRoundTrip(uids: seq<u32>)
    ensures UidsFromJson(UidsToJson(uids)) == Some(uids)
  {
    var j := UidsToJson(uids);
    assert forall i :: 0 <= i < |j.items| ==> NumberOf(j.items[i], U32) == Some(uids[i]);
    assert UidsFromJson(j).value == uids;
  }

  lemma UidMapRoundTrip(m: UidMap)
    ensures UidMapFromJson(UidMapToJson(m)) == Some(m)
  {
    var o := UidMapToJson(m);
    forall s | s in o ensures UidsFromJson(o[s]) == Some(m[QualityFromString(s).value]) {
      UidsRoundTrip(m[QualityFromString(s).value]);
    }
    var back := UidMapFromJson(o).value;
    forall q: QualityType ensures q in back <==> q in m { InOrOut(m, q); }
    assert back == m;
  }

  lemma InOrOut(m: UidMap, q: QualityType)
    ensures q in QUALITIES && QualityToString(q) in QUALITY_NAMES
    ensures QualityToString(q) in UidMapToJson(m) <==> q in m
  {
  }

  lemma EventsRoundTrip(m: map<string, EventInstance>)
    ensures MapFromJson(MapToJson(m, EventToJson), EventFromJson) == Some(UntracedAll(m))
  {
    forall k | k in m ensures EventFromJson(EventToJson(m[k])) == Some(UntracedAll(m)[k]) { EventRoundTrip(m[k]); }
    MapRoundTrip(m, EventToJson, EventFromJson, UntracedAll(m));
  }

  lemma NothingsRoundTrip(m: map<string, Nothing>)
    ensures MapFromJson(MapToJson(m, NothingToJson), NothingFromJson) == Some(m)
  {
    forall k | k in m ensures NothingFromJson(NothingToJson(m[k])) == Some(m[k]) {
      assert m[k] == Nothing;
    }
    MapRoundTrip(m, NothingToJson, NothingFromJson, m);
  }

  lemma IdMapRoundTrip(m: map<string, u8>)
    ensures MapFromJson(IdMapToJson(m), IdElementFromJson) == Some(m)
  {
    forall k | k in m ensures IdElementFromJson(IdElementToJson(m[k])) == Some(m[k]) {
      assert NumberOf(IdElementToJson(m[k]), U8) == Some(m[k] as nat);
    }
    MapRoundTrip(m, IdElementToJson, IdElementFromJson, m);
  }

  lemma LolaParts(b: Binding)
    requires b.Lola?
    ensures
      var o := BindingToJson(b);
      && ObjectAt(o, Text(EventsKey)) == Some(MapToJson(b.events, EventToJson))
      && ObjectAt(o, Text(FieldsKey)) == Some(MapToJson(b.fields, EventToJson))
      && BoolAt(o, Text(StrictKey)) == Some(b.strict)
      && ObjectAt(o, Text(AllowedConsumerKey)) == Some(UidMapToJson(b.allowedConsumer))
      && ObjectAt(o, Text(AllowedProviderKey)) == Some(UidMapToJson(b.allowedProvider))
  {
    hide Text, KeyOf, MapToJson, UidMapToJson, IdToJson, IdFromJson;
  }

  lemma IdRoundTrip(id: u16)
    ensures IdToJson(id).Obj? && IdFromJson(IdToJson(id).members) == Some(id)
  {
    hide Text, KeyOf;
  }

  lemma LolaOptionalParts(b: Binding)
    requires b.Lola?
    ensures
      var o := BindingToJson(b);
      VersionIs1(o) && OptionalIdAt(o) == Some(b.instanceId) && SizeAt(o) == Some(b.sharedMemorySize)
  {
    hide Text, KeyOf, MapToJson, UidMapToJson, IdToJson, IdFromJson;
    if b.instanceId.Some? {
      IdRoundTrip(b.instanceId.value);
    }
  }

  lemma SomeIpParts(b: Binding)
    requires b.SomeIp?
    ensures
      var o := BindingToJson(b);
      && ObjectAt(o, Text(EventsKey)) == Some(MapToJson(b.someIpEvents, NothingToJson))
      && ObjectAt(o, Text(FieldsKey)) == Some(MapToJson(b.someIpFields, NothingToJson))
      && VersionIs1(o) && OptionalIdAt(o) == Some(b.someIpId)
  {
    hide Text, KeyOf, MapToJson, IdToJson, IdFromJson;
    if b.someIpId.Some? {
      IdRoundTrip(b.someIpId.value);
    }
  }

  /** One variant alternative, written and read. */
  lemma BindingRoundTrip(b: Binding)
    requires !b.Blank?
    ensures b.Lola? ==> LolaFromJson(BindingToJson(b)) ==
                          Some(b.(events := UntracedAll(b.events), fields := UntracedAll(b.fields)))
    ensures b.SomeIp? ==> SomeIpFromJson(BindingToJson(b)) == Some(b)
  {
    hide Text, KeyOf, MapToJson, MapFromJson, UidMapToJson, UidMapFromJson, IdToJson, IdFromJson, BindingToJson,
         VersionIs1, OptionalIdAt, SizeAt, ObjectAt, BoolAt, UntracedAll;
    match b
    case Lola(_, _, events, fields, _, consumer, provider) =>
      LolaParts(b);
      LolaOptionalParts(b);
      EventsRoundTrip(events);
      EventsRoundTrip(fields);
      UidMapRoundTrip(consumer);
      UidMapRoundTrip(provider);
    case SomeIp(_, events, fields) =>
      SomeIpParts(b);
      NothingsRoundTrip(events);
      NothingsRoundTrip(fields);
  }

  lemma VersionTypeRoundTrip(v: ServiceVersion)
    ensures VersionToJson(v).Obj? && VersionFromJson(VersionToJson(v).members) == Some(v)
  {
    hide Text, KeyOf;
  }

  lemma ServiceRoundTrip(s: ServiceIdentifier)
    ensures ServiceToJson(s).Obj?
    ensures ServiceFromJson(ServiceToJson(s).members) == Some(s.(name := CString(s.name)))
  {
    hide Text, KeyOf, VersionToJson, VersionFromJson, CString;
    VersionTypeRoundTrip(s.version);
  }

  /** A variant comes back as the alternative of its index reads it. */
  lemma VariantIsSelected<V>(o: Object, alternatives: seq<Object -> Option<V>>, index: nat)
    requires Text(BindingInfoIndexKey) in o && o[Text(BindingInfoIndexKey)] == Num(index) && index < |alternatives|
    ensures VariantAt(o, alternatives) == alternatives[index](o)
  {
    DeserializeVariantSelects(0, alternatives, o, index);
  }

  lemma InstanceParts(d: ServiceInstance)
    ensures
      var o := InstanceToJson(d);
      && Text(BindingInfoIndexKey) in o && o[Text(BindingInfoIndexKey)] == Num(BindingIndex(d.binding))
      && (!d.binding.Blank? ==> ObjectAt(o, Text(BindingInfoKey)) == Some(BindingToJson(d.binding)))
      && Text(ServiceKey) in o && o[Text(ServiceKey)] == ServiceToJson(d.service)
      && StringAt(o, Text(AsilLevelKey)) == Some(QualityToString(d.asil))
      && StringAt(o, Text(InstanceSpecifierKey)) == Some(d.specifier)
      && VersionIs1(o)
  {
    hide Text, KeyOf, BindingToJson, ServiceToJson, QualityToString;
  }

  /** The main result: every service instance deployment comes back the same,
      except that tracing is off and the service name ends at its first NUL. */
  lemma ServiceInstanceRoundTrip(d: ServiceInstance)
    ensures InstanceFromJson(InstanceToJson(d)) == Some(AfterRoundTrip(d))
  {
    hide Text, KeyOf, BindingToJson, ServiceToJson, ServiceFromJson, InstanceToJson, LolaFromJson, SomeIpFromJson,
         VariantAt, VersionIs1, CString, QualityToString, QualityFromString, UntracedAll, IsSpecifier;
    InstanceParts(d);
    ServiceRoundTrip(d.service);
    VariantIsSelected(InstanceToJson(d), BindingAlternatives(), BindingIndex(d.binding));
    if !d.binding.Blank? {
      BindingRoundTrip(d.binding);
    }
  }

  predicate Traced(m: map<string, EventInstance>) { exists k :: k in m && m[k].tracing }

  lemma UntracedIfSame(m: map<string, EventInstance>)
    ensures UntracedAll(m) == m <==> !Traced(m)
  {
    if !Traced(m) {
      assert forall k :: k in m ==> UntracedAll(m)[k] == m[k];
    } else {
      var k :| k in m && m[k].tracing;
      assert UntracedAll(m)[k] != m[k];
    }
  }

  /** It comes back unchanged exactly if nothing is traced and the service name
      holds no NUL. */
  lemma RoundTripIsExactIff(d: ServiceInstance)
    ensures InstanceFromJson(InstanceToJson(d)) == Some(d) <==>
              && NUL !in d.service.name
              && (d.binding.Lola? ==> !Traced(d.binding.events) && !Traced(d.binding.fields))
  {
    ServiceInstanceRoundTrip(d);
    if d.binding.Lola? {
      UntracedIfSame(d.binding.events);
      UntracedIfSame(d.binding.fields);
    }
    hide InstanceFromJson, InstanceToJson, CString, UntracedAll, Traced;
  }

  lemma LolaTypeParts(t: TypeBinding)
    requires t.LolaType?
    ensures
      var o := TypeToJson(t);
      && VersionIs1(o) && Text(BindingInfoIndexKey) in o && o[Text(BindingInfoIndexKey)] == Num(0)
      && ObjectAt(o, Text(BindingInfoKey)).Some?
      && var i := ObjectAt(o, Text(BindingInfoKey)).value;
      && NumberAt(i, Text(ServiceIdKey), U16) == Some(t.serviceId) && VersionIs1(i)
      && ObjectAt(i, Text(EventsKey)) == Some(IdMapToJson(t.eventIds))
      && ObjectAt(i, Text(FieldsKey)) == Some(IdMapToJson(t.fieldIds))
  {
    hide Text, KeyOf, IdMapToJson;
  }

  /** Service type deployments come back the same. */
  lemma ServiceTypeRoundTrip(t: TypeBinding)
    ensures TypeFromJson(TypeToJson(t)) == Some(t)
  {
    match t
    case LolaType(_, events, fields) =>
      LolaTypeComesBack(t);
    case BlankType =>
      BlankTypeParts();
      VariantIsSelected(TypeToJson(t), TypeAlternatives(), 1);
  }

  lemma BlankTypeParts()
    ensures
      var o := TypeToJson(BlankType);
      VersionIs1(o) && Text(BindingInfoIndexKey) in o && o[Text(BindingInfoIndexKey)] == Num(1)
  {
    hide Text, KeyOf;
  }

  lemma LolaTypeComesBack(t: TypeBinding)
    requires t.LolaType?
    ensures TypeFromJson(TypeToJson(t)) == Some(t)
  {
    hide Text, KeyOf, IdMapToJson, TypeToJson, MapFromJson, VersionIs1, NumberAt, ObjectAt, VariantAt;
    LolaTypeParts(t);
    IdMapRoundTrip(t.eventIds);
    IdMapRoundTrip(t.fieldIds);
    VariantIsSelected(TypeToJson(t), TypeAlternatives(), 0);
  }

  lemma InstanceIdParts(i: InstanceId)
    ensures
      var o := InstanceIdToJson(i);
      && VersionIs1(o) && Text(BindingInfoIndexKey) in o
      && o[Text(BindingInfoIndexKey)] == Num(match i case LolaId(_) => 0 case SomeIpId(_) => 1 case BlankId => 2)
      && (!i.BlankId? ==> Text(BindingInfoKey) in o && o[Text(BindingInfoKey)] == IdToJson(i.id))
  {
    hide Text, KeyOf, IdToJson;
  }

  /** So do instance ids, of either binding. */
  lemma InstanceIdRoundTrip(i: InstanceId)
    ensures InstanceIdFromJson(InstanceIdToJson(i)) == Some(i)
  {
    hide Text, KeyOf, IdToJson, IdFromJson, InstanceIdToJson, VersionIs1, VariantAt;
    InstanceIdParts(i);
    if !i.BlankId? {
      IdRoundTrip(i.id);
    }
    VariantIsSelected(InstanceIdToJson(i), InstanceIdAlternatives(),
                      match i case LolaId(_) => 0 case SomeIpId(_) => 1 case BlankId => 2);
  }
}
