/** JSON values as the configuration code sees them, and the conversions it shares
    between the deployment types.  `None` stands for the end of the process: a
    missing key, a value of the wrong kind or out of range, an unknown version. */
module Json {

  import opened Wrappers

  datatype Json =
    | Obj(members: Object)
    | List(items: seq<Json>)
    | Str(text: string)
    | Num(value: int)
    | Bool(flag: bool)

  type Object = map<string, Json>

  // ----- keys

  /** The keys of all serialised objects. */
  datatype Key =
    | SerializationVersionKey
    | InstanceIdKey
    | SharedMemorySizeKey
    | EventsKey
    | FieldsKey
    | StrictKey
    | AllowedConsumerKey
    | AllowedProviderKey
    | NumberOfSampleSlotsKey
    | MaxSubscribersKey
    | MaxConcurrentAllocationsKey
    | EnforceMaxSamplesKey
    | BindingInfoKey
    | BindingInfoIndexKey
    | AsilLevelKey
    | InstanceSpecifierKey
    | ServiceKey
    | ServiceTypeKey
    | VersionKey
    | MajorVersionKey
    | MinorVersionKey
    | ServiceIdKey

  /** No two keys share a text. */
  function Text(k: Key): (s: string)
    ensures KeyOf(s) == Some(k)
  {
    match k
    case SerializationVersionKey => "serializationVersion"
    case InstanceIdKey => "instanceId"
    case SharedMemorySizeKey => "sharedMemorySize"
    case EventsKey => "events"
    case FieldsKey => "fields"
    case StrictKey => "strict"
    case AllowedConsumerKey => "allowedConsumer"
    case AllowedProviderKey => "allowedProvider"
    case NumberOfSampleSlotsKey => "numberOfSampleSlots"
    case MaxSubscribersKey => "maxSubscribers"
    case MaxConcurrentAllocationsKey => "maxConcurrentAllocations"
    case EnforceMaxSamplesKey => "enforceMaxSamples"
    case BindingInfoKey => "bindingInfo"
    case BindingInfoIndexKey => "bindingInfoIndex"
    case AsilLevelKey => "asilLevel"
    case InstanceSpecifierKey => "instanceSpecifier"
    case ServiceKey => "service"
    case ServiceTypeKey => "serviceType"
    case VersionKey => "version"
    case MajorVersionKey => "majorVersion"
    case MinorVersionKey => "minorVersion"
    case ServiceIdKey => "serviceId"
  }

  function KeyOf(s: string): Option<Key>
  {
    if s == "serializationVersion" then Some(SerializationVersionKey)
    else if s == "instanceId" then Some(InstanceIdKey)
    else if s == "sharedMemorySize" then Some(SharedMemorySizeKey)
    else if s == "events" then Some(EventsKey)
    else if s == "fields" then Some(FieldsKey)
    else if s == "strict" then Some(StrictKey)
    else if s == "allowedConsumer" then Some(AllowedConsumerKey)
    else if s == "allowedProvider" then Some(AllowedProviderKey)
    else if s == "numberOfSampleSlots" then Some(NumberOfSampleSlotsKey)
    else if s == "maxSubscribers" then Some(MaxSubscribersKey)
    else if s == "maxConcurrentAllocations" then Some(MaxConcurrentAllocationsKey)
    else if s == "enforceMaxSamples" then Some(EnforceMaxSamplesKey)
    else if s == "bindingInfo" then Some(BindingInfoKey)
    else if s == "bindingInfoIndex" then Some(BindingInfoIndexKey)
    else if s == "asilLevel" then Some(AsilLevelKey)
    else if s == "instanceSpecifier" then Some(InstanceSpecifierKey)
    else if s == "service" then Some(ServiceKey)
    else if s == "serviceType" then Some(ServiceTypeKey)
    else if s == "version" then Some(VersionKey)
    else if s == "majorVersion" then Some(MajorVersionKey)
    else if s == "minorVersion" then Some(MinorVersionKey)
    else if s == "serviceId" then Some(ServiceIdKey)
    else None
  }

  // ----- what a member says

  predicate Has(o: Object, key: string, j: Json) { key in o && o[key] == j }

  predicate HasNumber(o: Object, key: string, limit: nat, n: nat) { Has(o, key, Num(n)) && n < limit }

  /** The number at the key, or no such key. */
  predicate MayHaveNumber(o: Object, key: string, limit: nat, n: Option<nat>)
  {
    if n.Some? then HasNumber(o, key, limit, n.value) else key !in o
  }

  predicate MayHaveBool(o: Object, key: string, b: Option<bool>)
  {
    if b.Some? then Has(o, key, Bool(b.value)) else key !in o
  }

  predicate HasList(o: Object, key: string) { key in o && o[key].List? }

  /** The list holds these numbers, in this order. */
  predicate ListsNumbers(j: Json, numbers: seq<nat>)
  {
    j.List? && |j.items| == |numbers| && forall i :: 0 <= i < |numbers| ==> j.items[i] == Num(numbers[i])
  }

  // ----- single values

  function ObjectAt(o: Object, key: string): Option<Object>
  {
    if key in o && o[key].Obj? then Some(o[key].members) else None
  }

  function StringAt(o: Object, key: string): Option<string>
  {
    if key in o && o[key].Str? then Some(o[key].text) else None
  }

  function BoolAt(o: Object, key: string): Option<bool>
  {
    if key in o && o[key].Bool? then Some(o[key].flag) else None
  }

  /** A number of the width given by `limit`. */
  function NumberOf(j: Json, limit: nat): Option<nat>
  {
    if j.Num? && 0 <= j.value < limit then Some(j.value) else None
  }

  function NumberAt(o: Object, key: string, limit: nat): Option<nat>
  {
    if key in o then NumberOf(o[key], limit) else None
  }

  /** The version every object starts with. */
  predicate VersionIs1(o: Object)
  {
    NumberAt(o, Text(SerializationVersionKey), 0x1_0000_0000) == Some(1)
  }

  // ----- maps from element names

  function MapToJson<T>(m: map<string, T>, f: T -> Json): Object
  {
    map k | k in m :: f(m[k])
  }

  function MapFromJson<T>(o: Object, f: Json -> Option<T>): Option<map<string, T>>
  {
    if forall k :: k in o ==> f(o[k]).Some? then Some(map k | k in o :: f(o[k]).value) else None
  }

  /** A map comes back as its elements do. */
  lemma MapRoundTrip<T>(m: map<string, T>, to: T -> Json, from: Json -> Option<T>, back: map<string, T>)
    requires back.Keys == m.Keys && forall k :: k in m ==> from(to(m[k])) == Some(back[k])
    ensures MapFromJson(MapToJson(m, to), from) == Some(back)
  {
    var o := MapToJson(m, to);
    assert (map k | k in o :: from(o[k]).value) == back;
  }

  /** The insert loop over an element map. */
  method ConvertServiceElementMapToJson<T>(inputMap: map<string, T>, serialize: T -> Json) returns (o: Object)
    ensures o == MapToJson(inputMap, serialize)
  {
    o := map[];
    var todo := inputMap.Keys;
    while todo != {}
      invariant todo <= inputMap.Keys && o.Keys == inputMap.Keys - todo
      invariant forall k :: k in o ==> o[k] == serialize(inputMap[k])
      decreases todo
    {
      var k :| k in todo;
      assert k !in o;     // the insertion takes place
      o := o[k := serialize(inputMap[k])];
      todo := todo - {k};
    }
  }

  /** And the loop back; it ends the process at the first element that cannot be read. */
  method ConvertJsonToServiceElementMap<T>(o: Object, parse: Json -> Option<T>) returns (m: Option<map<string, T>>)
    ensures m == MapFromJson(o, parse)
  {
    var result: map<string, T> := map[];
    var todo := o.Keys;
    while todo != {}
      invariant todo <= o.Keys && result.Keys == o.Keys - todo
      invariant forall k :: k in result ==> parse(o[k]) == Some(result[k])
      decreases todo
    {
      var k :| k in todo;
      var element := parse(o[k]);
      if element.None? {
        return None;
      }
      assert k !in result;
      result := result[k := element.value];
      todo := todo - {k};
    }
    assert result == map k | k in o :: parse(o[k]).value;
    return Some(result);
  }

  // ----- variants

  /** The recursion over the alternatives of a variant: `alternatives[k]` builds
      the alternative of index `k` from the object. */
  function DeserializeVariant<V>(index: nat, alternatives: seq<Object -> Option<V>>, o: Object, wanted: int): Option<V>
    requires index <= |alternatives|
    decreases |alternatives| - index
  {
    if index == |alternatives| then None
    else if wanted == index then alternatives[index](o)
    else DeserializeVariant(index + 1, alternatives, o, wanted)
  }

  /** It finds exactly the alternative asked for, or ends the process. */
  lemma {:induction false} DeserializeVariantSelects<V>(index: nat, alternatives: seq<Object -> Option<V>>, o: Object,
                                                        wanted: int)
    requires index <= |alternatives|
    ensures DeserializeVariant(index, alternatives, o, wanted) ==
              if index <= wanted < |alternatives| then alternatives[wanted](o) else None
    decreases |alternatives| - index
  {
    if index < |alternatives| && wanted != index {
      DeserializeVariantSelects(index + 1, alternatives, o, wanted);
    }
  }
}
