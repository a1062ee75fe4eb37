/** The bookkeeping of service discovery: find handles, user callbacks and the
    instances a handle searches for.

    The binding's discovery clients are an environment: each call to them is given
    its answer.  User callbacks do not call back into service discovery here. */
module ServiceDiscovery {

  import opened Wrappers

  type Handle = nat

  type Handler = nat

  type Error = nat

  /** An instance identifier and the client of its binding. */
  datatype Identifier = Identifier(name: nat, client: nat)

  datatype Entry = Entry(handle: Handle, identifier: Identifier)

  // ----- the multimap of entries

  /** The entries that `erase(handle)` leaves. */
  function Without(entries: seq<Entry>, handle: Handle): seq<Entry>
  {
    if entries == [] then []
    else
      var last := entries[|entries| - 1];
      Without(entries[..|entries| - 1], handle) + if last.handle == handle then [] else [last]
  }

  lemma {:induction false} WithoutKeepsOthers(entries: seq<Entry>, handle: Handle, e: Entry)
    ensures e in Without(entries, handle) <==> e in entries && e.handle != handle
  {
    if entries != [] {
      var front := entries[..|entries| - 1];
      WithoutKeepsOthers(front, handle, e);
      assert entries == front + [entries[|entries| - 1]];
    }
  }

  lemma {:induction false} WithoutUndoesAdding(entries: seq<Entry>, handle: Handle, added: seq<Entry>)
    requires forall e :: e in entries ==> e.handle != handle
    requires forall e :: e in added ==> e.handle == handle
    ensures Without(entries + added, handle) == entries
    decreases |entries| + |added|
  {
    if added != [] {
      assert (entries + added)[..|entries + added| - 1] == entries + added[..|added| - 1];
      WithoutUndoesAdding(entries, handle, added[..|added| - 1]);
    } else if entries != [] {
      assert entries + added == entries;
      assert entries[..|entries| - 1] + [] == entries[..|entries| - 1];
      WithoutUndoesAdding(entries[..|entries| - 1], handle, []);
    }
  }

  /** The entries a start with these identifiers stores. */
  function Entries(handle: Handle, identifiers: seq<Identifier>): (entries: seq<Entry>)
    ensures |entries| == |identifiers|
    ensures forall k :: 0 <= k < |entries| ==> entries[k] == Entry(handle, identifiers[k])
  {
    seq(|identifiers|, k requires 0 <= k < |identifiers| => Entry(handle, identifiers[k]))
  }

  class ServiceDiscovery {
    var nextFreeUid: nat
    var userCallbacks: map<Handle, Handler>
    var handleToInstances: seq<Entry>
    ghost var active: set<Entry>         // the searches the clients were told to start and not to stop

    /** Handles are not given out yet from `nextFreeUid` on; stored instances have
        a stored callback and are what the clients search for. */
    ghost predicate Valid()
      reads this
    {
      && (forall h :: h in userCallbacks ==> h < nextFreeUid)
      && (forall e :: e in handleToInstances ==> e.handle in userCallbacks)
      && (forall e :: e in active <==> e in handleToInstances)
    }

    constructor ()
      ensures Valid() && nextFreeUid == 0 && userCallbacks == map[] && handleToInstances == []
    {
      nextFreeUid, userCallbacks, handleToInstances, active := 0, map[], [], {};
    }

    /** A client forgets every search of the handle. */
    ghost method ClientStops(handle: Handle, client: nat)
      modifies this`active
      ensures active == set e | e in old(active) && !(e.handle == handle && e.identifier.client == client)
    {
      active := set e | e in active && !(e.handle == handle && e.identifier.client == client);
    }

    /** Every client concerned is told to stop; the last error is reported, but
        callback and instances are erased in any case. */
    method StopFindService(handle: Handle, errors: map<Identifier, Error>) returns (result: Option<Error>)
      requires Valid()
      modifies this`userCallbacks, this`handleToInstances, this`active
      ensures Valid()
      ensures userCallbacks == old(userCallbacks) - {handle}
      ensures handleToInstances == Without(old(handleToInstances), handle)
      ensures result.Some? <==> exists e :: e in old(handleToInstances) && e.handle == handle && e.identifier in errors
    {
      result := None;
      var k := 0;
      while k < |handleToInstances|
        invariant 0 <= k <= |handleToInstances|
        invariant handleToInstances == old(handleToInstances) && userCallbacks == old(userCallbacks)
        invariant forall e :: e in active ==> e in handleToInstances
        invariant forall e :: e in handleToInstances && e.handle != handle ==> e in active
        invariant forall j :: 0 <= j < k && handleToInstances[j].handle == handle ==> handleToInstances[j] !in active
        invariant result.Some? <==> exists j :: 0 <= j < k && handleToInstances[j].handle == handle
                                                && handleToInstances[j].identifier in errors
      {
        var entry := handleToInstances[k];
        if entry.handle == handle {
          ClientStops(handle, entry.identifier.client);
          if entry.identifier in errors {
            result := Some(errors[entry.identifier]);
          }
        }
        k := k + 1;
      }
      forall e ensures e in Without(handleToInstances, handle) <==> e in handleToInstances && e.handle != handle {
        WithoutKeepsOthers(handleToInstances, handle, e);
      }
      userCallbacks := userCallbacks - {handle};
      handleToInstances := Without(handleToInstances, handle);
    }

    method GetNextFreeFindServiceHandle() returns (handle: Handle)
      requires Valid()
      modifies this`nextFreeUid
      ensures Valid() && handle == old(nextFreeUid) && nextFreeUid == handle + 1
    {
      handle := nextFreeUid;
      nextFreeUid := nextFreeUid + 1;
    }

    /** Stores the instance and starts the client; a client that refuses takes the
        whole handle with it. */
    method StartFindServiceImpl(handle: Handle, identifier: Identifier, answer: Option<Error>,
                                stopErrors: map<Identifier, Error>) returns (result: Result<Handle, Error>)
      requires Valid() && handle in userCallbacks
      modifies this`userCallbacks, this`handleToInstances, this`active
      ensures Valid()
      ensures result == if answer.None? then Ok(handle) else Err(answer.value)
      ensures answer.None? ==>
                && userCallbacks == old(userCallbacks)
                && handleToInstances == old(handleToInstances) + [Entry(handle, identifier)]
      ensures answer.Some? ==>
                && userCallbacks == old(userCallbacks) - {handle}
                && handleToInstances == Without(old(handleToInstances) + [Entry(handle, identifier)], handle)
    {
      handleToInstances := handleToInstances + [Entry(handle, identifier)];
      active := active + {Entry(handle, identifier)};
      if answer.Some? {
        var _ := StopFindService(handle, stopErrors);
        return Err(answer.value);
      }
      return Ok(handle);
    }

    /** One search for all identifiers a specifier resolves to.  Either all of
        them are searched for, or nothing is left of the attempt but a used-up
        handle; the error is that of the first client that refused. */
    method StartFindService(handler: Handler, identifiers: seq<Identifier>, answers: seq<Option<Error>>,
                            stopErrors: map<Identifier, Error>) returns (result: Result<Handle, Error>)
      requires Valid() && |answers| == |identifiers|
      modifies this
      ensures Valid() && nextFreeUid == old(nextFreeUid) + 1
      ensures result.Ok? <==> forall k :: 0 <= k < |answers| ==> answers[k].None?
      ensures result.Ok? ==>
                && result.value == old(nextFreeUid) && result.value !in old(userCallbacks)
                && userCallbacks == old(userCallbacks)[result.value := handler]
                && handleToInstances == old(handleToInstances) + Entries(result.value, identifiers)
      ensures result.Err? ==>
                && userCallbacks == old(userCallbacks) && handleToInstances == old(handleToInstances)
                && active == old(active)
                && exists k :: 0 <= k < |answers| && answers[k] == Some(result.error)
                               && forall j :: 0 <= j < k ==> answers[j].None?
    {
      hide Without;
      var handle := GetNextFreeFindServiceHandle();
      userCallbacks := userCallbacks[handle := handler];
      ghost var stored := Entries(handle, identifiers);
      ghost var before := handleToInstances;
      var k := 0;
      while k < |identifiers|
        invariant 0 <= k <= |identifiers| && Valid() && nextFreeUid == handle + 1
        invariant userCallbacks == old(userCallbacks)[handle := handler]
        invariant handleToInstances == before + stored[..k]
        invariant forall j :: 0 <= j < k ==> answers[j].None?
      {
        OneMoreEntry(before, stored, k);
        result := StartFindServiceImpl(handle, identifiers[k], answers[k], stopErrors);
        if result.Err? {
          RolledBack(before, stored[..k + 1], handle, old(userCallbacks), handler);
          SameSearches(old(active), active, before);
          return;
        }
        k := k + 1;
      }
      assert stored[..k] == stored;
      return Ok(handle);
    }

    static lemma SameSearches(a: set<Entry>, b: set<Entry>, entries: seq<Entry>)
      requires forall e :: e in a <==> e in entries
      requires forall e :: e in b <==> e in entries
      ensures a == b
    {
    }

    static lemma OneMoreEntry(before: seq<Entry>, stored: seq<Entry>, k: nat)
      requires k < |stored|
      ensures before + stored[..k] + [stored[k]] == before + stored[..k + 1]
    {
    }

    /** Erasing the handle leaves what was there before it was used. */
    static lemma RolledBack(before: seq<Entry>, added: seq<Entry>, handle: Handle, callbacks: map<Handle, Handler>,
                            handler: Handler)
      requires handle !in callbacks && forall e :: e in before ==> e.handle in callbacks
      requires forall e :: e in added ==> e.handle == handle
      ensures Without(before + added, handle) == before
      ensures callbacks[handle := handler] - {handle} == callbacks
    {
      WithoutUndoesAdding(before, handle, added);
    }

    /** The destructor stops every handle that has a stored instance, once for
        each of them.  A callback whose handle never had an instance stays. */
    method Destroy(errors: map<Identifier, Error>)
      requires Valid()
      modifies this`userCallbacks, this`handleToInstances, this`active
      ensures Valid() && handleToInstances == [] && active == {}
      ensures userCallbacks == old(userCallbacks) - HandlesOf(old(handleToInstances))
    {
      var copyOfHandles := handleToInstances;
      var k := 0;
      while k < |copyOfHandles|
        invariant 0 <= k <= |copyOfHandles| && Valid()
        invariant forall e :: e in handleToInstances ==> e in copyOfHandles
        invariant forall j :: 0 <= j < k ==> forall e :: e in handleToInstances ==> e.handle != copyOfHandles[j].handle
        invariant userCallbacks == old(userCallbacks) - HandlesOf(copyOfHandles[..k])
      {
        ghost var before := handleToInstances;
        var _ := StopFindService(copyOfHandles[k].handle, errors);
        forall e | e in handleToInstances ensures e in before && e.handle != copyOfHandles[k].handle {
          WithoutKeepsOthers(before, copyOfHandles[k].handle, e);
        }
        assert copyOfHandles[..k + 1] == copyOfHandles[..k] + [copyOfHandles[k]];
        OneMoreHandle(copyOfHandles[..k], copyOfHandles[k]);
        k := k + 1;
      }
      assert copyOfHandles[..k] == copyOfHandles;
      EmptyIff(handleToInstances);
    }

    static lemma EmptyIff(entries: seq<Entry>)
      ensures entries == [] <==> forall e :: e !in entries
    {
      if entries != [] {
        assert entries[0] in entries;
      }
    }

    static ghost function HandlesOf(entries: seq<Entry>): set<Handle>
    {
      set e | e in entries :: e.handle
    }

    static lemma OneMoreHandle(entries: seq<Entry>, e: Entry)
      ensures HandlesOf(entries + [e]) == HandlesOf(entries) + {e.handle}
    {
      assert e in entries + [e];
      forall h | h in HandlesOf(entries) ensures h in HandlesOf(entries + [e]) {
        var d :| d in entries && d.handle == h;
        assert d in entries + [e];
      }
    }
  }

  // ----- FindService

  datatype Found = Terminated | Handles(result: Result<seq<nat>, Error>)

  const BINDING_FAILURE: Error := 0

  /** The handles of all searches that succeeded, in order. */
  function Merged(results: seq<Result<seq<nat>, Error>>): seq<nat>
  {
    if results == [] then []
    else
      var last := results[|results| - 1];
      Merged(results[..|results| - 1]) + if last.Ok? then last.value else []
  }

  /** A handle is found exactly if some search found it. */
  lemma {:induction false} MergedFinds(results: seq<Result<seq<nat>, Error>>, h: nat)
    ensures h in Merged(results) <==> exists k :: 0 <= k < |results| && results[k].Ok? && h in results[k].value
  {
    if results != [] {
      var front := results[..|results| - 1];
      MergedFinds(front, h);
      if h in Merged(front) {
        var k :| 0 <= k < |front| && front[k].Ok? && h in front[k].value;
        assert results[k] == front[k];
      }
      forall k | 0 <= k < |results| && results[k].Ok? && h in results[k].value ensures h in Merged(results) {
        if k < |front| {
          assert front[k] == results[k];
        }
      }
    }
  }

  /** The result is what the successful searches found, one search after the other,
      each in its own order and nothing twice: `at[k]` is where search `k` begins. */
  lemma {:induction false} MergedInOrder(results: seq<Result<seq<nat>, Error>>) returns (at: seq<nat>)
    ensures |at| == |results| + 1 && at[0] == 0 && at[|results|] == |Merged(results)|
    ensures forall k :: 0 <= k < |results| ==>
              && at[k + 1] == at[k] + (if results[k].Ok? then |results[k].value| else 0) <= |Merged(results)|
              && (results[k].Ok? ==> Merged(results)[at[k]..at[k + 1]] == results[k].value)
  {
    if results == [] {
      at := [0];
    } else {
      var front, last := results[..|results| - 1], results[|results| - 1];
      var before := MergedInOrder(front);
      at := before + [|Merged(results)|];
      forall k | 0 <= k < |results|
        ensures && at[k + 1] == at[k] + (if results[k].Ok? then |results[k].value| else 0) <= |Merged(results)|
                && (results[k].Ok? ==> Merged(results)[at[k]..at[k + 1]] == results[k].value)
      {
        if k < |front| {
          assert results[k] == front[k] && at[k] == before[k] && at[k + 1] == before[k + 1];
          assert Merged(results)[at[k]..at[k + 1]] == Merged(front)[at[k]..at[k + 1]];
        }
      }
    }
  }

  /** One result for each identifier the specifier resolves to; it fails only if
      every search did. */
  method FindService(results: seq<Result<seq<nat>, Error>>) returns (found: Found)
    ensures results == [] ==> found == Terminated
    ensures results != [] ==>
              found == Handles(if forall k :: 0 <= k < |results| ==> results[k].Err? then Err(BINDING_FAILURE)
                               else Ok(Merged(results)))
  {
    if results == [] {
      return Terminated;
    }
    var handles: seq<nat> := [];
    var onlyErrors := true;
    for k := 0 to |results|
      invariant handles == Merged(results[..k])
      invariant onlyErrors <==> forall j :: 0 <= j < k ==> results[j].Err?
    {
      assert results[..k + 1][..k] == results[..k];
      if results[k].Ok? {
        onlyErrors := false;
        handles := handles + results[k].value;
      } else {
        assert Merged(results[..k + 1]) == Merged(results[..k]) + [];
      }
    }
    assert results[..|results|] == results;
    return Handles(if onlyErrors then Err(BINDING_FAILURE) else Ok(handles));
  }

  // ----- whole lives

  datatype Op =
    | Start(handler: Handler, searches: seq<(Identifier, Option<Error>)>, stopErrors: map<Identifier, Error>)
    | Stop(handle: Handle, errors: map<Identifier, Error>)

  function Starts(ops: seq<Op>): nat
  {
    if ops == [] then 0 else Starts(ops[..|ops| - 1]) + if ops[|ops| - 1].Start? then 1 else 0
  }

  predicate Succeeds(op: Op)
  {
    op.Start? && forall k :: 0 <= k < |op.searches| ==> op.searches[k].1.None?
  }

  /** The handles a program is given: one for each start that succeeds, numbered
      by the starts before it. */
  function Given(ops: seq<Op>): seq<Handle>
  {
    if ops == [] then []
    else
      var front := ops[..|ops| - 1];
      Given(front) + if Succeeds(ops[|ops| - 1]) then [Starts(front)] else []
  }

  /** No handle is given twice, however many were stopped in between. */
  lemma {:induction false} HandlesAreNeverReused(ops: seq<Op>)
    ensures forall i, j :: 0 <= i < j < |Given(ops)| ==> Given(ops)[i] < Given(ops)[j]
    ensures forall i :: 0 <= i < |Given(ops)| ==> Given(ops)[i] < Starts(ops)
  {
    if ops != [] {
      HandlesAreNeverReused(ops[..|ops| - 1]);
    }
  }

  /** One start or stop. */
  method LiveOne(sd: ServiceDiscovery, op: Op) returns (handle: Option<Handle>)
    requires sd.Valid()
    modifies sd
    ensures sd.Valid() && sd.nextFreeUid == old(sd.nextFreeUid) + if op.Start? then 1 else 0
    ensures handle == if Succeeds(op) then Some(old(sd.nextFreeUid)) else None
  {
    match op
    case Start(handler, searches, stopErrors) =>
      var identifiers := seq(|searches|, i requires 0 <= i < |searches| => searches[i].0);
      var answers := seq(|searches|, i requires 0 <= i < |searches| => searches[i].1);
      var result := sd.StartFindService(handler, identifiers, answers, stopErrors);
      assert forall k :: 0 <= k < |searches| ==> answers[k] == searches[k].1;
      return if result.Ok? then Some(result.value) else None;
    case Stop(handle, stopErrors) =>
      var _ := sd.StopFindService(handle, stopErrors);
      return None;
  }

  /** Any starts and stops, then the destructor: the handles are those above, and
      at the end no instance is stored and no client searches. */
  method Live(ops: seq<Op>, errors: map<Identifier, Error>) returns (handles: seq<Handle>, sd: ServiceDiscovery)
    ensures fresh(sd) && sd.Valid() && sd.handleToInstances == [] && sd.active == {}
    ensures handles == Given(ops)
  {
    sd := new ServiceDiscovery();
    handles := [];
    for k := 0 to |ops|
      invariant fresh(sd) && sd.Valid()
      invariant sd.nextFreeUid == Starts(ops[..k]) && handles == Given(ops[..k])
    {
      assert ops[..k + 1][..k] == ops[..k];
      var handle := LiveOne(sd, ops[k]);
      handles := handles + if handle.Some? then [handle.value] else [];
    }
    assert ops[..|ops|] == ops;
    sd.Destroy(errors);
  }
}
