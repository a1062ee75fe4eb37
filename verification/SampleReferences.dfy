/** Reference guards, guard factories and sample pointers as the objects they
    are: who holds a reference, and when it goes back to the tracker.

    The ghost ledger of a tracker names every reference ever given to a guard and
    says for each of them which guard holds it or that it was released. */
module SampleReferences {

  import opened Tally
  import opened Wrappers

  // ----- the ledger

  datatype Ledger = Ledger(
    available: nat,
    max: nat,
    reserved: nat,                             // references held by factories
    issued: nat,                               // references given to guards so far
    owner: map<nat, SampleReferenceGuard>,     // the guard holding each live reference
    released: set<nat>)                        // the references that came back
  {
    /** References given to guards are live or released, never both, and all
        references together make up the maximum. */
    ghost predicate Balanced()
    {
      && available + reserved + |owner| == max
      && (forall r :: 0 <= r < issued ==> (r in owner <==> r !in released))
      && (forall r :: r in released || r in owner ==> r < issued)
    }

    /** The holder of `r` gives it back. */
    ghost function Release(r: nat): Ledger
    {
      this.(available := available + 1, owner := owner - {r}, released := released + {r})
    }

    /** Guard `g` takes over `r`. */
    ghost function Transfer(r: nat, g: SampleReferenceGuard): Ledger
    {
      this.(owner := owner[r := g])
    }

    lemma ReleaseKeepsBalance(r: nat)
      requires Balanced() && r in owner
      ensures Release(r).Balanced() && r !in released
    {
      assert (owner - {r}).Keys == owner.Keys - {r};
    }

    lemma TransferKeepsBalance(r: nat, g: SampleReferenceGuard)
      requires Balanced() && r in owner
      ensures Transfer(r, g).Balanced()
    {
      assert owner[r := g].Keys == owner.Keys;
    }
  }

  class SampleReferenceTracker {
    var available: nat
    var max: nat
    ghost var reserved: nat
    ghost var issued: nat
    ghost var owner: map<nat, SampleReferenceGuard>
    ghost var released: set<nat>

    ghost function Books(): Ledger
      reads this
    {
      Ledger(available, max, reserved, issued, owner, released)
    }

    ghost predicate Valid()
      reads this
    {
      Books().Balanced()
    }

    constructor (maxNumSamples: nat)
      ensures Books() == Ledger(maxNumSamples, maxNumSamples, 0, 0, map[], {}) && Valid()
    {
      available, max := maxNumSamples, maxNumSamples;
      reserved, issued, owner, released := 0, 0, map[], {};
    }

    predicate IsUsed()
      reads this
    {
      available < max
    }

    /** The tracker may be reinitialised only while nothing is out. */
    method Reset(maxNumSamples: nat)
      requires Valid() && reserved == 0 && owner == map[]
      modifies this`available, this`max
      ensures Valid() && available == max == maxNumSamples
    {
      available := maxNumSamples;
      max := maxNumSamples;
    }

    /** The production assertion is the precondition. */
    method Deallocate(n: nat)
      requires available + n <= max
      modifies this`available
      ensures available == old(available) + n
    {
      available := available + n;
    }

    /** The retry loop run by one thread alone.  `spurious[k]` tells whether
        attempt `k` fails although nothing changed; later attempts do not.  The
        loop ends and grants exactly what is there, up to the request. */
    method Allocate(numSamples: nat, spurious: seq<bool>) returns (factory: TrackerGuardFactory)
      requires Valid()
      modifies this`available, this`reserved
      ensures fresh(factory) && factory.tracker == this
      ensures factory.count == Min(old(available), numSamples)
      ensures Books() == old(Books()).(available := old(available) - factory.count,
                                       reserved := old(reserved) + factory.count)
      ensures Valid()
    {
      var granted, wanted := 0, numSamples;
      var seen := available;
      var attempt := 0;
      while wanted > 0
        invariant granted + wanted == numSamples
        invariant available + granted == old(available)
        invariant reserved == old(reserved)
        invariant (granted == 0 && seen == available) || wanted == 0 || available == 0
        decreases if attempt < |spurious| then |spurious| - attempt else 0, wanted, seen
      {
        if seen > 0 {
          var step := Min(seen, wanted);
          // compare_exchange_weak: on success `seen` keeps its old value.
          if available == seen && !(attempt < |spurious| && spurious[attempt]) {
            available := seen - step;
            granted := granted + step;
            wanted := wanted - step;
          } else {
            seen := available;
          }
          attempt := attempt + 1;
        } else {
          break;
        }
      }
      reserved := reserved + granted;
      factory := new TrackerGuardFactory(this, granted);
    }
  }

  class TrackerGuardFactory {
    const tracker: SampleReferenceTracker
    var count: nat

    constructor (tracker: SampleReferenceTracker, count: nat)
      ensures this.tracker == tracker && this.count == count
    {
      this.tracker, this.count := tracker, count;
    }

    constructor Move(other: TrackerGuardFactory)
      modifies other
      ensures tracker == other.tracker && count == old(other.count) && other.count == 0
    {
      tracker, count := other.tracker, other.count;
      new;
      other.count := 0;
    }

    method TakeGuard() returns (guard: SampleReferenceGuard?)
      requires tracker.Valid() && count <= tracker.reserved
      modifies this, tracker
      ensures tracker.Valid() && count <= tracker.reserved
      ensures guard == null <==> old(count) == 0
      ensures guard == null ==> count == old(count) && tracker.Books() == old(tracker.Books())
      ensures guard != null ==>
                && fresh(guard) && guard.tracker == tracker && guard.ref == old(tracker.issued)
                && count == old(count) - 1
                && tracker.Books() == old(tracker.Books()).(
                     reserved := old(tracker.reserved) - 1, issued := old(tracker.issued) + 1,
                     owner := old(tracker.owner)[guard.ref := guard])
    {
      if count > 0 {
        count := count - 1;
        guard := new SampleReferenceGuard.ForTracker(tracker);
      } else {
        guard := null;
      }
    }

    /** The destructor hands unused references back. */
    method Destroy()
      requires tracker.Valid() && count <= tracker.reserved
      modifies this, tracker`available, tracker`reserved
      ensures tracker.Valid() && count == 0
      ensures tracker.Books() == old(tracker.Books()).(available := old(tracker.available) + old(count),
                                                       reserved := old(tracker.reserved) - old(count))
    {
      if count > 0 {
        tracker.Deallocate(count);
        tracker.reserved := tracker.reserved - count;
        count := 0;
      }
    }
  }

  // ----- guards

  /** The guards `gs` hold the live references of the trackers `ts`, each of them
      exactly one, and no guard outside holds any. */
  ghost predicate Pool(gs: set<SampleReferenceGuard>, ts: set<SampleReferenceTracker>)
    reads ts, gs
  {
    (forall t :: t in ts ==> t.Valid()) && Booked(gs, ts) && Holding(gs, ts)
  }

  /** What a guard holds is booked under its name. */
  ghost predicate Booked(gs: set<SampleReferenceGuard>, ts: set<SampleReferenceTracker>)
    reads ts`owner, gs
  {
    forall g :: g in gs && g.tracker != null ==>
      g.tracker in ts && g.ref in g.tracker.owner && g.tracker.owner[g.ref] == g
  }

  /** Whoever is booked for a reference holds it. */
  ghost predicate Holding(gs: set<SampleReferenceGuard>, ts: set<SampleReferenceTracker>)
    reads ts`owner, gs
  {
    forall t, r :: t in ts && r in t.owner ==>
      t.owner[r] in gs && t.owner[r].tracker == t && t.owner[r].ref == r
  }

  /** A guard that holds nothing makes no difference. */
  lemma PoolGrows(gs: set<SampleReferenceGuard>, ts: set<SampleReferenceTracker>, g: SampleReferenceGuard)
    requires Pool(gs, ts) && g.tracker == null
    ensures Pool(gs + {g}, ts)
  {
  }

  lemma PoolShrinks(gs: set<SampleReferenceGuard>, ts: set<SampleReferenceTracker>, g: SampleReferenceGuard)
    requires Pool(gs, ts) && g.tracker == null
    ensures Pool(gs - {g}, ts)
  {
  }

  /** What a guard in the pool says is so. */
  lemma InPool(g: SampleReferenceGuard, gs: set<SampleReferenceGuard>, ts: set<SampleReferenceTracker>)
    requires Pool(gs, ts) && g in gs && g.tracker != null
    ensures g.tracker in ts && g.tracker.Valid() && g.ref in g.tracker.owner && g.tracker.owner[g.ref] == g
    ensures g.ref !in g.tracker.released && |g.tracker.owner| > 0
  {
    assert g.ref in g.tracker.owner.Keys;
  }

  ghost function BooksOf(ts: set<SampleReferenceTracker>): map<SampleReferenceTracker, Ledger>
    reads ts
  {
    map t | t in ts :: t.Books()
  }

  /** Of all references only `freed` came back; factories and numbering are as
      before. */
  ghost predicate OnlyFreed(before: map<SampleReferenceTracker, Ledger>, after: map<SampleReferenceTracker, Ledger>,
                            freed: Option<Ref>)
  {
    && after.Keys == before.Keys
    && forall t :: t in after ==>
         && after[t].max == before[t].max && after[t].reserved == before[t].reserved
         && after[t].issued == before[t].issued
         && after[t].released == before[t].released + if freed.Some? && freed.value.0 == t then {freed.value.1} else {}
  }

  lemma FreedInAll(before: map<SampleReferenceTracker, Ledger>, middle: map<SampleReferenceTracker, Ledger>,
                  after: map<SampleReferenceTracker, Ledger>, freed: Option<Ref>)
    requires || (OnlyFreed(before, middle, freed) && OnlyFreed(middle, after, None))
             || (OnlyFreed(before, middle, None) && OnlyFreed(middle, after, freed))
    ensures OnlyFreed(before, after, freed)
  {
  }

  /** A reference of some tracker. */
  type Ref = (SampleReferenceTracker, nat)

  /** The reference a guard holds. */
  ghost function Held(g: SampleReferenceGuard): Option<Ref>
    reads g
  {
    if g.tracker == null then None
    else
      var t: SampleReferenceTracker := g.tracker;
      Some((t, g.ref))
  }

  ghost function TrackerOf(g: SampleReferenceGuard): set<SampleReferenceTracker>
    reads g
  {
    if g.tracker == null then {} else {g.tracker}
  }

  /** `to` has what `from` had; nobody else is concerned. */
  twostate predicate HandedOver(to: SampleReferenceGuard, from: SampleReferenceGuard, gs: set<SampleReferenceGuard>,
                                ts: set<SampleReferenceTracker>)
    reads to, from, gs, ts`owner
  {
    && to in gs && from in gs && to != from
    && old(from.tracker) != null && old(from.tracker) in ts && old(to.tracker) == null
    && to.tracker == old(from.tracker) && to.ref == old(from.ref) && from.tracker == null
    && to.tracker.owner == old(from.tracker.owner)[to.ref := to]
    && (forall t :: t in ts && t != to.tracker ==> t.owner == old(t.owner))
    && (forall g :: g in gs && g != to && g != from ==> g.tracker == old(g.tracker) && g.ref == old(g.ref))
  }

  twostate predicate StaysBooked(to: SampleReferenceGuard, from: SampleReferenceGuard, gs: set<SampleReferenceGuard>,
                                 ts: set<SampleReferenceTracker>)
    requires old(Booked(gs, ts)) && HandedOver(to, from, gs, ts)
    reads to, from, gs, ts`owner
    ensures Booked(gs, ts)
  {
    true
  }

  twostate predicate StaysHolding(to: SampleReferenceGuard, from: SampleReferenceGuard, gs: set<SampleReferenceGuard>,
                                  ts: set<SampleReferenceTracker>)
    requires old(Booked(gs, ts)) && old(Holding(gs, ts)) && HandedOver(to, from, gs, ts)
    reads to, from, gs, ts`owner
    ensures Holding(gs, ts)
  {
    true
  }

  /** The reference `g` held is not live any more, which concerns nobody else. */
  twostate predicate BackIn(g: SampleReferenceGuard, gs: set<SampleReferenceGuard>, ts: set<SampleReferenceTracker>)
    requires old(Booked(gs, ts)) && old(Holding(gs, ts)) && g in gs && old(g.tracker) != null && g.tracker == null
    requires forall t :: t in ts ==> t.owner == old(t.owner) - if t == old(g.tracker) then {g.ref} else {}
    requires g.ref == old(g.ref)
    requires forall h :: h in gs && h != g ==> h.tracker == old(h.tracker) && h.ref == old(h.ref)
    reads g, gs, ts`owner
    ensures Booked(gs, ts) && Holding(gs, ts)
  {
    true
  }

  class SampleReferenceGuard {
    var tracker: SampleReferenceTracker?
    ghost var ref: nat

    constructor Empty()
      ensures tracker == null
    {
      tracker := null;
    }

    constructor ForTracker(t: SampleReferenceTracker)
      requires t.Valid() && t.reserved > 0
      modifies t`reserved, t`issued, t`owner
      ensures t.Valid() && tracker == t && ref == old(t.issued)
      ensures t.Books() == old(t.Books()).(reserved := old(t.reserved) - 1, issued := old(t.issued) + 1,
                                           owner := old(t.owner)[ref := this])
    {
      tracker := t;
      ref := t.issued;
      new;
      t.reserved, t.issued, t.owner := t.reserved - 1, t.issued + 1, t.owner[t.issued := this];
    }

    constructor Move(other: SampleReferenceGuard, ghost gs: set<SampleReferenceGuard>,
                     ghost ts: set<SampleReferenceTracker>)
      requires Pool(gs, ts) && other in gs
      modifies other`tracker, TrackerOf(other)`owner
      ensures Pool(gs + {this}, ts) && Held(this) == old(Held(other)) && Held(other) == None
      ensures OnlyFreed(old(BooksOf(ts)), BooksOf(ts), None)
      ensures tracker != null ==> tracker.owner == old(other.tracker.owner)[ref := this]
    {
      hide Pool;
      tracker, ref := null, 0;
      new;
      PoolGrows(gs, ts, this);
      TakeOver(other, gs + {this}, ts);
    }

    /** The reference of `other`, if it has one, is this guard's. */
    method TakeOver(other: SampleReferenceGuard, ghost gs: set<SampleReferenceGuard>,
                    ghost ts: set<SampleReferenceTracker>)
      requires Pool(gs, ts) && this in gs && other in gs && this != other && Held(this) == None
      modifies this, other`tracker, TrackerOf(other)`owner
      ensures Pool(gs, ts) && Held(this) == old(Held(other)) && Held(other) == None
      ensures OnlyFreed(old(BooksOf(ts)), BooksOf(ts), None)
      ensures tracker != null ==> tracker.owner == old(other.tracker.owner)[ref := this]
    {
      hide Pool;
      if other.tracker != null {
        TakeReference(other, gs, ts);
      }
    }

    method TakeReference(other: SampleReferenceGuard, ghost gs: set<SampleReferenceGuard>,
                         ghost ts: set<SampleReferenceTracker>)
      requires Pool(gs, ts) && this in gs && other in gs && this != other && tracker == null && other.tracker != null
      modifies this, other`tracker, other.tracker`owner
      ensures Pool(gs, ts)
      ensures tracker == old(other.tracker) && ref == old(other.ref) && other.tracker == null
      ensures tracker.owner == old(other.tracker.owner)[ref := this]
    {
      hide Ledger.Balanced;
      ghost var t: SampleReferenceTracker := other.tracker;
      t.Books().TransferKeepsBalance(other.ref, this);
      tracker, ref := other.tracker, other.ref;
      tracker.owner := tracker.owner[ref := this];
      other.tracker := null;
      assert forall u :: u in ts ==> u.Valid();
      assert StaysBooked(this, other, gs, ts);
      assert StaysHolding(this, other, gs, ts);
      hide Booked, Holding;
    }

    /** The private `Deallocate`, which is also the destructor. */
    method Deallocate(ghost gs: set<SampleReferenceGuard>, ghost ts: set<SampleReferenceTracker>)
      requires Pool(gs, ts) && this in gs
      modifies this`tracker, TrackerOf(this)`available, TrackerOf(this)`owner, TrackerOf(this)`released
      ensures Pool(gs, ts) && Held(this) == None
      ensures OnlyFreed(old(BooksOf(ts)), BooksOf(ts), old(Held(this)))
      ensures old(tracker) != null ==>
                && old(ref !in tracker.released)
                && old(tracker).Books() == old(tracker.Books()).Release(old(ref))
    {
      hide Pool;
      if tracker != null {
        Release(gs, ts);
      }
    }

    method Release(ghost gs: set<SampleReferenceGuard>, ghost ts: set<SampleReferenceTracker>)
      requires Pool(gs, ts) && this in gs && tracker != null
      modifies this`tracker, tracker`available, tracker`owner, tracker`released
      ensures Pool(gs, ts) && tracker == null
      ensures old(ref !in tracker.released)
      ensures old(tracker).Books() == old(tracker.Books()).Release(old(ref))
    {
      hide Ledger.Balanced;
      InPool(this, gs, ts);
      tracker.Books().ReleaseKeepsBalance(ref);
      tracker.Deallocate(1);
      tracker.owner, tracker.released := tracker.owner - {ref}, tracker.released + {ref};
      tracker := null;
      assert forall t :: t in ts ==> t.Valid();
      assert BackIn(this, gs, ts);
      hide Booked, Holding;
    }

    /** Move assignment: the own reference goes back, the other one is taken over,
        whatever trackers they belong to; assigning a guard to itself changes
        nothing. */
    method MoveAssign(other: SampleReferenceGuard, ghost gs: set<SampleReferenceGuard>,
                      ghost ts: set<SampleReferenceTracker>)
      requires Pool(gs, ts) && this in gs && other in gs
      modifies this, other`tracker, TrackerOf(this)`available, TrackerOf(this)`owner, TrackerOf(this)`released,
               TrackerOf(other)`owner
      ensures Pool(gs, ts) && Held(this) == old(Held(other)) && (this != other ==> Held(other) == None)
      ensures OnlyFreed(old(BooksOf(ts)), BooksOf(ts), if this == other then None else old(Held(this)))
    {
      hide Pool, OnlyFreed;
      if this != other {
        Deallocate(gs, ts);
        ghost var books := BooksOf(ts);
        TakeOver(other, gs, ts);
        FreedInAll(old(BooksOf(ts)), books, BooksOf(ts), old(Held(this)));
      } else {
        NothingFreed(BooksOf(ts));
      }
    }
  }

  lemma NothingFreed(books: map<SampleReferenceTracker, Ledger>)
    ensures OnlyFreed(books, books, None)
  {
  }

  /** `std::swap` of two guards: they exchange what they hold and nothing is
      released. */
  method SwapGuards(a: SampleReferenceGuard, b: SampleReferenceGuard, ghost gs: set<SampleReferenceGuard>,
                    ghost ts: set<SampleReferenceTracker>)
    requires Pool(gs, ts) && a in gs && b in gs
    modifies a, b, TrackerOf(a)`available, TrackerOf(a)`owner, TrackerOf(a)`released, TrackerOf(b)`available,
             TrackerOf(b)`owner, TrackerOf(b)`released
    ensures Pool(gs, ts) && OnlyFreed(old(BooksOf(ts)), BooksOf(ts), None)
    ensures Held(a) == old(Held(b)) && Held(b) == old(Held(a))
  {
    hide Pool, OnlyFreed, BooksOf;
    ghost var start := BooksOf(ts);
    var tmp := new SampleReferenceGuard.Move(a, gs, ts);
    ghost var moved := BooksOf(ts);
    a.MoveAssign(b, gs + {tmp}, ts);
    ghost var halfway := BooksOf(ts);
    FreedInAll(start, moved, halfway, None);
    b.MoveAssign(tmp, gs + {tmp}, ts);
    ghost var swapped := BooksOf(ts);
    FreedInAll(start, halfway, swapped, None);
    tmp.Deallocate(gs + {tmp}, ts);
    FreedInAll(start, swapped, BooksOf(ts), None);
    PoolShrinks(gs + {tmp}, ts, tmp);
    assert gs + {tmp} - {tmp} == gs;
  }

  // ----- sample pointers

  class SamplePtr {
    var sample: Option<nat>              // the binding's own pointer
    const guard: SampleReferenceGuard    // embedded in the object

    constructor (sample: Option<nat>, guard: SampleReferenceGuard, ghost gs: set<SampleReferenceGuard>,
                 ghost ts: set<SampleReferenceTracker>)
      requires Pool(gs, ts) && guard in gs
      modifies guard`tracker, TrackerOf(guard)`owner
      ensures this.sample == sample && fresh(this.guard) && Pool(gs + {this.guard}, ts)
      ensures Held(this.guard) == old(Held(guard)) && Held(guard) == None
      ensures OnlyFreed(old(BooksOf(ts)), BooksOf(ts), None)
      ensures this.guard.tracker != null ==>
                this.guard.tracker.owner == old(guard.tracker.owner)[this.guard.ref := this.guard]
    {
      hide Pool;
      this.sample := sample;
      var g := new SampleReferenceGuard.Move(guard, gs, ts);
      this.guard := g;
    }

    constructor Move(other: SamplePtr, ghost gs: set<SampleReferenceGuard>, ghost ts: set<SampleReferenceTracker>)
      requires Pool(gs, ts) && other.guard in gs
      modifies other`sample, other.guard`tracker, TrackerOf(other.guard)`owner
      ensures sample == old(other.sample) && other.sample == None && fresh(guard) && Pool(gs + {guard}, ts)
      ensures Held(guard) == old(Held(other.guard)) && Held(other.guard) == None
      ensures OnlyFreed(old(BooksOf(ts)), BooksOf(ts), None)
    {
      hide Pool;
      sample := other.sample;
      var g := new SampleReferenceGuard.Move(other.guard, gs, ts);
      guard := g;
      new;
      other.sample := None;
    }

    /** The defaulted move assignment; nothing is promised about `other.sample`. */
    method MoveAssign(other: SamplePtr, ghost gs: set<SampleReferenceGuard>, ghost ts: set<SampleReferenceTracker>)
      requires Pool(gs, ts) && guard in gs && other.guard in gs && (this != other ==> guard != other.guard)
      modifies this`sample, other`sample, guard, other.guard`tracker,
               TrackerOf(guard)`available, TrackerOf(guard)`owner, TrackerOf(guard)`released,
               TrackerOf(other.guard)`owner
      ensures Pool(gs, ts) && sample == old(other.sample)
      ensures Held(guard) == old(Held(other.guard)) && (this != other ==> Held(other.guard) == None)
      ensures OnlyFreed(old(BooksOf(ts)), BooksOf(ts), if this == other then None else old(Held(guard)))
    {
      hide Pool;
      sample := other.sample;
      guard.MoveAssign(other.guard, gs, ts);
    }

    /** `std::swap` of both members; no reference is released. */
    method Swap(other: SamplePtr, ghost gs: set<SampleReferenceGuard>, ghost ts: set<SampleReferenceTracker>)
      requires Pool(gs, ts) && guard in gs && other.guard in gs
      modifies this`sample, other`sample, guard, other.guard,
               TrackerOf(guard)`available, TrackerOf(guard)`owner, TrackerOf(guard)`released,
               TrackerOf(other.guard)`available, TrackerOf(other.guard)`owner, TrackerOf(other.guard)`released
      ensures Pool(gs, ts) && OnlyFreed(old(BooksOf(ts)), BooksOf(ts), None)
      ensures sample == old(other.sample) && other.sample == old(sample)
      ensures Held(guard) == old(Held(other.guard)) && Held(other.guard) == old(Held(guard))
    {
      hide Pool;
      sample, other.sample := other.sample, sample;
      SwapGuards(guard, other.guard, gs, ts);
    }

    /** `Reset` with its parameter object, which is destroyed at the end: the
        reference this pointer held goes back, that of the parameter is kept. */
    method Reset(parameter: SamplePtr, ghost gs: set<SampleReferenceGuard>, ghost ts: set<SampleReferenceTracker>)
      requires Pool(gs, ts) && guard in gs && parameter.guard in gs && guard != parameter.guard
      modifies this`sample, parameter`sample, guard, parameter.guard,
               TrackerOf(guard)`available, TrackerOf(guard)`owner, TrackerOf(guard)`released,
               TrackerOf(parameter.guard)`available, TrackerOf(parameter.guard)`owner,
               TrackerOf(parameter.guard)`released
      ensures Pool(gs, ts) && Held(parameter.guard) == None && sample == old(parameter.sample)
      ensures Held(guard) == old(Held(parameter.guard))
      ensures OnlyFreed(old(BooksOf(ts)), BooksOf(ts), old(Held(guard)))
    {
      hide Pool, OnlyFreed, BooksOf;
      ghost var start := BooksOf(ts);
      Swap(parameter, gs, ts);
      ghost var swapped := BooksOf(ts);
      parameter.guard.Deallocate(gs, ts);
      FreedInAll(start, swapped, BooksOf(ts), old(Held(guard)));
    }
  }

  // ----- any sequence of operations on any number of sample pointers

  datatype PtrOp =
    | MoveConstruct(i: nat)
    | MoveAssign(i: nat, j: nat)
    | Swap(i: nat, j: nat)
    | Reset(i: nat, j: nat)      // ptrs[i].Reset(std::move(ptrs[j]))
    | Clear(i: nat)              // ptrs[i].Reset() or ptrs[i] = nullptr

  /** What no operation on sample pointers changes, and what only grows. */
  ghost predicate Continues(before: Ledger, after: Ledger)
  {
    && after.max == before.max && after.reserved == before.reserved && after.issued == before.issued
    && before.released <= after.released
  }

  ghost predicate AllContinue(before: map<SampleReferenceTracker, Ledger>, after: map<SampleReferenceTracker, Ledger>)
  {
    after.Keys == before.Keys && forall t :: t in after ==> Continues(before[t], after[t])
  }

  lemma Unchanged(books: map<SampleReferenceTracker, Ledger>)
    ensures AllContinue(books, books)
  {
  }

  lemma FreeingContinues(before: map<SampleReferenceTracker, Ledger>, middle: map<SampleReferenceTracker, Ledger>,
                         after: map<SampleReferenceTracker, Ledger>, freed: Option<Ref>)
    requires AllContinue(before, middle) && OnlyFreed(middle, after, freed)
    ensures AllContinue(before, after)
  {
  }

  /** `gs` are the guards of `ptrs`; distinct objects have distinct embedded guards. */
  ghost predicate GuardsOf(ptrs: seq<SamplePtr>, gs: set<SampleReferenceGuard>)
  {
    && (forall i :: 0 <= i < |ptrs| ==> ptrs[i].guard in gs)
    && (forall g :: g in gs ==> exists i :: 0 <= i < |ptrs| && ptrs[i].guard == g)
    && (forall i, j :: 0 <= i < j < |ptrs| ==> ptrs[i].guard != ptrs[j].guard)
  }

  /** The reference each sample pointer holds. */
  ghost function Holds(ptrs: seq<SamplePtr>): (hs: seq<Option<Ref>>)
    reads set p | p in ptrs :: p.guard
    ensures |hs| == |ptrs|
  {
    seq(|ptrs|, i requires 0 <= i < |ptrs| reads set p | p in ptrs :: p.guard => Held(ptrs[i].guard))
  }

  predicate InRange(op: PtrOp, n: nat)
  {
    match op
    case MoveConstruct(i) => i < n
    case MoveAssign(i, j) => i < n && j < n
    case Swap(i, j) => i < n && j < n
    case Reset(i, j) => i < n && j < n
    case Clear(i) => i < n
  }

  /** Who holds what after the operation. */
  ghost function Effect(hs: seq<Option<Ref>>, op: PtrOp): seq<Option<Ref>>
    requires InRange(op, |hs|)
  {
    match op
    case MoveConstruct(i) => hs[i := None] + [hs[i]]
    case MoveAssign(i, j) => if i == j then hs else hs[i := hs[j]][j := None]
    case Swap(i, j) => hs[i := hs[j]][j := hs[i]]
    case Reset(i, j) => if i == j then hs else hs[i := hs[j]][j := None]
    case Clear(i) => hs[i := None]
  }

  /** The reference the operation gives back. */
  ghost function Freed(hs: seq<Option<Ref>>, op: PtrOp): Option<Ref>
    requires InRange(op, |hs|)
  {
    match op
    case MoveAssign(i, j) => if i == j then None else hs[i]
    case Reset(i, j) => if i == j then None else hs[i]
    case Clear(i) => hs[i]
    case _ => None
  }

  lemma OneMore(ptrs: seq<SamplePtr>, gs: set<SampleReferenceGuard>, q: SamplePtr)
    requires GuardsOf(ptrs, gs) && q.guard !in gs
    ensures GuardsOf(ptrs + [q], gs + {q.guard})
  {
    var ptrs' := ptrs + [q];
    assert ptrs'[|ptrs|] == q;
    forall g | g in gs ensures exists i :: 0 <= i < |ptrs'| && ptrs'[i].guard == g {
      var i :| 0 <= i < |ptrs| && ptrs[i].guard == g;
      assert ptrs'[i].guard == g;
    }
  }

  /** The trackers concerned are among those looked at. */
  lemma TrackersKnown(gs: set<SampleReferenceGuard>, ts: set<SampleReferenceTracker>)
    requires Pool(gs, ts)
    ensures forall g :: g in gs ==> TrackerOf(g) <= ts
  {
  }

  method PerformMoveConstruct(ptrs: seq<SamplePtr>, i: nat, ghost gs: set<SampleReferenceGuard>,
                              ghost ts: set<SampleReferenceTracker>)
      returns (ptrs': seq<SamplePtr>, ghost gs': set<SampleReferenceGuard>)
    requires Pool(gs, ts) && GuardsOf(ptrs, gs) && i < |ptrs|
    modifies ptrs, ts, gs
    ensures Pool(gs', ts) && GuardsOf(ptrs', gs') && OnlyFreed(old(BooksOf(ts)), BooksOf(ts), None)
    ensures Holds(ptrs') == Effect(old(Holds(ptrs)), MoveConstruct(i))
    ensures ptrs' == ptrs + [ptrs'[|ptrs|]] && fresh(ptrs'[|ptrs|]) && gs' == gs + {ptrs'[|ptrs|].guard}
    ensures fresh(gs' - gs)
  {
    hide Pool, OnlyFreed, BooksOf;
    TrackersKnown(gs, ts);
    var q := new SamplePtr.Move(ptrs[i], gs, ts);
    OneMore(ptrs, gs, q);
    ptrs', gs' := ptrs + [q], gs + {q.guard};
  }

  method PerformReset(ptrs: seq<SamplePtr>, i: nat, j: nat, ghost gs: set<SampleReferenceGuard>,
                      ghost ts: set<SampleReferenceTracker>)
    requires Pool(gs, ts) && GuardsOf(ptrs, gs) && i < |ptrs| && j < |ptrs|
    modifies ptrs, ts, gs
    ensures Pool(gs, ts) && Holds(ptrs) == Effect(old(Holds(ptrs)), Reset(i, j))
    ensures OnlyFreed(old(BooksOf(ts)), BooksOf(ts), Freed(old(Holds(ptrs)), Reset(i, j)))
  {
    hide Pool, OnlyFreed, BooksOf;
    TrackersKnown(gs, ts);
    ghost var start := BooksOf(ts);
    var parameter := new SamplePtr.Move(ptrs[j], gs, ts);
    ghost var moved := BooksOf(ts);
    ptrs[i].Reset(parameter, gs + {parameter.guard}, ts);
    FreedInAll(start, moved, BooksOf(ts), Freed(old(Holds(ptrs)), Reset(i, j)));
    PoolShrinks(gs + {parameter.guard}, ts, parameter.guard);
    assert gs + {parameter.guard} - {parameter.guard} == gs;
  }

  method PerformClear(ptrs: seq<SamplePtr>, i: nat, ghost gs: set<SampleReferenceGuard>,
                      ghost ts: set<SampleReferenceTracker>)
    requires Pool(gs, ts) && GuardsOf(ptrs, gs) && i < |ptrs|
    modifies ptrs, ts, gs
    ensures Pool(gs, ts) && Holds(ptrs) == Effect(old(Holds(ptrs)), Clear(i))
    ensures OnlyFreed(old(BooksOf(ts)), BooksOf(ts), Freed(old(Holds(ptrs)), Clear(i)))
  {
    hide Pool, OnlyFreed, BooksOf;
    TrackersKnown(gs, ts);
    ghost var start := BooksOf(ts);
    var none := new SampleReferenceGuard.Empty();
    PoolGrows(gs, ts, none);
    var parameter := new SamplePtr(None, none, gs + {none}, ts);
    ghost var made := BooksOf(ts);
    ptrs[i].Reset(parameter, gs + {none} + {parameter.guard}, ts);
    FreedInAll(start, made, BooksOf(ts), old(Holds(ptrs))[i]);
    PoolShrinks(gs + {none} + {parameter.guard}, ts, parameter.guard);
    PoolShrinks(gs + {none} + {parameter.guard} - {parameter.guard}, ts, none);
    assert gs + {none} + {parameter.guard} - {parameter.guard} - {none} == gs;
  }

  method PerformOne(ptrs: seq<SamplePtr>, op: PtrOp, ghost gs: set<SampleReferenceGuard>,
                    ghost ts: set<SampleReferenceTracker>)
      returns (ptrs': seq<SamplePtr>, ghost gs': set<SampleReferenceGuard>)
    requires Pool(gs, ts) && GuardsOf(ptrs, gs) && InRange(op, |ptrs|)
    modifies ptrs, ts, gs
    ensures Pool(gs', ts) && GuardsOf(ptrs', gs') && Holds(ptrs') == Effect(old(Holds(ptrs)), op)
    ensures OnlyFreed(old(BooksOf(ts)), BooksOf(ts), Freed(old(Holds(ptrs)), op))
    ensures forall i :: 0 <= i < |ptrs'| ==> ptrs'[i] in ptrs || fresh(ptrs'[i])
    ensures forall g :: g in gs' ==> g in gs || fresh(g)
  {
    hide Pool, OnlyFreed, BooksOf;
    TrackersKnown(gs, ts);
    ptrs', gs' := ptrs, gs;
    match op
    case MoveConstruct(i) => ptrs', gs' := PerformMoveConstruct(ptrs, i, gs, ts);
    case MoveAssign(i, j) => ptrs[i].MoveAssign(ptrs[j], gs, ts);
    case Swap(i, j) => ptrs[i].Swap(ptrs[j], gs, ts);
    case Reset(i, j) => PerformReset(ptrs, i, j, gs, ts);
    case Clear(i) => PerformClear(ptrs, i, gs, ts);
  }

  /** Who holds what after a script; what is out of range is skipped. */
  ghost function Effects(hs: seq<Option<Ref>>, ops: seq<PtrOp>): seq<Option<Ref>>
  {
    if ops == [] then hs
    else
      var before := Effects(hs, ops[..|ops| - 1]);
      if InRange(ops[|ops| - 1], |before|) then Effect(before, ops[|ops| - 1]) else before
  }

  /** Any moves, self-moves, swaps, resets and clears on any sample pointers, whose
      references may belong to any trackers: each pointer holds what the script
      says, every reference that came back was live before, and every tracker's
      books stay right. */
  method RunOps(start: seq<SamplePtr>, ops: seq<PtrOp>, ghost gs0: set<SampleReferenceGuard>,
                ghost ts: set<SampleReferenceTracker>)
      returns (ptrs: seq<SamplePtr>, ghost gs: set<SampleReferenceGuard>)
    requires Pool(gs0, ts) && GuardsOf(start, gs0)
    modifies start, ts, gs0
    ensures Pool(gs, ts) && GuardsOf(ptrs, gs) && Holds(ptrs) == Effects(old(Holds(start)), ops)
    ensures AllContinue(old(BooksOf(ts)), BooksOf(ts))
    ensures forall i :: 0 <= i < |ptrs| ==> ptrs[i] in start || fresh(ptrs[i])
    ensures forall g :: g in gs ==> g in gs0 || fresh(g)
  {
    hide Pool, GuardsOf, OnlyFreed, BooksOf, Effect, Freed, Continues, Holds;
    ghost var books, holds := BooksOf(ts), Holds(start);
    Unchanged(books);
    ptrs, gs := start, gs0;
    for k := 0 to |ops|
      invariant forall i :: 0 <= i < |ptrs| ==> ptrs[i] in start || fresh(ptrs[i])
      invariant forall g :: g in gs ==> g in gs0 || fresh(g)
      invariant Pool(gs, ts) && GuardsOf(ptrs, gs) && Holds(ptrs) == Effects(holds, ops[..k])
      invariant AllContinue(books, BooksOf(ts))
    {
      assert ops[..k + 1][..k] == ops[..k];
      if InRange(ops[k], |ptrs|) {
        ghost var before, held := BooksOf(ts), Holds(ptrs);
        ptrs, gs := PerformOne(ptrs, ops[k], gs, ts);
        FreeingContinues(books, before, BooksOf(ts), Freed(held, ops[k]));
      }
    }
    assert ops[..|ops|] == ops;
  }

  lemma NobodyHolds(ptrs: seq<SamplePtr>, gs: set<SampleReferenceGuard>, ts: set<SampleReferenceTracker>)
    requires Pool(gs, ts) && GuardsOf(ptrs, gs)
    requires forall i :: 0 <= i < |ptrs| ==> Held(ptrs[i].guard) == None
    ensures forall t :: t in ts ==> t.owner == map[] && AllBack(t)
  {
    forall t | t in ts ensures t.owner == map[] {
      assert forall r :: r in t.owner ==> Held(t.owner[r]) == None;
    }
  }

  /** Every reference ever given to a guard was released, and the counter has all
      that no factory has reserved. */
  ghost predicate AllBack(t: SampleReferenceTracker)
    reads t
  {
    && t.Valid() && (forall r :: 0 <= r < t.issued ==> r in t.released)
    && t.available + t.reserved == t.max
  }

  /** Every sample pointer is destroyed. */
  method DestroyAll(ptrs: seq<SamplePtr>, ghost gs: set<SampleReferenceGuard>, ghost ts: set<SampleReferenceTracker>)
    requires Pool(gs, ts) && GuardsOf(ptrs, gs)
    modifies ptrs, ts, gs
    ensures AllContinue(old(BooksOf(ts)), BooksOf(ts))
    ensures forall t :: t in ts ==> t.owner == map[] && AllBack(t)
  {
    hide Pool, GuardsOf, OnlyFreed, BooksOf, Freed, Continues, AllBack;
    ghost var books := BooksOf(ts);
    Unchanged(books);
    for k := 0 to |ptrs|
      invariant Pool(gs, ts) && AllContinue(books, BooksOf(ts))
      invariant forall i :: 0 <= i < k ==> Holds(ptrs)[i] == None
    {
      ghost var before, held := BooksOf(ts), Holds(ptrs);
      PerformClear(ptrs, k, gs, ts);
      FreeingContinues(books, before, BooksOf(ts), Freed(held, Clear(k)));
    }
    assert forall i :: 0 <= i < |ptrs| ==> Holds(ptrs)[i] == Held(ptrs[i].guard);
    NobodyHolds(ptrs, gs, ts);
  }

  /** A script of operations, after which all sample pointers are destroyed: every
      reference of every tracker was released, none twice (each release requires
      that the reference was not released before), and each counter holds
      everything that no factory has reserved. */
  method LiveAndDie(start: seq<SamplePtr>, ops: seq<PtrOp>, ghost gs0: set<SampleReferenceGuard>,
                    ghost ts: set<SampleReferenceTracker>)
    requires Pool(gs0, ts) && GuardsOf(start, gs0)
    modifies start, ts, gs0
    ensures AllContinue(old(BooksOf(ts)), BooksOf(ts))
    ensures forall t :: t in ts ==> t.owner == map[] && AllBack(t)
  {
    hide Pool, GuardsOf, BooksOf, Continues, AllBack, AllContinue;
    ghost var books := BooksOf(ts);
    var ptrs;
    ghost var gs;
    ptrs, gs := RunOps(start, ops, gs0, ts);
    ghost var middle := BooksOf(ts);
    DestroyAll(ptrs, gs, ts);
    ContinuesFurther(books, middle, BooksOf(ts));
  }

  lemma ContinuesFurther(before: map<SampleReferenceTracker, Ledger>, middle: map<SampleReferenceTracker, Ledger>,
                         after: map<SampleReferenceTracker, Ledger>)
    requires AllContinue(before, middle) && AllContinue(middle, after)
    ensures AllContinue(before, after)
  {
  }
}
