/** The lock-free reference accounting of one sample tracker, run by any number
    of threads.

    A thread executes `Allocate` as load, compare-exchange attempts and the exit
    from the loop, and every release as a fetch-add followed by the load of the
    assertion.  Between two such steps any other thread may take any of its own. */
module SampleAccounting {

  import opened Tally

  /** What a thread is doing inside the tracker. */
  datatype Thread =
    | Idle
      /** `Allocate(want)` was entered, the counter not yet read. */
    | Loading(want: nat)
      /** In the retry loop: `want` still needed, `seen` the value the next
          compare-exchange expects, `got` already taken from the counter. */
    | Looping(want: nat, seen: nat, got: nat)
      /** About to add `count` references back. */
    | Releasing(count: nat)
      /** About to load the counter for the assertion. */
    | Checking

  datatype State = State(
    available: nat,
    max: nat,
    threads: seq<Thread>,
    factories: seq<nat>,   // references reserved in each factory, 0 once destroyed or moved from
    guards: seq<bool>)     // whether each guard object still points to the tracker

  datatype Step =
    | BeginAllocate(t: nat, n: nat)
    | LoadCounter(t: nat)
    | CasSucceeds(t: nat)
      /** A genuine or a spurious failure: either way the expected value is reloaded. */
    | CasFails(t: nat)
    | FinishAllocate(t: nat)
    | TakeGuard(t: nat, f: nat)
    | MoveFactory(t: nat, f: nat)
    | DestroyFactory(t: nat, f: nat)
    | NewGuard(t: nat)
    | MoveGuard(t: nat, dst: nat, src: nat)
    | ReleaseGuard(t: nat, g: nat)
    | FetchAdd(t: nat)
    | AssertLoad(t: nat)
      /** `Reset` used as its header demands: no reference is outstanding. */
    | ResetUnused(t: nat, n: nat)

  // ----- weights

  /** References a thread has taken but not yet handed to a factory or added back. */
  function InHand(th: Thread): nat
  {
    match th
    case Looping(_, _, got) => got
    case Releasing(count) => count
    case _ => 0
  }

  function Reserved(n: nat): nat { n }

  function Live(holds: bool): nat { if holds then 1 else 0 }

  /** Every reference that is not in the counter. */
  function Outstanding(s: State): nat
  {
    Total(s.threads, InHand) + Total(s.factories, Reserved) + Total(s.guards, Live)
  }

  // ----- the machine

  function Init(max: nat, threadCount: nat): State
  {
    State(max, max, seq(threadCount, _ => Idle), [], [])
  }

  predicate IsIdle(s: State, t: nat) { t < |s.threads| && s.threads[t].Idle? }

  predicate Enabled(s: State, step: Step)
  {
    match step
    case BeginAllocate(t, _) => IsIdle(s, t)
    case LoadCounter(t) => t < |s.threads| && s.threads[t].Loading?
    case CasSucceeds(t) =>
      && t < |s.threads| && s.threads[t].Looping?
      && s.threads[t].want > 0 && s.threads[t].seen > 0
      && s.available == s.threads[t].seen
    case CasFails(t) =>
      && t < |s.threads| && s.threads[t].Looping?
      && s.threads[t].want > 0 && s.threads[t].seen > 0
    case FinishAllocate(t) =>
      && t < |s.threads| && s.threads[t].Looping?
      && (s.threads[t].want == 0 || s.threads[t].seen == 0)
    case TakeGuard(t, f) => IsIdle(s, t) && f < |s.factories| && s.factories[f] > 0
    case MoveFactory(t, f) => IsIdle(s, t) && f < |s.factories|
    case DestroyFactory(t, f) => IsIdle(s, t) && f < |s.factories| && s.factories[f] > 0
    case NewGuard(t) => IsIdle(s, t)
    case MoveGuard(t, dst, src) =>
      IsIdle(s, t) && dst < |s.guards| && src < |s.guards| && dst != src && !s.guards[dst]
    case ReleaseGuard(t, g) => IsIdle(s, t) && g < |s.guards| && s.guards[g]
    case FetchAdd(t) => t < |s.threads| && s.threads[t].Releasing?
    case AssertLoad(t) => t < |s.threads| && s.threads[t].Checking?
    case ResetUnused(t, _) => IsIdle(s, t) && Outstanding(s) == 0
  }

  /** `Reset(n)`, the two stores taken together. */
  function Reset(s: State, n: nat): State { s.(available := n, max := n) }

  function Apply(s: State, step: Step): State
    requires Enabled(s, step)
  {
    match step
    case BeginAllocate(t, n) => s.(threads := s.threads[t := Loading(n)])
    case LoadCounter(t) =>
      s.(threads := s.threads[t := Looping(s.threads[t].want, s.available, 0)])
    case CasSucceeds(t) =>
      // A successful exchange leaves the expected value as it was.
      var Looping(want, seen, got) := s.threads[t];
      var step := Min(seen, want);
      s.(available := seen - step, threads := s.threads[t := Looping(want - step, seen, got + step)])
    case CasFails(t) => s.(threads := s.threads[t := s.threads[t].(seen := s.available)])
    case FinishAllocate(t) =>
      s.(threads := s.threads[t := Idle], factories := s.factories + [s.threads[t].got])
    case TakeGuard(t, f) =>
      s.(factories := s.factories[f := s.factories[f] - 1], guards := s.guards + [true])
    case MoveFactory(t, f) => s.(factories := s.factories[f := 0] + [s.factories[f]])
    case DestroyFactory(t, f) =>
      s.(threads := s.threads[t := Releasing(s.factories[f])], factories := s.factories[f := 0])
    case NewGuard(t) => s.(guards := s.guards + [false])
    case MoveGuard(t, dst, src) => s.(guards := s.guards[dst := s.guards[src]][src := false])
    case ReleaseGuard(t, g) =>
      s.(threads := s.threads[t := Releasing(1)], guards := s.guards[g := false])
    case FetchAdd(t) =>
      s.(available := s.available + s.threads[t].count, threads := s.threads[t := Checking])
    case AssertLoad(t) => s.(threads := s.threads[t := Idle])
    case ResetUnused(t, n) => Reset(s, n)
  }

  /** `states` is what `steps` lead through: one state before each step and one
      after the last. */
  ghost predicate IsRun(states: seq<State>, steps: seq<Step>)
  {
    && |states| == |steps| + 1
    && forall k :: 0 <= k < |steps| ==>
         Enabled(states[k], steps[k]) && states[k + 1] == Apply(states[k], steps[k])
  }

  // ----- what each step does, told without the machine

  /** Every step is taken by one thread and leaves what all others are doing as it is. */
  lemma OthersUnaffected(states: seq<State>, steps: seq<Step>, k: nat, u: nat)
    requires IsRun(states, steps) && k < |steps| && u < |states[k].threads| && u != steps[k].t
    ensures u < |states[k + 1].threads| && states[k + 1].threads[u] == states[k].threads[u]
  {
  }

  /** The counter falls only by a successful exchange, by just what the thread takes,
      and never by more than it still wants or saw; it rises only by a release, by just
      what was held, or is set by a reset. */
  lemma CounterChanges(states: seq<State>, steps: seq<Step>, k: nat)
    requires IsRun(states, steps) && k < |steps|
    ensures
      var s, s', t := states[k], states[k + 1], steps[k].t;
      match steps[k]
      case CasSucceeds(_) =>
        && s.threads[t].Looping? && s'.threads[t].Looping? && s.available == s.threads[t].seen
        && s.threads[t].want > 0 && s.available > 0
        && s'.available + (s'.threads[t].got - s.threads[t].got) == s.available
        && s'.threads[t].got + s'.threads[t].want == s.threads[t].got + s.threads[t].want
        && (s'.threads[t].want == 0 || s'.available == 0) && s'.threads[t].seen == s.threads[t].seen
      case CasFails(_) =>
        && s.threads[t].Looping? && s.threads[t].want > 0 && s.threads[t].seen > 0 && s'.available == s.available
        && s'.threads[t] == Looping(s.threads[t].want, s.available, s.threads[t].got)
      case LoadCounter(_) =>
        && s.threads[t].Loading? && s'.available == s.available
        && s'.threads[t] == Looping(s.threads[t].want, s.available, 0)
      case FetchAdd(_) =>
        && s.threads[t].Releasing? && s'.available == s.available + s.threads[t].count && s'.threads[t].Checking?
      case ResetUnused(_, n) => s'.available == s'.max == n
      case _ => s'.available == s.available
  {
  }

  /** A guard taken from a factory is one more live guard and one reservation less;
      moving one makes the target live if the source was and the source not; releasing
      one ends it and brings back one reference; moving a factory leaves none behind,
      and destroying one brings back just what it had reserved. */
  lemma GuardAndFactorySteps(states: seq<State>, steps: seq<Step>, k: nat)
    requires IsRun(states, steps) && k < |steps|
    ensures
      var s, s' := states[k], states[k + 1];
      match steps[k]
      case TakeGuard(_, f) =>
        && s'.guards == s.guards + [true] && s.factories[f] > 0 && |s'.factories| == |s.factories|
        && forall i :: 0 <= i < |s.factories| ==> s'.factories[i] == s.factories[i] - if i == f then 1 else 0
      case NewGuard(_) => s'.guards == s.guards + [false] && s'.factories == s.factories
      case MoveGuard(_, dst, src) =>
        && s'.factories == s.factories && |s'.guards| == |s.guards| && !s'.guards[src]
        && s'.guards[dst] == s.guards[src]
        && forall i :: 0 <= i < |s.guards| && i != dst && i != src ==> s'.guards[i] == s.guards[i]
      case ReleaseGuard(t, g) =>
        && s.guards[g] && !s'.guards[g] && s'.threads[t] == Releasing(1) && s'.factories == s.factories
        && |s'.guards| == |s.guards| && forall i :: 0 <= i < |s.guards| && i != g ==> s'.guards[i] == s.guards[i]
      case MoveFactory(_, f) =>
        && s'.guards == s.guards && |s'.factories| == |s.factories| + 1
        && s'.factories[f] == 0 && s'.factories[|s.factories|] == s.factories[f]
        && forall i :: 0 <= i < |s.factories| && i != f ==> s'.factories[i] == s.factories[i]
      case DestroyFactory(t, f) =>
        && s'.guards == s.guards && s'.threads[t] == Releasing(s.factories[f]) && |s'.factories| == |s.factories|
        && s.factories[f] > 0 && s'.factories[f] == 0
        && forall i :: 0 <= i < |s.factories| && i != f ==> s'.factories[i] == s.factories[i]
      case FinishAllocate(t) =>
        && s.threads[t].Looping? && (s.threads[t].want == 0 || s.threads[t].seen == 0)
        && s'.factories == s.factories + [s.threads[t].got] && s'.guards == s.guards
      case _ => s'.guards == s.guards && s'.factories == s.factories
  {
  }

  // ----- conservation

  ghost predicate Balanced(s: State) { s.available + Outstanding(s) == s.max }

  lemma {:induction false} IdleThreadsHoldNothing(n: nat)
    ensures Total(seq(n, _ => Idle), InHand) == 0
  {
    TotalZero(seq(n, _ => Idle), InHand);
  }

  lemma MovingAGuardKeepsTheCount(guards: seq<bool>, dst: nat, src: nat)
    requires dst < |guards| && src < |guards| && dst != src && !guards[dst]
    ensures Total(guards[dst := guards[src]][src := false], Live) == Total(guards, Live)
  {
    TotalUpdate(guards, Live, dst, guards[src]);
    TotalUpdate(guards[dst := guards[src]], Live, src, false);
  }

  lemma MovingAFactoryKeepsTheCount(factories: seq<nat>, f: nat)
    requires f < |factories|
    ensures Total(factories[f := 0] + [factories[f]], Reserved) == Total(factories, Reserved)
  {
    TotalUpdate(factories, Reserved, f, 0);
    TotalAppend(factories[f := 0], Reserved, factories[f]);
  }

  /** No step but a reset changes the sum of the counter and what is outstanding. */
  lemma StepKeepsSum(s: State, step: Step)
    requires Enabled(s, step) && !step.ResetUnused?
    ensures Apply(s, step).available + Outstanding(Apply(s, step)) == s.available + Outstanding(s)
    ensures Apply(s, step).max == s.max
  {
    hide Total;
    var s' := Apply(s, step);
    if step.t < |s.threads| {
      TotalUpdate(s.threads, InHand, step.t, s'.threads[step.t]);
      assert s.threads[step.t := s.threads[step.t]] == s.threads;
    }
    match step
    case FinishAllocate(t) => TotalAppend(s.factories, Reserved, s.threads[t].got);
    case TakeGuard(t, f) =>
      TotalUpdate(s.factories, Reserved, f, s.factories[f] - 1);
      TotalAppend(s.guards, Live, true);
    case MoveFactory(t, f) => MovingAFactoryKeepsTheCount(s.factories, f);
    case DestroyFactory(t, f) => TotalUpdate(s.factories, Reserved, f, 0);
    case NewGuard(t) => TotalAppend(s.guards, Live, false);
    case MoveGuard(t, dst, src) => MovingAGuardKeepsTheCount(s.guards, dst, src);
    case ReleaseGuard(t, g) => TotalUpdate(s.guards, Live, g, false);
    case _ =>
  }

  lemma StepKeepsBalance(s: State, step: Step)
    requires Enabled(s, step) && Balanced(s)
    ensures Balanced(Apply(s, step))
  {
    hide Total;
    if !step.ResetUnused? {
      StepKeepsSum(s, step);
    }
  }

  /** In every interleaving the counter and the outstanding references add up to
      the maximum, at every point of the run. */
  lemma {:induction false} EveryRunIsBalanced(states: seq<State>, steps: seq<Step>, max: nat, k: nat)
    requires IsRun(states, steps) && states[0] == Init(max, |states[0].threads|)
    requires k < |states|
    ensures Balanced(states[k])
  {
    if k == 0 {
      IdleThreadsHoldNothing(|states[0].threads|);
    } else {
      EveryRunIsBalanced(states, steps, max, k - 1);
      StepKeepsBalance(states[k - 1], steps[k - 1]);
    }
  }

  /** The two consequences the code relies on: the exchanged value never falls
      below zero, and neither the addition nor the assertion behind a release
      ever sees the counter above the maximum. */
  lemma NoUnderflowAndAssertHolds(states: seq<State>, steps: seq<Step>, max: nat, k: nat)
    requires IsRun(states, steps) && states[0] == Init(max, |states[0].threads|)
    requires k < |steps|
    ensures
      var s := states[k];
      match steps[k]
      case CasSucceeds(t) => Min(s.threads[t].seen, s.threads[t].want) <= s.available
      case FetchAdd(t) => s.available + s.threads[t].count <= s.max
      case AssertLoad(t) => s.available <= s.max
      case _ => true
  {
    EveryRunIsBalanced(states, steps, max, k);
    if steps[k].FetchAdd? {
      TotalBounds(states[k].threads, InHand, steps[k].t);
    }
  }

  /** Once every thread is idle and every factory and guard is gone, nothing is missing. */
  lemma NothingIsLost(states: seq<State>, steps: seq<Step>, max: nat, k: nat)
    requires IsRun(states, steps) && states[0] == Init(max, |states[0].threads|)
    requires k < |states|
    requires forall t :: 0 <= t < |states[k].threads| ==> states[k].threads[t].Idle?
    requires forall f :: 0 <= f < |states[k].factories| ==> states[k].factories[f] == 0
    requires forall g :: 0 <= g < |states[k].guards| ==> !states[k].guards[g]
    ensures states[k].available == states[k].max
  {
    EveryRunIsBalanced(states, steps, max, k);
    TotalZero(states[k].threads, InHand);
    TotalZero(states[k].factories, Reserved);
    TotalZero(states[k].guards, Live);
  }

  // ----- what one call of Allocate grants

  /** Steps `i` to `j` are one complete call of `Allocate(n)` by thread `t`. */
  ghost predicate IsCall(steps: seq<Step>, i: nat, j: nat, t: nat, n: nat)
  {
    && i < j < |steps|
    && steps[i] == BeginAllocate(t, n)
    && steps[j] == FinishAllocate(t)
    && forall k :: i < k < j ==> steps[k] != FinishAllocate(t)
  }

  /** The counter was zero at some instant after the call began and up to now. */
  ghost predicate CounterWasZero(states: seq<State>, i: nat, k: nat)
    requires k < |states|
  {
    exists m :: i < m <= k && states[m].available == 0
  }

  /** What the retry loop knows at every point of the call: taken and wanted add
      up to the request, and an expected value of zero was read from a counter
      that was zero since the call began. */
  ghost predicate CallSoFar(states: seq<State>, i: nat, k: nat, t: nat, n: nat)
    requires k < |states|
  {
    && t < |states[k].threads|
    && match states[k].threads[t]
       case Loading(want) => want == n
       case Looping(want, seen, got) =>
         want + got == n && (seen == 0 ==> CounterWasZero(states, i, k))
       case _ => false
  }

  lemma CallAdvances(states: seq<State>, steps: seq<Step>, i: nat, k: nat, t: nat, n: nat)
    requires IsRun(states, steps) && i < k < |steps|
    requires CallSoFar(states, i, k, t, n)
    requires steps[k] != FinishAllocate(t)
    ensures CallSoFar(states, i, k + 1, t, n)
  {
    var before, after := states[k].threads[t], states[k + 1].threads[t];
    if after.Looping? && after.seen == 0 {
      if before.Looping? && before.seen == 0 {
        var m :| i < m <= k && states[m].available == 0;
      } else {
        // Only a load or a failed exchange writes the expected value, and
        // neither changes the counter it was read from.
        assert states[k + 1].available == 0;
      }
    }
  }

  lemma {:induction false} CallInProgress(states: seq<State>, steps: seq<Step>, i: nat, k: nat, t: nat, n: nat)
    requires IsRun(states, steps) && i < k <= |steps|
    requires steps[i] == BeginAllocate(t, n)
    requires forall m :: i < m < k ==> steps[m] != FinishAllocate(t)
    ensures CallSoFar(states, i, k, t, n)
    decreases k
  {
    if k > i + 1 {
      CallInProgress(states, steps, i, k - 1, t, n);
      CallAdvances(states, steps, i, k - 1, t, n);
    }
  }

  /** `Allocate(n)` grants at most `n`; and when it grants less, the shared
      counter was zero at some instant during that very call, whatever the other
      threads did meanwhile. */
  lemma AllocateGrant(states: seq<State>, steps: seq<Step>, i: nat, j: nat, t: nat, n: nat)
      returns (granted: nat)
    requires IsRun(states, steps) && IsCall(steps, i, j, t, n)
    ensures states[j + 1].factories == states[j].factories + [granted]
    ensures granted <= n
    ensures granted < n ==> exists m :: i < m <= j && states[m].available == 0
  {
    CallInProgress(states, steps, i, j, t, n);
    granted := states[j].threads[t].got;
  }

  // ----- Reset

  /** `to` can be reached from `from` without another reset. */
  ghost predicate Reaches(from: State, to: State)
  {
    exists states, steps :: IsRun(states, steps) && NoReset(steps) && states[0] == from && states[|steps|] == to
  }

  ghost predicate NoReset(steps: seq<Step>)
  {
    forall k :: 0 <= k < |steps| ==> !steps[k].ResetUnused?
  }

  lemma ReachesItself(s: State)
    ensures Reaches(s, s)
  {
    assert IsRun([s], []) && NoReset([]);
  }

  lemma ReachesNext(from: State, s: State, step: Step)
    requires Reaches(from, s) && Enabled(s, step) && !step.ResetUnused?
    ensures Reaches(from, Apply(s, step))
  {
    hide Enabled, Apply;
    var states, steps :| IsRun(states, steps) && NoReset(steps) && states[0] == from && states[|steps|] == s;
    var states', steps' := states + [Apply(s, step)], steps + [step];
    assert IsRun(states', steps') && NoReset(steps') && states'[0] == from && states'[|steps'|] == Apply(s, step);
  }

  /** Whoever uses the tracker after a reset in use works with as many references
      too many as were outstanding: in every run the counter and what is
      outstanding add up to the new maximum plus that number. */
  lemma {:induction false} ResetShiftsTheBooks(s: State, n: nat, states: seq<State>, steps: seq<Step>, k: nat)
    requires IsRun(states, steps) && NoReset(steps) && states[0] == Reset(s, n) && k < |states|
    ensures states[k].max == n && states[k].available + Outstanding(states[k]) == n + Outstanding(s)
  {
    hide Outstanding, Enabled, Apply;
    SameOutstanding(s, n);
    if k > 0 {
      ResetShiftsTheBooks(s, n, states, steps, k - 1);
      StepKeepsSum(states[k - 1], steps[k - 1]);
    }
  }

  lemma SameOutstanding(s: State, n: nat)
    ensures Outstanding(Reset(s, n)) == Outstanding(s)
  {
  }

  /** So once everything is returned the assertion of the last release holds only
      if nothing was outstanding at the reset; otherwise it sees the maximum
      exceeded by just what was. */
  lemma LastAssertAfterReset(s: State, n: nat, states: seq<State>, steps: seq<Step>, k: nat, t: nat)
    requires IsRun(states, steps) && NoReset(steps) && states[0] == Reset(s, n) && k < |steps|
    requires steps[k] == AssertLoad(t) && Outstanding(states[k]) == 0
    ensures states[k].available == states[k].max + Outstanding(s)
    ensures states[k].available <= states[k].max <==> Outstanding(s) == 0
  {
    ResetShiftsTheBooks(s, n, states, steps, k);
  }

  /** A thread is about to load a counter above the maximum for its assertion. */
  ghost predicate AssertFails(s: State)
  {
    exists t: nat :: Enabled(s, AssertLoad(t)) && s.available > s.max
  }

  /** How many steps a thread alone needs at most to be idle. */
  function StepsToIdle(available: nat, th: Thread): nat
  {
    match th
    case Idle => 0
    case Checking => 1
    case Releasing(_) => 2
    case Looping(want, seen, _) =>
      if want == 0 || seen == 0 then 1
      else if available == 0 then 2
      else if available == seen then 3 else 4
    case Loading(_) => 5
  }

  /** What a thread that nobody disturbs does next. */
  function OwnStep(available: nat, th: Thread, t: nat): Step
    requires !th.Idle?
  {
    match th
    case Loading(_) => LoadCounter(t)
    case Looping(want, seen, _) =>
      if want == 0 || seen == 0 then FinishAllocate(t)
      else if available == seen then CasSucceeds(t) else CasFails(t)
    case Releasing(_) => FetchAdd(t)
    case Checking => AssertLoad(t)
  }

  predicate Allocating(th: Thread) { th.Loading? || th.Looping? }

  lemma OwnStepLeadsOn(s: State, t: nat)
    requires t < |s.threads| && !s.threads[t].Idle?
    ensures
      var step := OwnStep(s.available, s.threads[t], t);
      && !step.ResetUnused? && Enabled(s, step)
      && var s' := Apply(s, step);
      && |s'.threads| == |s.threads| && s'.max == s.max && s'.guards == s.guards
      && StepsToIdle(s'.available, s'.threads[t]) < StepsToIdle(s.available, s.threads[t])
      && (if step.FinishAllocate? then
            Allocating(s.threads[t]) && s'.threads[t].Idle? && s'.available == s.available &&
            s'.factories == s.factories + [InHand(s.threads[t])]
          else
            s'.factories == s.factories
            && Allocating(s'.threads[t]) == Allocating(s.threads[t])
            && (Allocating(s.threads[t]) ==> s'.available <= s.available)
            && s'.available + InHand(s'.threads[t]) == s.available + InHand(s.threads[t]))
  {
  }

  /** A thread alone gets out of whatever it does: a release ends with the counter
      increased, an allocation with what it took in a new factory. */
  lemma GetsIdle(from: State, s: State, t: nat) returns (s': State)
    requires Reaches(from, s) && t < |s.threads|
    ensures Reaches(from, s') && IsIdle(s', t) && s'.max == s.max && s'.guards == s.guards
    ensures !Allocating(s.threads[t]) ==>
              s'.factories == s.factories && s'.available == s.available + InHand(s.threads[t])
    ensures Allocating(s.threads[t]) ==>
              && s'.available <= s.available
              && s'.factories == s.factories + [s.available + InHand(s.threads[t]) - s'.available]
    decreases StepsToIdle(s.available, s.threads[t])
  {
    hide Enabled, Apply, Reaches;
    if s.threads[t].Idle? {
      return s;
    }
    OwnStepLeadsOn(s, t);
    var step := OwnStep(s.available, s.threads[t], t);
    ReachesNext(from, s, step);
    s' := Apply(s, step);
    if !step.FinishAllocate? {
      s' := GetsIdle(from, s', t);
    }
  }

  lemma DestroyLeadsOn(s: State, t: nat, f: nat)
    requires IsIdle(s, t) && f < |s.factories| && s.factories[f] > 0
    ensures
      && Enabled(s, DestroyFactory(t, f))
      && Apply(s, DestroyFactory(t, f)) ==
           s.(threads := s.threads[t := Releasing(s.factories[f])], factories := s.factories[f := 0])
  {
  }

  /** If it had nothing in hand it can leave everything as it was. */
  lemma GetsIdleInPlace(from: State, s: State, t: nat) returns (s': State)
    requires Reaches(from, s) && t < |s.threads| && InHand(s.threads[t]) == 0
    ensures Reaches(from, s') && IsIdle(s', t) && s'.max == s.max && s'.guards == s.guards
    ensures s'.available == s.available && s.factories <= s'.factories
  {
    hide Enabled, Apply, Reaches;
    s' := GetsIdle(from, s, t);
    var last := |s.factories|;
    if Allocating(s.threads[t]) && s'.factories[last] > 0 {
      DestroyLeadsOn(s', t, last);
      ReachesNext(from, s', DestroyFactory(t, last));
      s' := GetsIdle(from, Apply(s', DestroyFactory(t, last)), t);
    }
  }

  ghost predicate CanFail(from: State) { exists s :: Reaches(from, s) && AssertFails(s) }

  lemma AddingFails(from: State, s: State, t: nat)
    requires Reaches(from, s) && t < |s.threads| && s.threads[t].Releasing? && s.available + s.threads[t].count > s.max
    ensures CanFail(from)
  {
    ReachesNext(from, s, FetchAdd(t));
    assert Enabled(Apply(s, FetchAdd(t)), AssertLoad(t));
  }

  lemma DestroyingFails(from: State, s: State, t: nat, f: nat)
    requires Reaches(from, s) && IsIdle(s, t) && f < |s.factories| && s.available + s.factories[f] > s.max
    requires s.factories[f] > 0
    ensures CanFail(from)
  {
    DestroyLeadsOn(s, t, f);
    ReachesNext(from, s, DestroyFactory(t, f));
    AddingFails(from, Apply(s, DestroyFactory(t, f)), t);
  }

  lemma ThreadInHandFails(from: State, s: State, t: nat)
    requires Reaches(from, s) && t < |s.threads| && InHand(s.threads[t]) > 0 && s.available == s.max
    ensures CanFail(from)
  {
    hide Enabled, Apply, Reaches;
    if s.threads[t].Releasing? {
      AddingFails(from, s, t);
    } else {
      var s' := GetsIdle(from, s, t);
      DestroyingFails(from, s', t, |s.factories|);
    }
  }

  lemma GuardFails(from: State, s: State, t: nat, g: nat)
    requires Reaches(from, s) && IsIdle(s, t) && g < |s.guards| && s.guards[g] && s.available == s.max
    ensures CanFail(from)
  {
    ReachesNext(from, s, ReleaseGuard(t, g));
    AddingFails(from, Apply(s, ReleaseGuard(t, g)), t);
  }

  lemma UsedFails(s: State)
    requires |s.threads| > 0 && s.available == s.max && Outstanding(s) > 0
    ensures CanFail(s)
  {
    hide Enabled, Apply, Reaches, CanFail, Total;
    ReachesItself(s);
    if Total(s.threads, InHand) > 0 {
      var t := TotalWitness(s.threads, InHand);
      ThreadInHandFails(s, s, t);
    } else {
      TotalZero(s.threads, InHand);
      var s' := GetsIdleInPlace(s, s, 0);
      if Total(s.factories, Reserved) > 0 {
        var f := TotalWitness(s.factories, Reserved);
        DestroyingFails(s, s', 0, f);
      } else {
        var g := TotalWitness(s.guards, Live);
        GuardFails(s, s', 0, g);
      }
    }
  }

  /** `Reset(n)` can make a later assertion fail if and only if a reference is
      outstanding, whatever state the threads are in and whatever `n` is. */
  lemma ResetIsSafeIffUnused(s: State, n: nat)
    requires |s.threads| > 0
    ensures !CanFail(Reset(s, n)) <==> Outstanding(s) == 0
  {
    hide Enabled, Apply, Reset, Outstanding;
    SameOutstanding(s, n);
    ResetStores(s, n);
    if Outstanding(s) > 0 {
      UsedFails(Reset(s, n));
    } else if CanFail(Reset(s, n)) {
      var s' :| Reaches(Reset(s, n), s') && AssertFails(s');
      var states, steps :|
        IsRun(states, steps) && NoReset(steps) && states[0] == Reset(s, n) && states[|steps|] == s';
      ResetShiftsTheBooks(s, n, states, steps, |steps|);
      assert false;
    }
  }

  lemma ResetStores(s: State, n: nat)
    ensures Reset(s, n).available == Reset(s, n).max == n && Reset(s, n).threads == s.threads
  {
  }

  /** A concrete failure: with one live guard a reset to the same maximum is
      followed by a release whose assertion load sees more than the maximum. */
  lemma ResetWhileUsedBreaksTheAssert(max: nat)
    requires max > 0
    ensures
      var used := Reset(State(max - 1, max, [Idle], [0], [true]), max);
      var steps := [ReleaseGuard(0, 0), FetchAdd(0), AssertLoad(0)];
      exists states: seq<State> ::
        && IsRun(states, steps) && states[0] == used
        && states[2].available == max + 1 > states[2].max
  {
    var used := Reset(State(max - 1, max, [Idle], [0], [true]), max);
    var steps := [ReleaseGuard(0, 0), FetchAdd(0), AssertLoad(0)];
    var s1 := State(max, max, [Releasing(1)], [0], [false]);
    var s2 := State(max + 1, max, [Checking], [0], [false]);
    var s3 := State(max + 1, max, [Idle], [0], [false]);
    assert IsRun([used, s1, s2, s3], steps);
  }
}
