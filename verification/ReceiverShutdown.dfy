/** Stopping the listening threads of a message receiver.

    `StartListening` submits one task per thread.  Task 0 registers a stop
    callback which posts the stop messages for all threads; every task checks its
    own stop token once and then blocks in the message loop until it takes a stop
    message.  Any task may start late, any token may be stopped at any time, and
    the callback posts its messages one by one while all of this goes on.
    Receiving ordinary messages and receive errors change nothing here and are
    not steps.

    The stop callback follows section 32.3.5 of ISO C++20: constructed after the
    request it runs inline; otherwise it runs on the requesting thread, which
    first makes the request and then calls the callback; and its destructor
    unregisters a callback that has not begun and waits for one that is running
    on another thread. */
module ReceiverShutdown {

  import opened Tally

  datatype Phase =
    | NotStarted
      /** Thread 0 only: the constructor of the callback is running it inline. */
    | Inline
      /** The stop callback is constructed, the token not yet checked. */
    | Armed
    | InLoop
      /** Left the loop by taking a stop message, or returned early. */
    | Leaving(byStop: bool)
    | Done(byStop: bool)

  datatype Listener = Listener(phase: Phase, stopped: bool)

  /** The thread that made the request and so runs the callback: one outside the
      receiver, or a listener inside a message handler. */
  datatype Runner = External | OnListener(j: nat)

  datatype Origin = InConstructor | Remote(runner: Runner)

  datatype Callback =
    | NotRegistered
    | Waiting
      /** The request is made, the requesting thread has not called the callback yet. */
    | Requested(runner: Runner)
      /** About to handle thread number `next`. */
    | Running(origin: Origin, next: nat)
    | Finished(origin: Origin)
      /** Unregistered after the request but before anyone called it. */
    | Dropped

  datatype State = State(
    listeners: seq<Listener>,
    callback: Callback,
    pending: nat)           // stop messages in the channel

  datatype Step =
    | RequestStop(i: nat, runner: Runner)
    | BeginCallback
    | Start(i: nat)
    | PostOne
    | CheckToken(i: nat)
    | TakeStop(i: nat)
    | Return(i: nat)

  function Init(n: nat): State
  {
    State(seq(n, _ => Listener(NotStarted, false)), NotRegistered, 0)
  }

  // ----- the machine

  /** Listener `i` is busy calling the callback from its message handler. */
  predicate Executes(s: State, i: nat)
  {
    match s.callback
    case Requested(runner) => runner == OnListener(i)
    case Running(origin, _) => origin == Remote(OnListener(i))
    case _ => false
  }

  predicate MayRequest(s: State, runner: Runner)
  {
    match runner
    case External => true
    case OnListener(j) => j < |s.listeners| && s.listeners[j].phase.InLoop? && !Executes(s, j)
  }

  predicate Enabled(s: State, step: Step)
  {
    match step
    case RequestStop(i, runner) =>
      i < |s.listeners| && !s.listeners[i].stopped && MayRequest(s, runner)
    case BeginCallback => s.callback.Requested?
    case Start(i) => i < |s.listeners| && s.listeners[i].phase.NotStarted?
    case PostOne => s.callback.Running?
    case CheckToken(i) => i < |s.listeners| && s.listeners[i].phase.Armed?
    case TakeStop(i) =>
      i < |s.listeners| && s.listeners[i].phase.InLoop? && s.pending > 0 && !Executes(s, i)
    case Return(i) =>
      && i < |s.listeners| && s.listeners[i].phase.Leaving?
      // The destructor of the callback waits while it runs on another thread.
      && (i == 0 ==> !s.callback.Running?)
  }

  function SetPhase(s: State, i: nat, phase: Phase): State
    requires i < |s.listeners|
  {
    s.(listeners := s.listeners[i := s.listeners[i].(phase := phase)])
  }

  /** The callback recognises thread 0 by its id and then posts nothing for it. */
  predicate SkipsFirst(origin: Origin) { origin == InConstructor || origin == Remote(OnListener(0)) }

  /** One turn of the posting loop, or its end. */
  function Post(s: State): State
    requires s.callback.Running?
  {
    var Running(origin, next) := s.callback;
    if next >= |s.listeners| then
      var s' := s.(callback := Finished(origin));
      if origin.InConstructor? && |s.listeners| > 0 then SetPhase(s', 0, Armed) else s'
    else
      s.(callback := Running(origin, next + 1),
         pending := if next == 0 && SkipsFirst(origin) then s.pending else s.pending + 1)
  }

  function Apply(s: State, step: Step): State
    requires Enabled(s, step)
  {
    match step
    case RequestStop(i, runner) =>
      var s' := s.(listeners := s.listeners[i := s.listeners[i].(stopped := true)]);
      // Only thread 0 registers its callback with its token.
      if i == 0 && s.callback.Waiting? then s'.(callback := Requested(runner)) else s'
    case BeginCallback => s.(callback := Running(Remote(s.callback.runner), 0))
    case Start(i) =>
      if i != 0 then SetPhase(s, i, Armed)
      else if s.listeners[0].stopped then SetPhase(s, 0, Inline).(callback := Running(InConstructor, 0))
      else SetPhase(s, 0, Armed).(callback := Waiting)
    case PostOne => Post(s)
    case CheckToken(i) =>
      SetPhase(s, i, if s.listeners[i].stopped then Leaving(false) else InLoop)
    case TakeStop(i) => SetPhase(s, i, Leaving(true)).(pending := s.pending - 1)
    case Return(i) =>
      var s' := SetPhase(s, i, Done(s.listeners[i].phase.byStop));
      // The destructor unregisters a callback that nobody began to call.
      if i == 0 && s.callback.Requested? then s'.(callback := Dropped) else s'
  }

  ghost predicate IsRun(states: seq<State>, steps: seq<Step>)
  {
    && |states| == |steps| + 1
    && forall k :: 0 <= k < |steps| ==>
         Enabled(states[k], steps[k]) && states[k + 1] == Apply(states[k], steps[k])
  }

  // ----- accounting

  predicate StopRequested(s: State) { |s.listeners| > 0 && s.listeners[0].stopped }

  /** The thread is in the message loop or can still enter it. */
  function Needs(l: Listener): nat
  {
    match l.phase
    case NotStarted => if l.stopped then 0 else 1
    case Armed => if l.stopped then 0 else 1
    case InLoop => 1
    case _ => 0
  }

  /** The thread was released by a stop message. */
  function Released(l: Listener): nat
  {
    match l.phase
    case Leaving(byStop) => if byStop then 1 else 0
    case Done(byStop) => if byStop then 1 else 0
    case _ => 0
  }

  /** The thread never needs a stop message: it returned early or is bound to. */
  function Early(l: Listener): nat { 1 - Needs(l) - Released(l) }

  function Rest(n: nat, next: nat, skips: bool): nat
  {
    if next >= n then 0 else if next == 0 && skips then n - 1 else n - next
  }

  /** Stop messages the callback has still to post. */
  function ToPost(s: State): nat
  {
    match s.callback
    case NotRegistered => if StopRequested(s) then Rest(|s.listeners|, 0, true) else 0
    case Requested(runner) => Rest(|s.listeners|, 0, SkipsFirst(Remote(runner)))
    case Running(origin, next) => Rest(|s.listeners|, next, SkipsFirst(origin))
    case _ => 0
  }

  /** Stop messages pending plus those still to be posted. */
  function Credit(s: State): nat { s.pending + ToPost(s) }

  /** Threads in the message loop or able to enter it. */
  function InLoopOrAble(s: State): nat { Total(s.listeners, Needs) }

  /** All the stop messages this shutdown produces from start to end. */
  function Budget(s: State): nat
  {
    var n := |s.listeners|;
    match s.callback
    case NotRegistered => if StopRequested(s) then Rest(n, 0, true) else 0
    case Waiting => 0
    case Requested(runner) => Rest(n, 0, SkipsFirst(Remote(runner)))
    case Running(origin, _) => Rest(n, 0, SkipsFirst(origin))
    case Finished(origin) => Rest(n, 0, SkipsFirst(origin))
    case Dropped => 0
  }

  /** What every reachable state satisfies: the life of the callback follows
      thread 0, and every stop message posted is pending or was taken. */
  ghost predicate Inv(s: State)
  {
    && Credit(s) + Total(s.listeners, Released) == Budget(s)
    && (forall i :: 0 < i < |s.listeners| ==> !s.listeners[i].phase.Inline?)
    && (|s.listeners| == 0 ==> s.callback.NotRegistered?)
    && (|s.listeners| > 0 ==> FollowsFirst(s.listeners[0], s.callback))
  }

  ghost predicate FollowsFirst(first: Listener, callback: Callback)
  {
    match callback
    case NotRegistered => first.phase.NotStarted?
    case Waiting => !first.stopped && (first.phase.Armed? || first.phase.InLoop?)
    case Requested(runner) =>
      && first.stopped
      && (first.phase.Armed? || first.phase.InLoop? || first.phase == Leaving(false))
      && (runner == OnListener(0) ==> first.phase.InLoop?)
    case Running(InConstructor, _) => first.stopped && first.phase.Inline?
    case Running(Remote(runner), _) =>
      && first.stopped
      && (first.phase.Armed? || first.phase.InLoop? || first.phase.Leaving?)
      && (runner == OnListener(0) ==> first.phase.InLoop?)
    case Finished(InConstructor) =>
      first.stopped && (first.phase.Armed? || first.phase == Leaving(false) || first.phase == Done(false))
    case Finished(Remote(_)) =>
      first.stopped && (first.phase.Armed? || first.phase.InLoop? || first.phase.Leaving? || first.phase.Done?)
    case Dropped => first.stopped && first.phase == Done(false)
  }

  lemma {:induction false} InitHolds(n: nat)
    ensures Inv(Init(n))
  {
    TotalZero(Init(n).listeners, Released);
  }

  lemma RequestKeepsInv(s: State, i: nat, runner: Runner)
    requires Inv(s) && Enabled(s, RequestStop(i, runner))
    ensures Inv(Apply(s, RequestStop(i, runner)))
  {
    TotalUpdate(s.listeners, Released, i, s.listeners[i].(stopped := true));
  }

  /** A listener changes its phase and nothing else, or takes one message. */
  lemma ListenerKeepsInv(s: State, i: nat, step: Step)
    requires Inv(s) && Enabled(s, step)
    requires step == Start(i) || step == CheckToken(i) || step == TakeStop(i) || step == Return(i)
    ensures Inv(Apply(s, step))
  {
    TotalUpdate(s.listeners, Released, i, Apply(s, step).listeners[i]);
  }

  lemma PostKeepsInv(s: State)
    requires Inv(s) && s.callback.Running?
    ensures Inv(Post(s))
  {
    if Post(s).listeners != s.listeners {
      TotalUpdate(s.listeners, Released, 0, Post(s).listeners[0]);
    }
  }

  lemma StepKeepsInv(s: State, step: Step)
    requires Inv(s) && Enabled(s, step)
    ensures Inv(Apply(s, step)) && |Apply(s, step).listeners| == |s.listeners|
  {
    match step
    case RequestStop(i, runner) => RequestKeepsInv(s, i, runner);
    case PostOne => PostKeepsInv(s);
    case BeginCallback =>
    case _ => ListenerKeepsInv(s, step.i, step);
  }

  lemma {:induction false} EveryRunKeepsInv(states: seq<State>, steps: seq<Step>, n: nat, k: nat)
    requires IsRun(states, steps) && states[0] == Init(n) && k < |states|
    ensures Inv(states[k]) && |states[k].listeners| == n
  {
    if k == 0 {
      InitHolds(n);
    } else {
      EveryRunKeepsInv(states, steps, n, k - 1);
      StepKeepsInv(states[k - 1], steps[k - 1]);
    }
  }

  /** Once the callback is through, there was one stop message for each thread, or
      for each but thread 0 if the callback ran on it. */
  lemma AllPosted(s: State)
    requires Inv(s) && s.callback.Finished?
    ensures s.pending + Total(s.listeners, Released)
              == if s.callback.origin == InConstructor || s.callback.origin == Remote(OnListener(0))
                 then |s.listeners| - 1 else |s.listeners|
  {
  }

  /** A thread whose token is stopped before it looks never enters the loop: from then
      on it is leaving or gone, without a stop message. */
  lemma {:induction false} StoppedTokenIsObeyed(states: seq<State>, steps: seq<Step>, n: nat, i: nat, k: nat, m: nat)
    requires IsRun(states, steps) && states[0] == Init(n) && k < |steps| && k < m < |states|
    requires steps[k] == CheckToken(i) && states[k].listeners[i].stopped
    ensures i < |states[m].listeners| && states[m].listeners[i].phase in {Leaving(false), Done(false)}
  {
    if m > k + 1 {
      StoppedTokenIsObeyed(states, steps, n, i, k, m - 1);
      EveryRunKeepsInv(states, steps, n, m - 1);
    }
  }

  /** Only a thread in the loop that is not itself calling the callback takes a stop
      message, which is then gone from the channel. */
  lemma StopIsTaken(states: seq<State>, steps: seq<Step>, i: nat, k: nat)
    requires IsRun(states, steps) && k < |steps| && steps[k] == TakeStop(i)
    ensures i < |states[k].listeners| == |states[k + 1].listeners|
    ensures states[k].listeners[i].phase.InLoop? && states[k + 1].listeners[i].phase == Leaving(true)
    ensures states[k + 1].pending == states[k].pending - 1
    ensures states[k].callback != Requested(OnListener(i))
    ensures states[k].callback.Running? ==> states[k].callback.origin != Remote(OnListener(i))
  {
  }

  // ----- safety

  lemma {:induction false} EveryThreadCountedOnce(listeners: seq<Listener>)
    ensures Total(listeners, Needs) + Total(listeners, Released) + Total(listeners, Early) == |listeners|
  {
    if |listeners| > 0 {
      EveryThreadCountedOnce(listeners[..|listeners| - 1]);
    }
  }

  /** Pending stops plus stops still to be posted are at least the number of
      threads in or able to enter the message loop. */
  predicate Covered(s: State) { Credit(s) >= InLoopOrAble(s) }

  /** Exactly when the stops cover the threads: the messages the shutdown
      produces and the threads that need none together reach all of them. */
  lemma CoveredExactly(s: State)
    requires Inv(s)
    ensures Covered(s) <==> Budget(s) + Total(s.listeners, Early) >= |s.listeners|
  {
    EveryThreadCountedOnce(s.listeners);
  }

  /** A stop requested from a message handler of thread 0 posts one message too
      few: all threads are released only if one of them returned early. */
  lemma RequestFromThreadZero(s: State)
    requires Inv(s) && |s.listeners| > 0
    requires s.callback.Finished? && s.callback.origin == Remote(OnListener(0))
    ensures Covered(s) <==> Total(s.listeners, Early) > 0
  {
    CoveredExactly(s);
  }

  /** What decides, at the moment thread 0's token is stopped, whether this will
      release every thread.  A request by a message handler of thread 0 posts one
      message too few, so some thread must have returned early.  A request between
      the construction of the callback and thread 0's look at its token may be
      seen by thread 0, which then unregisters the callback, so no other thread
      may need a stop.  Any other request is served. */
  predicate WillServe(s: State, runner: Runner)
    requires |s.listeners| > 0
  {
    if runner == OnListener(0) then Total(s.listeners, Early) > 0
    else if s.listeners[0].phase.Armed? then forall i :: 0 < i < |s.listeners| ==> Needs(s.listeners[i]) == 0
    else true
  }

  /** The same after the request, as the shutdown goes on. */
  ghost predicate Served(s: State)
  {
    && Inv(s) && StopRequested(s)
    && match s.callback
       case NotRegistered => true
       case Waiting => false
       case Requested(runner) =>
         if runner == OnListener(0) then Total(s.listeners, Early) > 0
         else s.listeners[0].phase.InLoop? || InLoopOrAble(s) == 0
       case Running(origin, _) => origin == Remote(OnListener(0)) ==> Total(s.listeners, Early) > 0
       case Finished(origin) => origin == Remote(OnListener(0)) ==> Total(s.listeners, Early) > 0
       case Dropped => InLoopOrAble(s) == 0
  }

  lemma RequestDecides(s: State, runner: Runner)
    requires Inv(s) && Enabled(s, RequestStop(0, runner))
    ensures Served(Apply(s, RequestStop(0, runner))) <==> WillServe(s, runner)
  {
    hide Total;
    var stopped := s.listeners[0].(stopped := true);
    RequestKeepsInv(s, 0, runner);
    TotalUpdate(s.listeners, Early, 0, stopped);
    var listeners := s.listeners[0 := stopped];
    assert Apply(s, RequestStop(0, runner)).listeners == listeners;
    TotalZero(listeners, Needs);
    assert forall i :: 0 < i < |listeners| ==> listeners[i] == s.listeners[i];
    if s.listeners[0].phase.Armed? && runner != OnListener(0) {
      assert WillServe(s, runner) <==> forall i :: 0 <= i < |listeners| ==> Needs(listeners[i]) == 0;
    }
  }

  /** Threads only stop needing a stop, and only become early, whoever moves. */
  lemma NeedsFallEarlyGrows(s: State, step: Step)
    requires Inv(s) && Enabled(s, step)
    ensures InLoopOrAble(Apply(s, step)) <= InLoopOrAble(s)
    ensures Total(Apply(s, step).listeners, Early) >= Total(s.listeners, Early)
    ensures !step.RequestStop? ==> Total(Apply(s, step).listeners, Early) == Total(s.listeners, Early)
  {
    hide Total;
    var s' := Apply(s, step);
    if !step.PostOne? && !step.BeginCallback? {
      TotalUpdate(s.listeners, Needs, step.i, s'.listeners[step.i]);
      TotalUpdate(s.listeners, Early, step.i, s'.listeners[step.i]);
    } else if |s.listeners| > 0 {
      TotalUpdate(s.listeners, Needs, 0, s'.listeners[0]);
      TotalUpdate(s.listeners, Early, 0, s'.listeners[0]);
      assert s.listeners[0 := s.listeners[0]] == s.listeners;
    }
  }

  lemma ServedStays(s: State, step: Step)
    requires Served(s) && Enabled(s, step)
    ensures Served(Apply(s, step))
  {
    hide Total;
    StepKeepsInv(s, step);
    NeedsFallEarlyGrows(s, step);
  }

  lemma ServedIsCovered(s: State)
    requires Served(s)
    ensures Covered(s)
  {
    CoveredExactly(s);
    TotalBounds(s.listeners, Early, 0);
    EveryThreadCountedOnce(s.listeners);
  }

  /** After a request that will be served, in every interleaving, pending stops
      plus stops still to be posted are at least the number of threads in or able
      to enter the message loop. */
  lemma {:induction false} StopsCoverThreads(states: seq<State>, steps: seq<Step>, n: nat, request: nat,
                                             runner: Runner, k: nat)
    requires IsRun(states, steps) && states[0] == Init(n) && request < k < |states|
    requires steps[request] == RequestStop(0, runner) && WillServe(states[request], runner)
    ensures Served(states[k]) && Credit(states[k]) >= InLoopOrAble(states[k])
    decreases k
  {
    hide Inv, Enabled, Apply, Served, WillServe;
    if k == request + 1 {
      EveryRunKeepsInv(states, steps, n, request);
      RequestDecides(states[request], runner);
    } else {
      StopsCoverThreads(states, steps, n, request, runner, k - 1);
      ServedStays(states[k - 1], steps[k - 1]);
    }
    ServedIsCovered(states[k]);
  }

  /** No thread takes a stop, and so none leaves its loop, before thread 0's
      token was stopped. */
  lemma NoThreadLeavesEarly(states: seq<State>, steps: seq<Step>, n: nat, k: nat, i: nat)
    requires IsRun(states, steps) && states[0] == Init(n) && k < |steps|
    requires steps[k] == TakeStop(i)
    ensures StopRequested(states[k])
  {
    EveryRunKeepsInv(states, steps, n, k);
  }

  // ----- progress

  predicate AllDone(s: State) { forall i :: 0 <= i < |s.listeners| ==> s.listeners[i].phase.Done? }

  function Rank(l: Listener): nat
  {
    (if l.stopped then 0 else 1) +
    match l.phase
    case NotStarted => 5
    case Inline => 4
    case Armed => 3
    case InLoop => 2
    case Leaving(_) => 1
    case Done(_) => 0
  }

  function CallbackRank(c: Callback, n: nat): nat
  {
    match c
    case NotRegistered => n + 4
    case Waiting => n + 3
    case Requested(_) => n + 2
    case Running(_, next) => if next > n then 1 else n + 1 - next
    case Finished(_) => 0
    case Dropped => 0
  }

  /** An upper bound on the steps still to come. */
  function Measure(s: State): nat
  {
    Total(s.listeners, Rank) + CallbackRank(s.callback, |s.listeners|)
  }

  lemma StepDecreasesMeasure(s: State, step: Step)
    requires Inv(s) && Enabled(s, step)
    ensures Measure(Apply(s, step)) < Measure(s)
  {
    hide Total;
    var s' := Apply(s, step);
    match step
    case RequestStop(i, _) => TotalUpdate(s.listeners, Rank, i, s'.listeners[i]);
    case Start(i) => TotalUpdate(s.listeners, Rank, i, s'.listeners[i]);
    case CheckToken(i) => TotalUpdate(s.listeners, Rank, i, s'.listeners[i]);
    case TakeStop(i) => TotalUpdate(s.listeners, Rank, i, s'.listeners[i]);
    case Return(i) => TotalUpdate(s.listeners, Rank, i, s'.listeners[i]);
    case PostOne =>
      if |s.listeners| > 0 {
        TotalUpdate(s.listeners, Rank, 0, s'.listeners[0]);
        assert s.listeners[0 := s.listeners[0]] == s.listeners;
      }
    case BeginCallback =>
  }

  lemma {:induction false} RunsAreBounded(states: seq<State>, steps: seq<Step>, n: nat, k: nat)
    requires IsRun(states, steps) && states[0] == Init(n) && k < |states|
    ensures k + Measure(states[k]) <= Measure(Init(n))
  {
    if k > 0 {
      RunsAreBounded(states, steps, n, k - 1);
      EveryRunKeepsInv(states, steps, n, k - 1);
      StepDecreasesMeasure(states[k - 1], steps[k - 1]);
    }
  }

  /** Some thread or the callback can always move while a listener is left. */
  lemma SomeStepIsEnabled(s: State) returns (step: Step)
    requires Inv(s) && StopRequested(s) && !AllDone(s)
    requires Credit(s) >= InLoopOrAble(s)
    ensures !step.RequestStop? && Enabled(s, step)
  {
    var i :| 0 <= i < |s.listeners| && !s.listeners[i].phase.Done?;
    match s.listeners[i].phase
    case NotStarted => step := Start(i);
    case Inline => step := PostOne;
    case Armed => step := CheckToken(i);
    case Leaving(_) => step := if s.callback.Running? then PostOne else Return(i);
    case InLoop =>
      TotalBounds(s.listeners, Needs, i);
      step := if s.callback.NotRegistered? then Start(0)
              else if s.callback.Requested? then BeginCallback
              else if s.callback.Running? then PostOne
              else TakeStop(i);
  }

  /** Nothing can happen any more but further stop requests. */
  ghost predicate Stuck(s: State) { forall step :: Enabled(s, step) ==> step.RequestStop? }

  /** Once nothing can happen any more every thread has returned exactly if the
      stops cover the threads. */
  lemma AllDoneIffCovered(s: State)
    requires Inv(s) && StopRequested(s) && Stuck(s)
    ensures AllDone(s) <==> Credit(s) >= InLoopOrAble(s)
  {
    if AllDone(s) {
      TotalZero(s.listeners, Needs);
    } else if Covered(s) {
      var step := SomeStepIsEnabled(s);
    }
  }

  /** No listener is stranded.  Every run is finite, and a run with a request that
      will be served and that can go no further has brought every listening thread
      back. */
  lemma EveryListenerReturns(states: seq<State>, steps: seq<Step>, n: nat, request: nat, runner: Runner)
    requires IsRun(states, steps) && states[0] == Init(n) && request < |steps|
    requires steps[request] == RequestStop(0, runner) && WillServe(states[request], runner)
    ensures |steps| <= Measure(Init(n))
    ensures Stuck(states[|steps|]) ==> AllDone(states[|steps|])
  {
    RunsAreBounded(states, steps, n, |steps|);
    StopsCoverThreads(states, steps, n, request, runner, |steps|);
    if Stuck(states[|steps|]) {
      AllDoneIffCovered(states[|steps|]);
    }
  }

  // ----- a request that will not be served can strand a thread

  /** `to` can be reached from `from`. */
  ghost predicate Reaches(from: State, to: State)
  {
    exists states, steps :: IsRun(states, steps) && states[0] == from && states[|steps|] == to
  }

  lemma ReachesItself(s: State)
    ensures Reaches(s, s)
  {
    assert IsRun([s], []);
  }

  lemma ReachesNext(from: State, s: State, step: Step)
    requires Reaches(from, s) && Enabled(s, step)
    ensures Reaches(from, Apply(s, step))
  {
    hide Enabled, Apply;
    var states, steps :| IsRun(states, steps) && states[0] == from && states[|steps|] == s;
    Extend(states, steps, step);
    assert (steps + [step])[..|steps|] == steps;
    assert (states + [Apply(s, step)])[|steps + [step]|] == Apply(s, step);
  }

  lemma ServedForGood(from: State, s: State)
    requires Served(from) && Reaches(from, s)
    ensures Served(s)
  {
    var states, steps :| IsRun(states, steps) && states[0] == from && states[|steps|] == s;
    ServedAlong(states, steps, |steps|);
  }

  lemma {:induction false} ServedAlong(states: seq<State>, steps: seq<Step>, k: nat)
    requires IsRun(states, steps) && Served(states[0]) && k < |states|
    ensures Served(states[k])
  {
    hide Served, Enabled, Apply;
    if k > 0 {
      ServedAlong(states, steps, k - 1);
      ServedStays(states[k - 1], steps[k - 1]);
    }
  }

  /** Without a further request the threads stay uncovered. */
  lemma UncoveredStays(s: State, step: Step)
    requires Inv(s) && StopRequested(s) && !Covered(s) && Enabled(s, step) && !step.RequestStop?
    ensures Inv(Apply(s, step)) && StopRequested(Apply(s, step)) && !Covered(Apply(s, step))
  {
    hide Total;
    StepKeepsInv(s, step);
    NeedsFallEarlyGrows(s, step);
    CoveredExactly(s);
    CoveredExactly(Apply(s, step));
  }

  lemma RunsIntoStuck(from: State, s: State) returns (s': State)
    requires Reaches(from, s) && Inv(s) && StopRequested(s) && !Covered(s)
    ensures Reaches(from, s') && Stuck(s') && !AllDone(s')
    decreases Measure(s)
  {
    hide Inv, Enabled, Apply, Covered, Reaches, Measure, Needs;
    if Stuck(s) {
      StuckUncovered(s);
      s' := s;
    } else {
      var step :| Enabled(s, step) && !step.RequestStop?;
      UncoveredStays(s, step);
      StepDecreasesMeasure(s, step);
      ReachesNext(from, s, step);
      s' := RunsIntoStuck(from, Apply(s, step));
    }
  }

  lemma StuckUncovered(s: State)
    requires Inv(s) && StopRequested(s) && !Covered(s) && Stuck(s)
    ensures !AllDone(s)
  {
    AllDoneIffCovered(s);
  }

  lemma UnservedGetsUncovered(from: State) returns (s: State)
    requires Inv(from) && StopRequested(from) && !Served(from)
    ensures Reaches(from, s) && Inv(s) && StopRequested(s) && !Covered(s)
  {
    hide Total, Reaches;
    ReachesItself(from);
    CoveredExactly(from);
    s := from;
    if s.callback.Requested? && s.callback.runner != OnListener(0) {
      var needy := TotalWitness(s.listeners, Needs);
      if s.listeners[0].phase.Armed? {
        s := AfterStep(from, s, CheckToken(0));
      }
      assert s.listeners[needy] == from.listeners[needy];
      s := ThreadZeroDropsTheCallback(from, s, needy);
    }
  }

  lemma ThreadZeroDropsTheCallback(from: State, s: State, needy: nat) returns (s': State)
    requires Reaches(from, s) && Inv(s) && s.callback.Requested? && s.listeners[0].phase.Leaving?
    requires 0 < needy < |s.listeners| && Needs(s.listeners[needy]) > 0
    ensures Reaches(from, s') && Inv(s') && StopRequested(s') && !Covered(s')
  {
    hide Total, Reaches;
    s' := AfterStep(from, s, Return(0));
    TotalBounds(s'.listeners, Needs, needy);
  }

  lemma AfterStep(from: State, s: State, step: Step) returns (s': State)
    requires Reaches(from, s) && Inv(s) && Enabled(s, step)
    ensures s' == Apply(s, step) && Reaches(from, s') && Inv(s')
  {
    ReachesNext(from, s, step);
    StepKeepsInv(s, step);
    s' := Apply(s, step);
  }

  /** The exact condition, known when the request is made: every continuation
      keeps the threads covered, and every continuation that can go no further has
      brought all of them back, if and only if the request will be served. */
  lemma ServedIff(s: State, runner: Runner)
    requires Inv(s) && Enabled(s, RequestStop(0, runner))
    ensures
      var after := Apply(s, RequestStop(0, runner));
      && (WillServe(s, runner) <==> forall s' :: Reaches(after, s') ==> Covered(s'))
      && (WillServe(s, runner) <==> forall s' :: Reaches(after, s') && Stuck(s') ==> AllDone(s'))
  {
    var after := Apply(s, RequestStop(0, runner));
    RequestDecides(s, runner);
    RequestKeepsInv(s, 0, runner);
    if WillServe(s, runner) {
      forall s' | Reaches(after, s') ensures Covered(s') && (Stuck(s') ==> AllDone(s')) {
        ServedReturns(after, s');
      }
    } else {
      assert StopRequested(after);
      var uncovered := UnservedGetsUncovered(after);
      var stranded := RunsIntoStuck(after, uncovered);
    }
  }

  lemma ServedReturns(from: State, s: State)
    requires Served(from) && Reaches(from, s)
    ensures Covered(s) && (Stuck(s) ==> AllDone(s))
  {
    ServedForGood(from, s);
    ServedIsCovered(s);
    if Stuck(s) {
      AllDoneIffCovered(s);
    }
  }

  // ----- the two ways to strand a thread, step by step

  lemma Extend(states: seq<State>, steps: seq<Step>, step: Step)
    requires IsRun(states, steps) && Enabled(states[|steps|], step)
    ensures IsRun(states + [Apply(states[|steps|], step)], steps + [step])
  {
  }

  /** A single listener, the stop requested inside its own message handler: the
      callback posts nothing and the listener waits for ever. */
  lemma ThreadZeroCanStrandItself() returns (states: seq<State>, steps: seq<Step>)
    ensures IsRun(states, steps) && states[0] == Init(1)
    ensures StopRequested(states[|steps|]) && Stuck(states[|steps|]) && !AllDone(states[|steps|])
  {
    states, steps := [Init(1)], [];
    var script := [Start(0), CheckToken(0), RequestStop(0, OnListener(0)), BeginCallback, PostOne, PostOne];
    var me := Remote(OnListener(0));
    var z := Listener(InLoop, true);
    var expected := [
      Init(1),
      State([Listener(Armed, false)], Waiting, 0), State([Listener(InLoop, false)], Waiting, 0),
      State([z], Requested(OnListener(0)), 0), State([z], Running(me, 0), 0), State([z], Running(me, 1), 0),
      State([z], Finished(me), 0)];
    for k := 0 to |script|
      invariant IsRun(states, steps) && |steps| == k
      invariant states[0] == Init(1) && states[k] == expected[k]
    {
      Extend(states, steps, script[k]);
      states, steps := states + [Apply(states[k], script[k])], steps + [script[k]];
    }
    assert !states[|steps|].listeners[0].phase.Done?;
  }

  /** Two listeners, the stop requested from outside just before thread 0 checks
      its token: thread 0 sees the request, returns and unregisters the callback
      that the requesting thread has not called yet. */
  lemma ADroppedCallbackCanStrandAThread() returns (states: seq<State>, steps: seq<Step>)
    ensures IsRun(states, steps) && states[0] == Init(2)
    ensures StopRequested(states[|steps|]) && Stuck(states[|steps|]) && !AllDone(states[|steps|])
  {
    states, steps := [Init(2)], [];
    var script := [Start(0), Start(1), CheckToken(1), RequestStop(0, External), CheckToken(0), Return(0)];
    var l := Listener(InLoop, false);
    var a := Listener(Armed, false);
    var expected := [
      Init(2),
      State([a, Listener(NotStarted, false)], Waiting, 0), State([a, a], Waiting, 0), State([a, l], Waiting, 0),
      State([Listener(Armed, true), l], Requested(External), 0),
      State([Listener(Leaving(false), true), l], Requested(External), 0),
      State([Listener(Done(false), true), l], Dropped, 0)];
    for k := 0 to |script|
      invariant IsRun(states, steps) && |steps| == k
      invariant states[0] == Init(2) && states[k] == expected[k]
    {
      Extend(states, steps, script[k]);
      states, steps := states + [Apply(states[k], script[k])], steps + [script[k]];
    }
    assert !states[|steps|].listeners[1].phase.Done?;
  }
}
