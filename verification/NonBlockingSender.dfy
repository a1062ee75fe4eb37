/** The non-blocking sender: a bounded queue filled by any number of producers
    under a lock and emptied by a drain task that looks at the front element
    without the lock and takes the lock only to remove it. */
module NonBlockingSender {

  /** Where a drain task is in `SendQueueElements`. */
  datatype Phase =
    | Submitted
      /** About to look at its stop token. */
    | Checking
      /** About to hand the front element to the wrapped sender. */
    | Sending
      /** The wrapped sender returned, the element is not yet removed. */
    | Popping
      /** Left the loop; it never touches the queue again. */
    | Ended

  datatype Task = Task(phase: Phase, stop: bool)

  datatype State<M> = State(
    queue: seq<M>,
    capacity: nat,
    shutdown: bool,         // the executor was asked to shut down
    tasks: seq<Task>,       // every drain task ever submitted; the last one is the stored task result
    accepted: seq<M>,       // messages for which Send returned success, in order
    handed: seq<M>)         // messages passed to the wrapped sender, in order

  datatype Step<M> =
    | Send(m: M)
    | Shutdown
    | RequestStop(i: nat)
    | StartTask(i: nat)
    | CheckStop(i: nat)
    | HandOver(i: nat)
    | Pop(i: nat)

  function Init<M>(capacity: nat): State<M> { State([], capacity, false, [], [], []) }

  predicate InPhase<M>(s: State<M>, i: nat, phase: Phase)
  {
    i < |s.tasks| && s.tasks[i].phase == phase
  }

  predicate Enabled<M>(s: State<M>, step: Step<M>)
  {
    match step
    case Send(_) => true
    case Shutdown => true
    case RequestStop(i) => i < |s.tasks|
    case StartTask(i) => InPhase(s, i, Submitted)
    case CheckStop(i) => InPhase(s, i, Checking)
    case HandOver(i) => InPhase(s, i, Sending)
    case Pop(i) => InPhase(s, i, Popping)
  }

  /** Whether `SendInternal` takes the message; otherwise it returns EAGAIN. */
  predicate Accepts<M>(s: State<M>) { |s.queue| < s.capacity && !s.shutdown }

  function SetPhase<M>(s: State<M>, i: nat, phase: Phase): State<M>
    requires i < |s.tasks|
  {
    s.(tasks := s.tasks[i := s.tasks[i].(phase := phase)])
  }

  /** A step that reads or removes the front element needs one to be there. */
  predicate FrontIsThere<M>(s: State<M>, step: Step<M>)
  {
    step.HandOver? || step.Pop? ==> s.queue != []
  }

  function Apply<M>(s: State<M>, step: Step<M>): State<M>
    requires Enabled(s, step) && FrontIsThere(s, step)
  {
    match step
    case Send(m) =>
      if !Accepts(s) then s
      else
        var s' := s.(queue := s.queue + [m], accepted := s.accepted + [m]);
        if |s'.queue| == 1 then s'.(tasks := s.tasks + [Task(Submitted, false)]) else s'
    case Shutdown => s.(shutdown := true)
    case RequestStop(i) => s.(tasks := s.tasks[i := s.tasks[i].(stop := true)])
    case StartTask(i) => SetPhase(s, i, Checking)
    case CheckStop(i) => SetPhase(s, i, if s.tasks[i].stop then Ended else Sending)
    case HandOver(i) => SetPhase(s, i, Popping).(handed := s.handed + [s.queue[0]])
    case Pop(i) =>
      var rest := s.queue[1..];
      SetPhase(s, i, if rest == [] then Ended else Checking).(queue := rest)
  }

  ghost predicate IsRun<M>(states: seq<State<M>>, steps: seq<Step<M>>)
  {
    && |states| == |steps| + 1
    && forall k :: 0 <= k < |steps| ==>
         && Enabled(states[k], steps[k])
         && (FrontIsThere(states[k], steps[k]) ==> states[k + 1] == Apply(states[k], steps[k]))
  }

  // ----- what every run keeps

  /** The task may still read or change the queue. */
  predicate Active(t: Task) { !t.phase.Ended? }

  predicate LastIs<M>(s: State<M>, phase: Phase) { |s.tasks| > 0 && s.tasks[|s.tasks| - 1].phase == phase }

  predicate LastIsActive<M>(s: State<M>) { |s.tasks| > 0 && Active(s.tasks[|s.tasks| - 1]) }

  /** A drain task gave up on a stop request. */
  predicate Abandoned<M>(s: State<M>)
  {
    |s.tasks| > 0 && s.tasks[|s.tasks| - 1] == Task(Ended, true) && s.queue != []
  }

  /** The queued messages the wrapped sender has not been given yet. */
  function Unsent<M>(s: State<M>): seq<M>
  {
    if LastIs(s, Popping) && s.queue != [] then s.queue[1..] else s.queue
  }

  ghost predicate Inv<M>(s: State<M>)
  {
    && |s.queue| <= s.capacity
    // Only the task submitted last may touch the queue.
    && (forall i :: 0 <= i < |s.tasks| - 1 ==> s.tasks[i].phase.Ended?)
    && (LastIsActive(s) ==> s.queue != [])
    && (s.queue != [] ==> LastIsActive(s) || Abandoned(s))
    && s.handed + Unsent(s) == s.accepted
  }

  lemma StepKeepsInv<M>(s: State<M>, step: Step<M>)
    requires Inv(s) && Enabled(s, step)
    ensures FrontIsThere(s, step)
    ensures Inv(Apply(s, step))
  {
    match step
    case Send(m) =>
      if Accepts(s) {
        if LastIs(s, Popping) && s.queue != [] {
          assert (s.queue + [m])[1..] == s.queue[1..] + [m];
        }
        assert s.handed + (Unsent(s) + [m]) == (s.handed + Unsent(s)) + [m];
      }
    case HandOver(i) =>
      assert i == |s.tasks| - 1;
      assert s.handed + s.queue == (s.handed + [s.queue[0]]) + s.queue[1..];
    case Pop(i) => assert i == |s.tasks| - 1;
    case _ =>
  }

  lemma {:induction false} EveryRunKeepsInv<M>(states: seq<State<M>>, steps: seq<Step<M>>, capacity: nat, k: nat)
    requires IsRun(states, steps) && states[0] == Init(capacity) && k < |states|
    ensures Inv(states[k])
    ensures k < |steps| ==> FrontIsThere(states[k], steps[k])
  {
    if k > 0 {
      EveryRunKeepsInv(states, steps, capacity, k - 1);
      StepKeepsInv(states[k - 1], steps[k - 1]);
    }
    if k < |steps| {
      StepKeepsInv(states[k], steps[k]);
    }
  }

  /** Exactly once and first in, first out, whatever the interleaving and whether
      or not a stop was requested: what the wrapped sender was given, followed by
      what is still queued for it, is what was accepted. */
  lemma HandedThenQueuedIsAccepted<M>(states: seq<State<M>>, steps: seq<Step<M>>, capacity: nat, k: nat)
    requires IsRun(states, steps) && states[0] == Init(capacity) && k < |states|
    ensures states[k].handed + Unsent(states[k]) == states[k].accepted
    ensures states[k].handed <= states[k].accepted
    ensures |states[k].queue| <= capacity
  {
    EveryRunKeepsInv(states, steps, capacity, k);
    CapacityIsFixed(states, steps, capacity, k);
  }

  lemma {:induction false} CapacityIsFixed<M>(states: seq<State<M>>, steps: seq<Step<M>>, capacity: nat, k: nat)
    requires IsRun(states, steps) && states[0] == Init(capacity) && k < |states|
    ensures states[k].capacity == capacity
  {
    if k > 0 {
      CapacityIsFixed(states, steps, capacity, k - 1);
      EveryRunKeepsInv(states, steps, capacity, k - 1);
    }
  }

  /** Without a stop request the queue is non-empty exactly when one drain task,
      the one whose result is stored, may still touch it; no other ever does. */
  lemma QueueAndTaskAgree<M>(states: seq<State<M>>, steps: seq<Step<M>>, capacity: nat, k: nat)
    requires IsRun(states, steps) && states[0] == Init(capacity) && k < |states|
    ensures forall i :: 0 <= i < |states[k].tasks| && Active(states[k].tasks[i]) ==> i == |states[k].tasks| - 1
    ensures LastIsActive(states[k]) ==> states[k].queue != []
    ensures (forall i :: 0 <= i < |states[k].tasks| ==> !states[k].tasks[i].stop)
            ==> (states[k].queue != [] <==> LastIsActive(states[k]))
  {
    EveryRunKeepsInv(states, steps, capacity, k);
  }

  lemma AbandonedStep<M>(s: State<M>, step: Step<M>)
    requires Inv(s) && Enabled(s, step) && FrontIsThere(s, step) && Abandoned(s)
    ensures Abandoned(Apply(s, step))
    ensures Apply(s, step).handed == s.handed && s.queue <= Apply(s, step).queue
  {
  }

  lemma AbandonedKeepsTheRest<M>(s: State<M>)
    requires Inv(s) && Abandoned(s)
    ensures s.handed + s.queue == s.accepted
  {
  }

  /** A drain task that obeys a stop request leaves the rest queued in order, and
      no later message is ever handed over. */
  lemma {:induction false} AbandonedForGood<M>(states: seq<State<M>>, steps: seq<Step<M>>, capacity: nat, k: nat,
                                               j: nat)
    requires IsRun(states, steps) && states[0] == Init(capacity) && k <= j < |states|
    requires Abandoned(states[k])
    ensures Abandoned(states[j])
    ensures states[j].handed == states[k].handed
    ensures states[k].queue <= states[j].queue
    ensures states[j].handed + states[j].queue == states[j].accepted
    decreases j
  {
    hide Inv, Enabled, Apply, Abandoned, FrontIsThere;
    EveryRunKeepsInv(states, steps, capacity, j);
    if j > k {
      AbandonedForGood(states, steps, capacity, k, j - 1);
      EveryRunKeepsInv(states, steps, capacity, j - 1);
      AbandonedStep(states[j - 1], steps[j - 1]);
    }
    AbandonedKeepsTheRest(states[j]);
  }

  predicate AllEnded<M>(s: State<M>) { forall i :: 0 <= i < |s.tasks| ==> s.tasks[i].phase.Ended? }

  /** The step submits a new drain task: a message is accepted into an empty queue. */
  predicate Submits<M>(s: State<M>, step: Step<M>) { step.Send? && Accepts(s) && s.queue == [] }

  predicate IsTaskStep<M>(step: Step<M>) { step.StartTask? || step.CheckStop? || step.HandOver? || step.Pop? }

  // ----- what each step of a run does, told without the machine

  /** A message is accepted exactly if the queue is shorter than its capacity and no
      shutdown was asked for before; then it goes to the end of the queue, and a new
      drain task is submitted exactly if the queue was empty.  No other step accepts
      anything. */
  lemma SendInRun<M>(states: seq<State<M>>, steps: seq<Step<M>>, capacity: nat, k: nat)
    requires IsRun(states, steps) && states[0] == Init(capacity) && k < |steps|
    ensures
      var s, s' := states[k], states[k + 1];
      if steps[k].Send? && |s.queue| < capacity && (forall j :: 0 <= j < k ==> !steps[j].Shutdown?) then
        && s'.accepted == s.accepted + [steps[k].m] && s'.queue == s.queue + [steps[k].m] && s'.handed == s.handed
        && s'.tasks == s.tasks + if s.queue == [] then [Task(Submitted, false)] else []
      else
        s'.accepted == s.accepted && (steps[k].Send? ==> s' == s)
  {
    EveryRunKeepsInv(states, steps, capacity, k);
    CapacityIsFixed(states, steps, capacity, k);
    ShutdownInRun(states, steps, capacity, k);
  }

  lemma {:induction false} ShutdownInRun<M>(states: seq<State<M>>, steps: seq<Step<M>>, capacity: nat, k: nat)
    requires IsRun(states, steps) && states[0] == Init(capacity) && k < |states|
    ensures states[k].shutdown <==> exists j :: 0 <= j < k && steps[j].Shutdown?
  {
    if k > 0 {
      ShutdownInRun(states, steps, capacity, k - 1);
      EveryRunKeepsInv(states, steps, capacity, k - 1);
      assert steps[k - 1].Shutdown? ==> exists j :: 0 <= j < k && steps[j].Shutdown?;
    }
  }

  /** A token is stopped exactly if that was requested. */
  lemma {:induction false} StopInRun<M>(states: seq<State<M>>, steps: seq<Step<M>>, capacity: nat, k: nat, i: nat)
    requires IsRun(states, steps) && states[0] == Init(capacity) && k < |states| && i < |states[k].tasks|
    ensures states[k].tasks[i].stop <==> exists j :: 0 <= j < k && steps[j] == RequestStop(i)
  {
    if k > 0 {
      EveryRunKeepsInv(states, steps, capacity, k - 1);
      if i < |states[k - 1].tasks| {
        StopInRun(states, steps, capacity, k - 1, i);
        assert steps[k - 1] == RequestStop(i) ==> exists j :: 0 <= j < k && steps[j] == RequestStop(i);
      } else {
        NotYetSubmitted(states, steps, capacity, k - 1, i);
      }
    }
  }

  lemma {:induction false} NotYetSubmitted<M>(states: seq<State<M>>, steps: seq<Step<M>>, capacity: nat, k: nat,
                                              i: nat)
    requires IsRun(states, steps) && states[0] == Init(capacity) && k < |states| && i >= |states[k].tasks|
    ensures forall j :: 0 <= j < k ==> steps[j] != RequestStop(i)
  {
    if k > 0 {
      EveryRunKeepsInv(states, steps, capacity, k - 1);
      NotYetSubmitted(states, steps, capacity, k - 1, i);
    }
  }

  /** A task that looks at a stopped token ends there and then, and hands over and
      removes nothing; one whose token is not stopped goes on to hand over. */
  lemma StopIsObeyed<M>(states: seq<State<M>>, steps: seq<Step<M>>, capacity: nat, k: nat, i: nat)
    requires IsRun(states, steps) && states[0] == Init(capacity) && k < |steps| && steps[k] == CheckStop(i)
    ensures i < |states[k].tasks| == |states[k + 1].tasks|
    ensures states[k + 1].tasks[i].phase == if states[k].tasks[i].stop then Ended else Sending
    ensures states[k + 1].handed == states[k].handed && states[k + 1].queue == states[k].queue
  {
  }

  /** Only the front element is handed over, and it stays queued until the same
      task removes it; then the task ends exactly if nothing is left. */
  lemma HandOverAndPop<M>(states: seq<State<M>>, steps: seq<Step<M>>, capacity: nat, k: nat)
    requires IsRun(states, steps) && states[0] == Init(capacity) && k < |steps|
    ensures
      var s, s' := states[k], states[k + 1];
      && (steps[k].HandOver? ==>
            && s.queue != [] && s'.handed == s.handed + [s.queue[0]] && s'.queue == s.queue
            && steps[k].i == |s.tasks| - 1 && s'.tasks[steps[k].i].phase.Popping?)
      && (steps[k].Pop? ==>
            && s.queue != [] && s'.queue == s.queue[1..] && steps[k].i == |s.tasks| - 1
            && s'.tasks[steps[k].i].phase == if |s.queue| == 1 then Ended else Checking)
      && (!steps[k].HandOver? ==> s'.handed == s.handed)
      && (!steps[k].Pop? ==> s.queue <= s'.queue)
  {
    EveryRunKeepsInv(states, steps, capacity, k);
  }

  /** One message of the task submitted last may be on its way to the wrapped sender. */
  function OnItsWay<M>(s: State<M>): nat { if LastIs(s, Sending) then 1 else 0 }

  /** The token of the task submitted last is stopped. */
  predicate LastStopped<M>(s: State<M>) { |s.tasks| > 0 && s.tasks[|s.tasks| - 1].stop }

  lemma StoppedStep<M>(s: State<M>, step: Step<M>)
    requires Inv(s) && Enabled(s, step) && LastStopped(s) && !Submits(s, step)
    ensures FrontIsThere(s, step) && LastStopped(Apply(s, step))
    ensures |s.handed| <= |Apply(s, step).handed|
    ensures |Apply(s, step).handed| + OnItsWay(Apply(s, step)) <= |s.handed| + OnItsWay(s)
  {
    StepKeepsInv(s, step);
  }

  /** Once a stop is requested, at most the one message that is being sent is still
      handed over, until a new task is submitted. */
  lemma {:induction false} AtMostOneMore<M>(states: seq<State<M>>, steps: seq<Step<M>>, capacity: nat, k: nat, j: nat)
    requires IsRun(states, steps) && states[0] == Init(capacity) && k <= j < |states|
    requires |states[k].tasks| > 0 && states[k].tasks[|states[k].tasks| - 1].stop
    requires forall i :: k <= i < j ==> !Submits(states[i], steps[i])
    ensures LastStopped(states[j])
    ensures |states[j].handed| + OnItsWay(states[j]) <= |states[k].handed| + OnItsWay(states[k])
    ensures |states[j].handed| <=
              |states[k].handed| + if states[k].tasks[|states[k].tasks| - 1].phase == Sending then 1 else 0
    decreases j
  {
    hide Inv, Enabled, Apply, FrontIsThere;
    if j > k {
      AtMostOneMore(states, steps, capacity, k, j - 1);
      EveryRunKeepsInv(states, steps, capacity, j - 1);
      StoppedStep(states[j - 1], steps[j - 1]);
    }
  }

  /** The run can go on by itself: some task may take a step. */
  ghost predicate Busy<M>(s: State<M>)
  {
    exists i: nat :: i < |s.tasks| && !s.tasks[i].phase.Ended?
  }

  /** If no task can go on and no stop was requested, everything accepted was
      handed over. */
  lemma IdleIsDrained<M>(states: seq<State<M>>, steps: seq<Step<M>>, capacity: nat, k: nat)
    requires IsRun(states, steps) && states[0] == Init(capacity) && k < |states|
    requires !Busy(states[k]) && forall i :: 0 <= i < |states[k].tasks| ==> !states[k].tasks[i].stop
    ensures states[k].queue == [] && states[k].handed == states[k].accepted
  {
    EveryRunKeepsInv(states, steps, capacity, k);
    assert !LastIsActive(states[k]);
  }

  /** What the tasks have still to do. */
  function Work<M>(s: State<M>): nat
  {
    4 * |s.queue| + if |s.tasks| == 0 then 0 else
      match s.tasks[|s.tasks| - 1].phase
      case Submitted => 4
      case Checking => 3
      case Sending => 2
      case Popping => 1
      case Ended => 0
  }

  /** A busy task has a step to take, and every step of a task is progress, so the
      tasks get idle unless messages keep coming.  Callers are never held up. */
  lemma TasksMakeProgress<M>(s: State<M>)
    requires Inv(s)
    ensures Enabled(s, Shutdown) && forall m :: Enabled(s, Send(m))
    ensures Busy(s) ==> exists step: Step<M> :: IsTaskStep(step) && Enabled(s, step)
    ensures forall step: Step<M> :: IsTaskStep(step) && Enabled(s, step) ==>
              FrontIsThere(s, step) && Work(Apply(s, step)) < Work(s)
  {
    if Busy(s) {
      var i: nat :| i < |s.tasks| && !s.tasks[i].phase.Ended?;
      var step: Step<M> := match s.tasks[i].phase
        case Submitted => StartTask(i)
        case Checking => CheckStop(i)
        case Sending => HandOver(i)
        case _ => Pop(i);
      assert IsTaskStep(step) && Enabled(s, step);
    }
    forall step: Step<M> | IsTaskStep(step) && Enabled(s, step)
      ensures FrontIsThere(s, step) && Work(Apply(s, step)) < Work(s)
    {
      StepKeepsInv(s, step);
    }
  }

  /** A run in which a task obeys a stop and leaves a message behind. */
  lemma LeftBehind<M>(capacity: nat, m: M) returns (states: seq<State<M>>, steps: seq<Step<M>>)
    requires capacity > 0
    ensures IsRun(states, steps) && states[0] == Init(capacity)
    ensures steps == [Send(m), StartTask(0), RequestStop(0), CheckStop(0)]
    ensures Abandoned(states[4]) && states[4].queue == states[4].accepted == [m] && states[4].handed == []
  {
    steps := [Send(m), StartTask(0), RequestStop(0), CheckStop(0)];
    var s0: State<M> := Init(capacity);
    var s1 := State([m], capacity, false, [Task(Submitted, false)], [m], []);
    var s2 := State([m], capacity, false, [Task(Checking, false)], [m], []);
    var s3 := State([m], capacity, false, [Task(Checking, true)], [m], []);
    var s4 := State([m], capacity, false, [Task(Ended, true)], [m], []);
    states := [s0, s1, s2, s3, s4];
    assert s0.queue + [m] == [m] && s0.accepted + [m] == [m];
    assert Apply(s0, Send(m)) == s1;
  }

  lemma OthersEnded<M>(s: State<M>)
    requires Inv(s) && (|s.tasks| > 0 ==> s.tasks[|s.tasks| - 1].phase.Ended?)
    ensures AllEnded(s)
  {
  }

  lemma EndedTakesNone<M>(s: State<M>, step: Step<M>)
    requires AllEnded(s) && Enabled(s, step)
    ensures !IsTaskStep(step)
  {
  }

  lemma EndedStep<M>(s: State<M>, step: Step<M>)
    requires AllEnded(s) && Enabled(s, step) && !Submits(s, step)
    ensures FrontIsThere(s, step) && AllEnded(Apply(s, step))
  {
  }

  /** The destructor stops the stored task and waits for it.  From then on no task
      ever takes a step again, so nobody touches the queue, until a message is
      accepted into an empty queue, which no caller does during destruction. */
  lemma {:induction false} AfterWaitNobodyTouches<M>(states: seq<State<M>>, steps: seq<Step<M>>, capacity: nat,
                                                     k: nat, j: nat)
    requires IsRun(states, steps) && states[0] == Init(capacity) && k <= j < |steps|
    requires |states[k].tasks| > 0 ==> states[k].tasks[|states[k].tasks| - 1].phase.Ended?
    requires forall i :: k <= i < j ==> !Submits(states[i], steps[i])
    ensures AllEnded(states[j]) && !IsTaskStep(steps[j])
    decreases j
  {
    hide Inv, Enabled, Apply, AllEnded, FrontIsThere;
    EveryRunKeepsInv(states, steps, capacity, j);
    if j == k {
      OthersEnded(states[k]);
    } else {
      AfterWaitNobodyTouches(states, steps, capacity, k, j - 1);
      EveryRunKeepsInv(states, steps, capacity, j - 1);
      EndedStep(states[j - 1], steps[j - 1]);
    }
    EndedTakesNone(states[j], steps[j]);
  }

  // ----- the two functions as the code runs them

  /** One undisturbed iteration of the drain loop. */
  function Iterate<M>(s: State<M>): State<M>
    requires |s.tasks| > 0 && s.queue != []
  {
    var last := |s.tasks| - 1;
    var phase := if |s.queue| == 1 then Ended else Checking;
    s.(queue := s.queue[1..], handed := s.handed + [s.queue[0]],
       tasks := s.tasks[last := s.tasks[last].(phase := phase)])
  }

  /** It is the token check, the hand-over and the removal of the protocol. */
  lemma IterationIsThreeSteps<M>(s: State<M>)
    requires Inv(s) && LastIs(s, Checking)
    ensures s.queue != [] && Inv(Iterate(s))
    ensures
      var last := |s.tasks| - 1;
      !s.tasks[last].stop ==>
        && Enabled(s, CheckStop(last)) && var s1 := Apply(s, CheckStop(last));
        && Enabled(s1, HandOver(last)) && var s2 := Apply(s1, HandOver(last));
        && Enabled(s2, Pop(last)) && Apply(s2, Pop(last)) == Iterate(s)
  {
    assert s.handed + s.queue == (s.handed + [s.queue[0]]) + s.queue[1..];
  }

  /** `k` iterations in a row. */
  ghost function Drained<M>(s: State<M>, k: nat): State<M>
    requires Inv(s) && LastIs(s, Checking) && k <= |s.queue|
    ensures
      var s' := Drained(s, k);
      && Inv(s') && |s'.tasks| > 0
      && s'.queue == s.queue[k..]
      && (k < |s.queue| ==> LastIs(s', Checking))
      && (k == |s.queue| ==> LastIs(s', Ended))
  {
    if k == 0 then assert s.queue[0..] == s.queue; IterationIsThreeSteps(s); s
    else
      var s1 := Drained(s, k - 1);
      IterationIsThreeSteps(s1);
      Iterate(s1)
  }

  /** `k` iterations hand over the first `k` messages in order. */
  lemma {:induction false} DrainedHands<M>(s: State<M>, k: nat)
    requires Inv(s) && LastIs(s, Checking) && k <= |s.queue|
    ensures Drained(s, k).handed == s.handed + s.queue[..k]
    ensures Drained(s, k).accepted == s.accepted
  {
    hide Inv;
    if k > 0 {
      DrainedHands(s, k - 1);
      assert s.queue[..k] == s.queue[..k - 1] + [s.queue[k - 1]];
    }
  }

  lemma DrainedNone<M>(s: State<M>)
    requires Inv(s) && LastIs(s, Checking)
    ensures Drained(s, 0) == s
  {
  }

  lemma DrainedNext<M>(s: State<M>, k: nat)
    requires Inv(s) && LastIs(s, Checking) && k < |s.queue|
    ensures Inv(Drained(s, k)) && LastIs(Drained(s, k), Checking)
    ensures Drained(s, k + 1) == Iterate(Drained(s, k))
  {
  }

  /** A stop that arrives before the next look at the token: the protocol's request
      and token check, after which the task has given up. */
  lemma GivingUp<M>(s: State<M>)
    requires Inv(s) && LastIs(s, Checking)
    ensures
      var last := |s.tasks| - 1;
      var s' := s.(tasks := s.tasks[last := Task(Ended, true)]);
      && Inv(s') && Abandoned(s')
      && Enabled(s, RequestStop(last)) && var asked := Apply(s, RequestStop(last));
      && Enabled(asked, CheckStop(last)) && Apply(asked, CheckStop(last)) == s'
  {
  }

  /** The answers fit the state: a token that is stopped says so at the first look. */
  predicate Answers<M>(s: State<M>, stop: seq<bool>)
  {
    LastStopped(s) ==> |stop| > 0 && stop[0]
  }

  /** The protocol leads from one state to the other. */
  ghost predicate Leads<M(!new)>(s: State<M>, s': State<M>)
  {
    exists states, steps :: IsRun(states, steps) && states[0] == s && states[|steps|] == s'
  }

  lemma LeadsNowhere<M(!new)>(s: State<M>)
    ensures Leads(s, s)
  {
    var steps: seq<Step<M>> := [];
    assert IsRun([s], steps);
  }

  lemma LeadsOn<M(!new)>(s: State<M>, s1: State<M>, step: Step<M>)
    requires Leads(s, s1) && Enabled(s1, step) && FrontIsThere(s1, step)
    ensures Leads(s, Apply(s1, step))
  {
    hide Enabled, Apply, FrontIsThere;
    var states, steps :| IsRun(states, steps) && states[0] == s && states[|steps|] == s1;
    var states', steps' := states + [Apply(s1, step)], steps + [step];
    assert IsRun(states', steps') && states'[0] == s && states'[|steps'|] == Apply(s1, step);
  }

  lemma IterationLeadsOn<M(!new)>(s: State<M>, s1: State<M>)
    requires Leads(s, s1) && Inv(s1) && LastIs(s1, Checking) && !LastStopped(s1)
    ensures s1.queue != [] && Leads(s, Iterate(s1))
  {
    hide Leads;
    var last: nat := |s1.tasks| - 1;
    IterationIsThreeSteps(s1);
    var s2 := Apply(s1, CheckStop(last));
    LeadsOn(s, s1, CheckStop(last));
    LeadsOn(s, s2, HandOver(last));
    LeadsOn(s, Apply(s2, HandOver(last)), Pop(last));
  }

  lemma GivingUpLeadsOn<M(!new)>(s: State<M>, s1: State<M>)
    requires Leads(s, s1) && Inv(s1) && LastIs(s1, Checking)
    ensures Leads(s, s1.(tasks := s1.tasks[|s1.tasks| - 1 := Task(Ended, true)]))
  {
    hide Leads;
    var last: nat := |s1.tasks| - 1;
    GivingUp(s1);
    LeadsOn(s, s1, RequestStop(last));
    LeadsOn(s, Apply(s1, RequestStop(last)), CheckStop(last));
  }

  /** The sender object.  `View` is its state as the protocol above sees it. */
  class Sender<M(!new)> {
    const capacity: nat
    var queue: seq<M>
    var shutdown: bool
    var tasks: seq<Task>
    ghost var accepted: seq<M>
    var handed: seq<M>

    ghost function View(): State<M>
      reads this
    {
      State(queue, capacity, shutdown, tasks, accepted, handed)
    }

    constructor (capacity: nat)
      ensures View() == Init(capacity)
    {
      this.capacity := capacity;
      queue, shutdown, tasks, accepted, handed := [], false, [], [], [];
    }

    /** One critical section: exactly the protocol's `Send` step, and the caller
        learns whether the message was taken. */
    method SendInternal(m: M) returns (ok: bool)
      requires Inv(View())
      modifies this
      ensures View() == Apply(old(View()), Send(m)) && Inv(View())
      ensures ok == old(Accepts(View()))
    {
      StepKeepsInv(View(), Send(m));
      if |queue| == capacity || shutdown {
        return false;
      }
      queue := queue + [m];
      accepted := accepted + [m];
      if |queue| == 1 {
        tasks := tasks + [Task(Submitted, false)];
      }
      return true;
    }

    /** The body of the drain loop: the front element goes to the wrapped sender
        and is then removed. */
    method SendFront()
      requires Inv(View()) && LastIs(View(), Checking)
      modifies this`queue, this`handed, this`tasks
      ensures old(queue) != [] && View() == Iterate(old(View())) && Inv(View())
      ensures LastStopped(View()) == old(LastStopped(View()))
    {
      IterationIsThreeSteps(View());
      var last := |tasks| - 1;
      handed := handed + [queue[0]];
      tasks := tasks[last := tasks[last].(phase := if |queue| == 1 then Ended else Checking)];
      queue := queue[1..];
    }

    /** The drain loop of the stored task with nobody else sending; `stop[k]` is
        what its token answers at the `k`-th look.  It hands over one message per
        iteration until it is told to stop or nothing is left, and, as a token that
        is stopped already answers so, does it in steps of the protocol. */
    method SendQueueElements(stop: seq<bool>) returns (iterations: nat)
      requires Inv(View()) && LastIs(View(), Checking)
      requires |stop| >= |queue|
      modifies this`queue, this`handed, this`tasks
      ensures Answers(old(View()), stop) ==> Leads(old(View()), View())
      ensures iterations <= |old(queue)|
      ensures handed == old(handed) + old(queue)[..iterations]
      ensures queue == old(queue)[iterations..]
      ensures forall k :: 0 <= k < iterations ==> !stop[k]
      ensures iterations == |old(queue)| || stop[iterations]
      ensures LastIs(View(), Ended) && (queue == [] || Abandoned(View())) && Inv(View())
    {
      hide Inv, Iterate, Abandoned, Drained, Leads;
      iterations := 0;
      ghost var start := View();
      DrainedNone(start);
      LeadsNowhere(start);
      while |queue| > 0 && !stop[iterations]
        invariant iterations <= |start.queue| && View() == Drained(start, iterations)
        invariant Answers(start, stop) ==> Leads(start, View())
        invariant forall k :: 0 <= k < iterations ==> !stop[k]
        invariant Answers(start, stop) && |queue| > 0 && LastStopped(View()) ==> stop[iterations]
      {
        DrainedNext(start, iterations);
        if Answers(start, stop) {
          IterationLeadsOn(start, View());
        }
        SendFront();
        iterations := iterations + 1;
      }
      DrainedHands(start, iterations);
      if |queue| > 0 {
        GivingUp(View());
        if Answers(start, stop) {
          GivingUpLeadsOn(start, View());
        }
        tasks := tasks[|tasks| - 1 := Task(Ended, true)];
      }
    }
  }
}
