/** From `NonBlockingSender::Send` through the channel to the registered callback. */
module MessagePipeline {

  import opened Wrappers
  import opened MessageCodec
  import Q = NonBlockingSender

  // ----- the blocking sender: retry until sent, out of retries, or stopped

  type Errno = int

  const ENFILE: Errno := 23

  class ChannelSender {
    const isOpen: bool
    const maxRetries: int
    var channel: seq<RawMessage>

    constructor (isOpen: bool, maxRetries: int)
      ensures this.isOpen == isOpen && this.maxRetries == maxRetries && channel == []
    {
      this.isOpen := isOpen;
      this.maxRetries := maxRetries;
      channel := [];
    }

    /** `outcomes[k]` is what the channel answers to attempt `k`, None when it
        took the payload; `stops[k]` is the stop token after attempt `k`.  The
        payload is in the channel once if the call succeeds and not at all if it
        fails; the call gives up only when retries or patience run out, and then
        reports the error of the last attempt. */
    method SendPrepared(payload: RawMessage, outcomes: seq<Option<Errno>>, stops: seq<bool>)
        returns (error: Option<Errno>, attempts: nat)
      requires AnswersSuffice(outcomes, stops, maxRetries)
      modifies this
      ensures 1 <= attempts <= |outcomes| && (attempts == 1 || attempts <= maxRetries)
      ensures channel == old(channel) + (if error.None? then [payload] else [])
      ensures error == outcomes[attempts - 1] == Outcome(outcomes, stops, maxRetries, 0)
      ensures forall k :: 0 <= k < attempts - 1 ==> outcomes[k].Some? && !stops[k]
      ensures error.Some? ==> attempts >= maxRetries || stops[attempts - 1]
    {
      var retries: int := 0;
      error := None;
      attempts := 0;
      while true
        invariant 0 <= retries == attempts && (attempts > 0 ==> attempts < maxRetries)
        invariant channel == old(channel)
        invariant forall k :: 0 <= k < attempts ==> outcomes[k].Some? && !stops[k]
        invariant Outcome(outcomes, stops, maxRetries, 0) == Outcome(outcomes, stops, maxRetries, attempts)
        decreases |outcomes| - attempts
      {
        var result := outcomes[attempts];
        attempts := attempts + 1;
        if result.None? {
          channel := channel + [payload];
          return None, attempts;
        }
        retries := retries + 1;
        error := result;
        if !(retries < maxRetries && !stops[attempts - 1]) {
          return;
        }
      }
    }

    method Send(m: Message, outcomes: seq<Option<Errno>>, stops: seq<bool>) returns (error: Option<Errno>)
      requires AnswersSuffice(outcomes, stops, maxRetries)
      modifies this
      ensures error == SendResult(isOpen, maxRetries, outcomes, stops)
      ensures channel == old(channel) + (if error.None? then [Bytes(m)] else [])
    {
      if !isOpen {
        return Some(ENFILE);
      }
      var payload := Serialize(m);
      var attempts;
      error, attempts := SendPrepared(payload[..], outcomes, stops);
    }
  }

  /** There is an answer for every attempt the retry loop can make. */
  predicate AnswersSuffice(outcomes: seq<Option<Errno>>, stops: seq<bool>, maxRetries: int)
  {
    |outcomes| == |stops| > 0 && |outcomes| >= maxRetries
  }

  /** The answer to the last attempt, when attempt `k` is the next one. */
  function Outcome(outcomes: seq<Option<Errno>>, stops: seq<bool>, maxRetries: int, k: nat): Option<Errno>
    requires AnswersSuffice(outcomes, stops, maxRetries) && k < |outcomes|
    decreases |outcomes| - k
  {
    if outcomes[k].None? || stops[k] || k + 1 >= maxRetries then outcomes[k]
    else Outcome(outcomes, stops, maxRetries, k + 1)
  }

  /** The error of one call of `Send`, None if the message is in the channel. */
  function SendResult(isOpen: bool, maxRetries: int, outcomes: seq<Option<Errno>>, stops: seq<bool>): Option<Errno>
    requires AnswersSuffice(outcomes, stops, maxRetries)
  {
    if isOpen then Outcome(outcomes, stops, maxRetries, 0) else Some(ENFILE)
  }

  /** A call puts the message into the channel exactly if the channel is open and
      some attempt is answered well after attempts that failed, none of which was
      the last one allowed or followed by a stop.  A call that fails reports
      `ENFILE`, or the error of the attempt it ended with. */
  lemma {:induction false} SendSucceedsIff(isOpen: bool, maxRetries: int, outcomes: seq<Option<Errno>>,
                                           stops: seq<bool>) returns (a: nat)
    requires AnswersSuffice(outcomes, stops, maxRetries)
    ensures SendResult(isOpen, maxRetries, outcomes, stops).None? <==>
              isOpen && exists k: nat :: k < |outcomes| && outcomes[k].None? && GoesOn(maxRetries, outcomes, stops, k)
    ensures !isOpen ==> SendResult(isOpen, maxRetries, outcomes, stops) == Some(ENFILE)
    ensures a < |outcomes| && GoesOn(maxRetries, outcomes, stops, a)
    ensures outcomes[a].None? || stops[a] || a + 1 >= maxRetries
    ensures isOpen ==> SendResult(isOpen, maxRetries, outcomes, stops) == outcomes[a]
  {
    a := 0;
    while outcomes[a].Some? && !stops[a] && a + 1 < maxRetries
      invariant a < |outcomes| && GoesOn(maxRetries, outcomes, stops, a)
      invariant Outcome(outcomes, stops, maxRetries, 0) == Outcome(outcomes, stops, maxRetries, a)
      decreases |outcomes| - a
    {
      a := a + 1;
    }
    forall k: nat | k < |outcomes| && outcomes[k].None? && GoesOn(maxRetries, outcomes, stops, k) ensures k == a {
    }
  }

  /** The attempts before number `k` failed and were not the last. */
  predicate GoesOn(maxRetries: int, outcomes: seq<Option<Errno>>, stops: seq<bool>, k: nat)
    requires |outcomes| == |stops| && k <= |outcomes|
  {
    forall i :: 0 <= i < k ==> outcomes[i].Some? && !stops[i] && i + 1 < maxRetries
  }

  // ----- the receiver's callbacks

  datatype Callback = ShortCallback(name: nat) | MediumCallback(name: nat)

  type Callbacks = map<MessageId, Callback>

  datatype Delivery =
    | Called(callback: Callback, message: Message)
    | NoCallback(message: Message)
      /** A callback of the other message kind is registered under the id. */
    | Terminated

  class Receiver {
    var callbacks: Callbacks
    ghost var calls: seq<(MessageId, Callback)>      // every registration so far

    ghost predicate Valid()
      reads this
    {
      callbacks == Registered(calls)
    }

    constructor ()
      ensures Valid() && calls == []
    {
      callbacks, calls := map[], [];
    }

    /** `insert` keeps what is already there. */
    method Register(id: MessageId, callback: Callback)
      requires Valid()
      modifies this
      ensures Valid() && calls == old(calls) + [(id, callback)]
    {
      if id !in callbacks {
        callbacks := callbacks[id := callback];
      }
      calls := calls + [(id, callback)];
      assert calls[..|calls| - 1] == old(calls);
    }

    /** What the receiver does with a message it has read. */
    method OnMessage(m: Message) returns (d: Delivery)
      requires Valid()
      ensures HandledRightly(calls, m, d)
    {
      OneWayToHandle(calls, m, ExecuteMessageHandler(callbacks, m));
      if m.id !in callbacks {
        return NoCallback(m);
      }
      var callback := callbacks[m.id];
      return if callback.ShortCallback? != m.Short? then Terminated else Called(callback, m);
    }
  }

  function Inserted(callbacks: Callbacks, id: MessageId, callback: Callback): Callbacks
  {
    if id in callbacks then callbacks else callbacks[id := callback]
  }

  /** The table after a sequence of registrations. */
  function Registered(calls: seq<(MessageId, Callback)>): Callbacks
  {
    if calls == [] then map[]
    else Inserted(Registered(calls[..|calls| - 1]), calls[|calls| - 1].0, calls[|calls| - 1].1)
  }

  /** The callback of an id is the one registered first under it. */
  lemma {:induction false} FirstRegistrationWins(calls: seq<(MessageId, Callback)>, id: MessageId)
    ensures id in Registered(calls) <==> exists i :: 0 <= i < |calls| && calls[i].0 == id
    ensures forall i :: 0 <= i < |calls| && calls[i].0 == id && (forall j :: 0 <= j < i ==> calls[j].0 != id)
              ==> id in Registered(calls) && Registered(calls)[id] == calls[i].1
  {
    if calls != [] {
      var earlier := calls[..|calls| - 1];
      FirstRegistrationWins(earlier, id);
      assert forall i :: 0 <= i < |earlier| ==> earlier[i] == calls[i];
      if id in Registered(earlier) {
        var i :| 0 <= i < |earlier| && earlier[i].0 == id;
        assert calls[i].0 == id;
      }
    }
  }

  /** Registration `i` is the first under the id. */
  predicate FirstUnder(calls: seq<(MessageId, Callback)>, id: MessageId, i: nat)
  {
    i < |calls| && calls[i].0 == id && forall j :: 0 <= j < i ==> calls[j].0 != id
  }

  /** What becomes of a received message, told from the registrations alone: the
      first callback under its id is called if it is for messages of this kind, the
      process ends if it is for the other kind, and without one nothing is called. */
  ghost predicate HandledRightly(calls: seq<(MessageId, Callback)>, m: Message, d: Delivery)
  {
    && (forall i: nat :: FirstUnder(calls, m.id, i) ==>
          match m
          case Short(_, _, _) => d == if calls[i].1.ShortCallback? then Called(calls[i].1, m) else Terminated
          case Medium(_, _, _) => d == if calls[i].1.MediumCallback? then Called(calls[i].1, m) else Terminated)
    && ((forall i :: 0 <= i < |calls| ==> calls[i].0 != m.id) ==> d == NoCallback(m))
  }

  /** There is always exactly one way to handle a message. */
  lemma OneWayToHandle(calls: seq<(MessageId, Callback)>, m: Message, d: Delivery)
    ensures HandledRightly(calls, m, d) <==> d == ExecuteMessageHandler(Registered(calls), m)
  {
    FirstRegistrationWins(calls, m.id);
    if m.id in Registered(calls) {
      var i := FirstCall(calls, m.id);
      assert Registered(calls)[m.id] == calls[i].1;
    }
  }

  lemma {:induction false} FirstCall(calls: seq<(MessageId, Callback)>, id: MessageId) returns (i: nat)
    requires exists k :: 0 <= k < |calls| && calls[k].0 == id
    ensures FirstUnder(calls, id, i)
  {
    i := 0;
    while calls[i].0 != id
      invariant i < |calls| && forall j :: 0 <= j < i ==> calls[j].0 != id
      decreases |calls| - i
    {
      i := i + 1;
    }
  }

  function ExecuteMessageHandler(callbacks: Callbacks, m: Message): Delivery
  {
    if m.id !in callbacks then NoCallback(m)
    else if callbacks[m.id].ShortCallback? != m.Short? then Terminated
    else Called(callbacks[m.id], m)
  }

  // ----- all of it together

  /** How the sender was made and who registered what at the receiver. */
  datatype Setup = Setup(capacity: nat, isOpen: bool, maxRetries: int, calls: seq<(MessageId, Callback)>)

  datatype State = State(
    sender: Q.State<Message>,
    results: seq<Option<Errno>>,    // what the wrapped sender returned for each message handed over
    channel: seq<RawMessage>,
    origin: seq<nat>,               // channel[k] carries the message handed over as number origin[k]
    deliveries: seq<Delivery>)

  datatype Step =
      /** A step of the non-blocking sender that does not call the wrapped one. */
    | Local(step: Q.Step<Message>)
      /** The drain task calls the wrapped sender, whose attempts the channel
          answers with `outcomes` while `stops` are the looks at the stop token. */
    | HandOver(i: nat, outcomes: seq<Option<Errno>>, stops: seq<bool>)
    | Receive

  function Init(u: Setup): State
  {
    State(Q.Init(u.capacity), [], [], [], [])
  }

  predicate Enabled(u: Setup, s: State, step: Step)
  {
    match step
    case Local(q) => !q.HandOver? && Q.Enabled(s.sender, q)
    case HandOver(i, outcomes, stops) =>
      Q.Enabled(s.sender, Q.Step.HandOver(i)) && AnswersSuffice(outcomes, stops, u.maxRetries)
    case Receive =>
      |s.deliveries| < |s.channel| && (|s.deliveries| > 0 ==> s.deliveries[|s.deliveries| - 1] != Terminated)
  }

  function SenderStep(step: Step): Q.Step<Message>
    requires !step.Receive?
  {
    if step.Local? then step.step else Q.Step.HandOver(step.i)
  }

  predicate Sound(s: State, step: Step)
  {
    match step
    case Receive => |s.deliveries| < |s.channel| && Decode(s.channel[|s.deliveries|]).Some?
    case _ => Q.FrontIsThere(s.sender, SenderStep(step))
  }

  function Apply(u: Setup, s: State, step: Step): State
    requires Enabled(u, s, step) && Sound(s, step)
  {
    match step
    case Local(q) => s.(sender := Q.Apply(s.sender, q))
    case HandOver(i, outcomes, stops) =>
      // The effect of ChannelSender.Send.
      var error := SendResult(u.isOpen, u.maxRetries, outcomes, stops);
      var s' := s.(sender := Q.Apply(s.sender, Q.Step.HandOver(i)), results := s.results + [error]);
      if error.None? then
        s'.(channel := s.channel + [Bytes(s.sender.queue[0])], origin := s.origin + [|s.sender.handed|])
      else s'
    case Receive =>
      var m := Decode(s.channel[|s.deliveries|]).value;
      s.(deliveries := s.deliveries + [ExecuteMessageHandler(Registered(u.calls), m)])
  }

  ghost predicate IsRun(u: Setup, states: seq<State>, steps: seq<Step>)
  {
    && |states| == |steps| + 1 && states[0] == Init(u)
    && forall k :: 0 <= k < |steps| ==>
         && Enabled(u, states[k], steps[k])
         && (Sound(states[k], steps[k]) ==> states[k + 1] == Apply(u, states[k], steps[k]))
  }

  /** The channel is the in-order selection of the messages whose sending
      succeeded, and what was received was handled as the message it carries. */
  ghost predicate Inv(u: Setup, s: State)
  {
    && Q.Inv(s.sender)
    && |s.results| == |s.sender.handed|
    && |s.origin| == |s.channel| >= |s.deliveries|
    && (forall k :: 0 <= k < |s.origin| ==> s.origin[k] < |s.sender.handed|)
    && (forall j, k :: 0 <= j < k < |s.origin| ==> s.origin[j] < s.origin[k])
    && (forall p :: 0 <= p < |s.results| ==> (s.results[p].None? <==> p in s.origin))
    && (forall k :: 0 <= k < |s.channel| ==> s.channel[k] == Bytes(s.sender.handed[s.origin[k]]))
    && (forall k :: 0 <= k < |s.deliveries| ==>
          s.deliveries[k] == ExecuteMessageHandler(Registered(u.calls), s.sender.handed[s.origin[k]]))
  }

  lemma LocalKeepsInv(u: Setup, s: State, q: Q.Step<Message>)
    requires Inv(u, s) && Enabled(u, s, Local(q))
    ensures Sound(s, Local(q)) && Inv(u, Apply(u, s, Local(q)))
  {
    Q.StepKeepsInv(s.sender, q);
    assert Q.Apply(s.sender, q).handed == s.sender.handed;
  }

  lemma HandOverKeepsInv(u: Setup, s: State, step: Step)
    requires Inv(u, s) && step.HandOver? && Enabled(u, s, step)
    ensures Sound(s, step) && Inv(u, Apply(u, s, step))
  {
    hide Bytes, Decode, ExecuteMessageHandler, Registered, SendResult, Q.Inv;
    Q.StepKeepsInv(s.sender, Q.Step.HandOver(step.i));
    var s' := Apply(u, s, step);
    assert s'.sender.handed == s.sender.handed + [s.sender.queue[0]];
    var last := |s.sender.handed|;
    assert s'.origin == s.origin || s'.origin == s.origin + [last];
    forall p | 0 <= p < |s'.results| ensures s'.results[p].None? <==> p in s'.origin {
      assert last !in s.origin;
    }
    forall k | 0 <= k < |s.origin|
      ensures s'.sender.handed[s'.origin[k]] == s.sender.handed[s.origin[k]]
    {
    }
  }

  lemma ReceiveKeepsInv(u: Setup, s: State)
    requires Inv(u, s) && Enabled(u, s, Receive)
    ensures Sound(s, Receive) && Inv(u, Apply(u, s, Receive))
  {
    hide Bytes, Decode, ExecuteMessageHandler, Registered, Q.Inv;
    RoundTrip(s.sender.handed[s.origin[|s.deliveries|]]);
  }

  lemma StepKeepsInv(u: Setup, s: State, step: Step)
    requires Inv(u, s) && Enabled(u, s, step)
    ensures Sound(s, step) && Inv(u, Apply(u, s, step))
  {
    match step
    case Local(q) => LocalKeepsInv(u, s, q);
    case HandOver(_, _, _) => HandOverKeepsInv(u, s, step);
    case Receive => ReceiveKeepsInv(u, s);
  }

  lemma {:induction false} EveryRunKeepsInv(u: Setup, states: seq<State>, steps: seq<Step>, k: nat)
    requires IsRun(u, states, steps) && k < |states|
    ensures Inv(u, states[k])
    ensures k < |steps| ==> Sound(states[k], steps[k])
  {
    hide Enabled, Apply, Sound;
    if k > 0 {
      EveryRunKeepsInv(u, states, steps, k - 1);
      StepKeepsInv(u, states[k - 1], steps[k - 1]);
    }
    if k < |steps| {
      StepKeepsInv(u, states[k], steps[k]);
    }
  }

  /** What a hand-over adds to the results, told from the attempts alone. */
  lemma HandOverInRun(u: Setup, states: seq<State>, steps: seq<Step>, k: nat)
    requires IsRun(u, states, steps) && k < |steps| && steps[k].HandOver?
    ensures |states[k].sender.handed| == |states[k].results|
    ensures |states[k + 1].results| == |states[k].results| + 1 && states[k].results <= states[k + 1].results
    ensures
      var attempts := steps[k].outcomes;
      states[k + 1].results[|states[k].results|].None? <==>
        && u.isOpen
        && exists a: nat ::
             a < |attempts| && attempts[a].None? && GoesOn(u.maxRetries, attempts, steps[k].stops, a)
  {
    hide GoesOn, SendResult, Q.Inv;
    EveryRunKeepsInv(u, states, steps, k);
    var _ := SendSucceedsIff(u.isOpen, u.maxRetries, steps[k].outcomes, steps[k].stops);
  }

  /** End to end, in every interleaving: there are strictly increasing positions
      of accepted messages, exactly those whose hand-over the wrapped sender
      reported as sent, such that the channel holds exactly their buffers in that
      order, each buffer decodes to the original id, pid and payload, and each
      delivery is the one the registrations prescribe for the original. */
  lemma EndToEnd(u: Setup, states: seq<State>, steps: seq<Step>, k: nat) returns (position: seq<nat>)
    requires IsRun(u, states, steps) && k < |states|
    ensures |position| == |states[k].channel|
    ensures forall i, j :: 0 <= i < j < |position| ==> position[i] < position[j]
    ensures forall p :: 0 <= p < |states[k].results| ==> (states[k].results[p].None? <==> p in position)
    ensures forall i :: 0 <= i < |position| ==>
              && position[i] < |states[k].results| <= |states[k].sender.accepted|
              && Decode(states[k].channel[i]) == Some(states[k].sender.accepted[position[i]])
    ensures |states[k].deliveries| <= |position|
    ensures forall i :: 0 <= i < |states[k].deliveries| ==>
              HandledRightly(u.calls, states[k].sender.accepted[position[i]], states[k].deliveries[i])
  {
    EveryRunKeepsInv(u, states, steps, k);
    position := states[k].origin;
    assert states[k].sender.handed <= states[k].sender.accepted;
    forall i | 0 <= i < |position|
      ensures Decode(states[k].channel[i]) == Some(states[k].sender.accepted[position[i]])
    {
      RoundTrip(states[k].sender.handed[position[i]]);
    }
    forall i | 0 <= i < |states[k].deliveries|
      ensures HandledRightly(u.calls, states[k].sender.accepted[position[i]], states[k].deliveries[i])
    {
      OneWayToHandle(u.calls, states[k].sender.accepted[position[i]], states[k].deliveries[i]);
    }
  }
}
