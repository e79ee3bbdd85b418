/** The Participant: the worker that owns one AMQP channel subscribed to
    a named queue, turns each delivery into a Workitem, runs the user's
    `consume()` on it, acknowledges the delivery and replies to the engine.
    The channel is modelled as an append-only log of the actions taken on
    it plus an open flag; `json.loads` and `consume()` are inputs. */
module Participants {
  import opened Outcomes
  import opened JsonValues
  import opened Workitems
  import opened FailureFormat

  /** Replies go to the anonymous exchange ... */
  const ReplyExchange: string := ""
  /** ... routed straight to the engine's fixed queue. */
  const ReplyRoutingKey: string := "ruote_workitems"
  /** `delivery_mode` 2 marks a message persistent. */
  const Persistent: int := 2

  const NotOpen: string := "AMQP channel not open"
  const AlreadyRunning: string := "Participant already running"

  /** An action taken on the channel. */
  datatype Event =
    | Qos(prefetchSize: int, prefetchCount: int, isGlobal: bool)
    | DeclareQueue(queue: string, durable: bool, exclusive: bool, autoDelete: bool)
    | Subscribe(queue: string, noAck: bool)
    | Reject(tag: int, requeue: bool)
    | Ack(tag: int)
    | Publish(exchange: string, routingKey: string, body: Json, deliveryMode: int)
    | CancelConsumer(consumerTag: string)

  /** The channel object: open or closed, and the consumer tag the broker
      gave the subscription made on it. */
  datatype Channel = Channel(isOpen: bool, consumerTag: string)

  /** The participant's state: its queue name, `_chan`, `_running`,
      `workitem`, and everything done on its channels so far. */
  datatype Participant = Participant(
    queue: string,
    chan: Option<Channel>,
    running: bool,
    workitem: Option<Workitem>,
    log: seq<Event>)

  /** A participant as constructed: no channel, not running, no workitem. */
  function NewParticipant(queue: string): Participant
  {
    Participant(queue, None, false, None, [])
  }

  /** `self._chan and self._chan.is_open`. */
  predicate ChannelOpen(p: Participant)
  {
    p.chan.Some? && p.chan.value.isOpen
  }

  /* ----------------------------------------------------------------------
     _open_channel
     ---------------------------------------------------------------------- */

  /** What a fresh channel is set up with: prefetch of one message of any
      size, a durable, shared, persistent queue, and a subscription that
      requires explicit acknowledgment. */
  function SetupEvents(queue: string): seq<Event>
  {
    [Qos(0, 1, false), DeclareQueue(queue, true, false, false), Subscribe(queue, false)]
  }

  /** `_open_channel`: an open channel is reused as it is; otherwise a new
      one is opened and set up, and the broker's consumer tag recorded. */
  function OpenChannel(p: Participant, consumerTag: string): (r: Participant)
    ensures ChannelOpen(r)
    ensures ChannelOpen(p) ==> r == p
    ensures !ChannelOpen(p) ==> r.log == p.log + SetupEvents(p.queue)
    ensures r.queue == p.queue && r.running == p.running && r.workitem == p.workitem
  {
    if ChannelOpen(p) then p
    else p.(chan := Some(Channel(true, consumerTag)), log := p.log + SetupEvents(p.queue))
  }

  /** Opening twice sets the queue up once: the second call changes
      nothing, whatever consumer tag it would have recorded. */
  lemma OpenChannelIdempotent(p: Participant, tag1: string, tag2: string)
    ensures OpenChannel(OpenChannel(p, tag1), tag2) == OpenChannel(p, tag1)
  {
  }

  /* ----------------------------------------------------------------------
     reply_to_engine
     ---------------------------------------------------------------------- */

  /** `reply_to_engine(workitem)`: refuse unless the channel is open, then
      publish the JSON of the given workitem, or of the current one when
      none is given, persistently, to the engine's queue. */
  function ReplyToEngine(p: Participant, w: Option<Workitem>): (r: Result<Participant>)
    ensures !ChannelOpen(p) ==> r == Err(RuntimeError(NotOpen))
    ensures r.Ok? <==> ChannelOpen(p) && (w.Some? || p.workitem.Some?)
    ensures r.Ok? ==>
      var sent := if w.Some? then w.value else p.workitem.value;
      r.value == p.(log := p.log + [Publish(ReplyExchange, ReplyRoutingKey, ToJson(sent), Persistent)])
  {
    if !ChannelOpen(p) then Err(RuntimeError(NotOpen))
    else
      var target := if w.Some? then w else p.workitem;
      if target.None? then Err(AttributeError("to_h"))
      else Ok(p.(log := p.log + [Publish(ReplyExchange, ReplyRoutingKey, ToJson(target.value), Persistent)]))
  }

  /** The engine decodes a reply back into the very workitem that was
      sent, as long as its "fei" entry still matches the identity. */
  lemma ReplyDecodesToSent(p: Participant, w: Workitem)
    requires ChannelOpen(p) && Consistent(w)
    ensures ReplyToEngine(p, Some(w)).Ok?
    ensures var log := ReplyToEngine(p, Some(w)).value.log;
      FromJson(log[|log| - 1].body) == Ok(w)
  {
  }

  /* ----------------------------------------------------------------------
     workitem_callback
     ---------------------------------------------------------------------- */

  /** A message body, once `json.loads` has been applied to it. */
  datatype Body = Malformed | Decoded(value: Json)

  /** A delivery: its delivery tag and its body. */
  datatype Delivery = Delivery(tag: int, body: Body)

  /** How the user's `consume()` ended, with `self.workitem` as it then
      was (possibly mutated, possibly replaced): it returned, or it raised
      an object together with the stack frames of its traceback. */
  datatype ConsumeOutcome =
    | Returned(workitem: Workitem)
    | Raised(workitem: Workitem, exc: Exc, frames: seq<Frame>)

  /** The outcome of one callback: the new state, and the exception that
      left the callback, if any. */
  datatype Step = Step(p: Participant, raised: Option<PyError>)

  /** `format_ruby_backtrace` output as the JSON list stored in "trace". */
  function TraceJson(lines: seq<string>): (j: Json)
    ensures j.JArr? && |j.items| == |lines|
    ensures forall i :: 0 <= i < |lines| ==> j.items[i] == JStr(lines[i])
  {
    JArr(seq(|lines|, i requires 0 <= i < |lines| => JStr(lines[i])))
  }

  /** `workitem.error = format_exception(exc)` followed by
      `workitem.trace = format_ruby_backtrace(frames)`. */
  function AttachFailure(w: Workitem, exc: Exc, frames: seq<Frame>): Workitem
  {
    SetTop(SetTop(w, "error", JStr(FormatException(exc))), "trace", TraceJson(FormatRubyBacktrace(frames)))
  }

  /** Whether the consumer thread records a failure of `consume()`. The
      thread only catches Exception, and its handler first logs the
      workitem's `wfid`, which raises KeyError or TypeError when the fei
      copied at construction has no "wfid". Either way the thread ends
      without recording the failure, so the callback sees no exception. */
  predicate Recorded(c: ConsumeOutcome)
  {
    c.Raised? && c.exc.isException && Wfid(c.workitem).Ok?
  }

  /** The workitem once the consumer thread has been joined. */
  function Settle(c: ConsumeOutcome): Workitem
  {
    if Recorded(c) then AttachFailure(c.workitem, c.exc, c.frames) else c.workitem
  }

  /** The workitem a decoded delivery leaves in `self.workitem`. */
  function Final(w: Workitem, c: ConsumeOutcome): Workitem
  {
    if IsCancel(w) then w else Settle(c)
  }

  /** `workitem_callback(msg)`. A body `json.loads` rejects is rejected
      without requeue and the ValueError re-raised. A decoded body that is
      not a dict with "fei" raises from the Workitem constructor, which the
      callback does not catch. Otherwise `consume()` runs unless the
      workitem is a cancel, a failure is attached, the delivery is
      acknowledged, and a reply follows unless the workitem is forgotten. */
  function WorkitemCallback(p: Participant, d: Delivery, c: ConsumeOutcome): (r: Step)
    requires p.chan.Some?
    ensures r.p.queue == p.queue && r.p.chan == p.chan && r.p.running == p.running
    ensures |r.p.log| >= |p.log| && r.p.log[..|p.log|] == p.log
    ensures d.body.Malformed? ==>
      r.p.log == p.log + [Reject(d.tag, false)] && r.raised == Some(ValueError) && r.p.workitem == p.workitem
    ensures d.body.Decoded? && FromJson(d.body.value).Err? ==>
      r.p == p && r.raised == Some(FromJson(d.body.value).error)
  {
    match d.body
    case Malformed =>
      Step(p.(log := p.log + [Reject(d.tag, false)]), Some(ValueError))
    case Decoded(j) =>
      match FromJson(j)
      case Err(e) => Step(p, Some(e))
      case Ok(w) =>
        var settled := Final(w, c);
        var acked := p.(workitem := Some(settled), log := p.log + [Ack(d.tag)]);
        if Forget(settled) then Step(acked, None)
        else
          match ReplyToEngine(acked, None)
          case Ok(replied) => Step(replied, None)
          case Err(e) => Step(acked, Some(e))
  }

  /** The channel actions one delivery may produce, following the
      per-delivery state machine: rejected; raised before acknowledgment;
      acknowledged and then forgotten (or the reply refused); acknowledged
      and then replied persistently to the engine's queue. */
  predicate DeliveryTrace(events: seq<Event>, tag: int, raised: Option<PyError>)
  {
    || (events == [Reject(tag, false)] && raised == Some(ValueError))
    || (events == [] && raised.Some?)
    || (events == [Ack(tag)] && (raised.None? || raised == Some(RuntimeError(NotOpen))))
    || (&& |events| == 2 && events[0] == Ack(tag) && raised.None?
        && events[1].Publish? && events[1].exchange == ReplyExchange
        && events[1].routingKey == ReplyRoutingKey && events[1].deliveryMode == Persistent)
  }

  /** Every callback follows the state machine. */
  lemma CallbackFollowsStateMachine(p: Participant, d: Delivery, c: ConsumeOutcome)
    requires p.chan.Some?
    ensures var r := WorkitemCallback(p, d, c);
      DeliveryTrace(r.p.log[|p.log|..], d.tag, r.raised)
  {
    var r := WorkitemCallback(p, d, c);
    if d.body.Decoded? && FromJson(d.body.value).Ok? {
      var w := FromJson(d.body.value).value;
      var settled := Final(w, c);
      if !Forget(settled) && ChannelOpen(p) {
        assert r.p.log == p.log + [Ack(d.tag), Publish(ReplyExchange, ReplyRoutingKey, ToJson(settled), Persistent)];
      }
    }
  }

  /** A decoded delivery is acknowledged exactly once, before anything is
      published, whatever `consume()` did; a reply is published exactly when
      the final workitem is not forgotten (and the channel is open), and it
      carries that workitem. */
  lemma {:induction false} DecodedIsAckedOnce(p: Participant, d: Delivery, c: ConsumeOutcome)
    requires p.chan.Some? && d.body.Decoded? && FromJson(d.body.value).Ok?
    ensures var r := WorkitemCallback(p, d, c);
      var fin := Final(FromJson(d.body.value).value, c);
      var events := r.p.log[|p.log|..];
      && |events| >= 1 && events[0] == Ack(d.tag)
      && (forall i :: 1 <= i < |events| ==> events[i].Publish?)
      && r.p.workitem == Some(fin)
      && (ChannelOpen(p) ==>
            && r.raised.None?
            && (|events| == 2 <==> !Forget(fin))
            && (|events| == 2 ==> events[1].body == ToJson(fin)))
  {
    var r := WorkitemCallback(p, d, c);
    var fin := Final(FromJson(d.body.value).value, c);
    if !Forget(fin) && ChannelOpen(p) {
      assert r.p.log == p.log + [Ack(d.tag), Publish(ReplyExchange, ReplyRoutingKey, ToJson(fin), Persistent)];
    } else {
      assert r.p.log == p.log + [Ack(d.tag)];
    }
  }

  /** When `consume()` raises an Exception on a workitem that is not a
      cancel, the description and backtrace are attached before the
      acknowledgment, and the rest of the workitem is as consume left it. */
  lemma FailureIsAttached(p: Participant, d: Delivery, c: ConsumeOutcome)
    requires p.chan.Some? && d.body.Decoded? && FromJson(d.body.value).Ok?
    requires !IsCancel(FromJson(d.body.value).value)
    requires c.Raised? && c.exc.isException && Wfid(c.workitem).Ok?
    ensures var fin := WorkitemCallback(p, d, c).p.workitem.value;
      && ErrorOf(fin) == Ok(JStr(FormatException(c.exc)))
      && TraceOf(fin) == Ok(TraceJson(FormatRubyBacktrace(c.frames)))
      && |TraceOf(fin).value.items| == |c.frames|
      && fin.fei == c.workitem.fei
      && forall k :: k in c.workitem.h && k != "error" && k != "trace" ==> k in fin.h && fin.h[k] == c.workitem.h[k]
  {
    DecodedIsAckedOnce(p, d, c);
  }

  /** The callback attaches a failure exactly when the consumer thread
      recorded one: when `consume()` returns, raises something that is not
      an Exception, or raises on a workitem without a "wfid", the final
      workitem is the one consume left, "error" and "trace" included. */
  lemma AttachedIffRecorded(p: Participant, d: Delivery, c: ConsumeOutcome)
    requires p.chan.Some? && d.body.Decoded? && FromJson(d.body.value).Ok?
    requires !IsCancel(FromJson(d.body.value).value)
    ensures WorkitemCallback(p, d, c).p.workitem == Some(c.workitem) <==>
      !Recorded(c) || AttachFailure(c.workitem, c.exc, c.frames) == c.workitem
  {
    DecodedIsAckedOnce(p, d, c);
  }

  /** A cancel workitem never reaches `consume()`: the outcome is the same
      whatever consume would have done, and nothing is attached. */
  lemma CancelSkipsConsume(p: Participant, d: Delivery, c1: ConsumeOutcome, c2: ConsumeOutcome)
    requires p.chan.Some? && d.body.Decoded? && FromJson(d.body.value).Ok?
    requires IsCancel(FromJson(d.body.value).value)
    ensures WorkitemCallback(p, d, c1) == WorkitemCallback(p, d, c2)
    ensures WorkitemCallback(p, d, c1).p.workitem == Some(FromJson(d.body.value).value)
  {
  }

  /** A failing `consume()` on a workitem that is not forgotten still leads
      to an acknowledgment and a reply whose "error" is a non-empty string
      and whose "trace" has one entry per frame. */
  lemma FailedConsumeStillReplies(p: Participant, d: Delivery, c: ConsumeOutcome)
    requires ChannelOpen(p) && d.body.Decoded? && FromJson(d.body.value).Ok?
    requires !IsCancel(FromJson(d.body.value).value)
    requires c.Raised? && c.exc.isException && Wfid(c.workitem).Ok? && !Forget(c.workitem)
    ensures var r := WorkitemCallback(p, d, c);
      && r.raised.None?
      && |r.p.log| == |p.log| + 2 && r.p.log[|p.log|] == Ack(d.tag)
      && var body := r.p.log[|p.log| + 1].body;
         && body.JObj? && "error" in body.members && "trace" in body.members
         && body.members["error"].JStr? && |body.members["error"].s| > 0
         && body.members["trace"].JArr? && |body.members["trace"].items| == |c.frames|
  {
    var fin := AttachFailure(c.workitem, c.exc, c.frames);
    assert Forget(fin) == Forget(c.workitem);
    DecodedIsAckedOnce(p, d, c);
  }

  /** A delivery settled once: rejected without requeue and nothing more,
      or acknowledged first with only replies after the acknowledgment. */
  predicate SettledOnce(events: seq<Event>, tag: int)
  {
    || events == [Reject(tag, false)]
    || (|events| >= 1 && events[0] == Ack(tag) && forall i :: 1 <= i < |events| ==> events[i].Publish?)
  }

  /** As written, a decoded body that is not a dict with "fei" makes the
      Workitem constructor raise before the delivery is acknowledged or
      rejected, so the message stays unacknowledged and the broker hands
      it out again on the next run. */
  lemma NotAWorkitemLeftUnsettled(p: Participant, d: Delivery, c: ConsumeOutcome)
    requires p.chan.Some? && d.body.Decoded? && FromJson(d.body.value).Err?
    ensures var r := WorkitemCallback(p, d, c);
      && !SettledOnce(r.p.log[|p.log|..], d.tag)
      && r.raised.Some?
  {
    var r := WorkitemCallback(p, d, c);
    assert r.p.log[|p.log|..] == [];
  }

  /** The callback with every undecodable message treated alike: a body
      that is not a workitem is rejected without requeue, as a malformed
      one is, and the constructor's exception is re-raised. */
  function WorkitemCallbackCorrected(p: Participant, d: Delivery, c: ConsumeOutcome): (r: Step)
    requires p.chan.Some?
    ensures r.p.queue == p.queue && r.p.chan == p.chan && r.p.running == p.running
    ensures |r.p.log| >= |p.log| && r.p.log[..|p.log|] == p.log
  {
    if d.body.Decoded? && FromJson(d.body.value).Err? then
      Step(p.(log := p.log + [Reject(d.tag, false)]), Some(FromJson(d.body.value).error))
    else WorkitemCallback(p, d, c)
  }

  /** Under the corrected callback every delivery is settled exactly once:
      rejected exactly when its body is not a workitem, with the exception
      re-raised and nothing else done, and acknowledged otherwise. */
  lemma CorrectedSettlesEveryDelivery(p: Participant, d: Delivery, c: ConsumeOutcome)
    requires p.chan.Some?
    ensures var r := WorkitemCallbackCorrected(p, d, c);
      var events := r.p.log[|p.log|..];
      && SettledOnce(events, d.tag)
      && (events[0].Reject? <==> !(d.body.Decoded? && FromJson(d.body.value).Ok?))
      && (events[0].Reject? ==> r.raised.Some? && r.p.workitem == p.workitem)
  {
    if d.body.Decoded? && FromJson(d.body.value).Ok? {
      DecodedIsAckedOnce(p, d, c);
    }
  }

  /* ----------------------------------------------------------------------
     run / finish
     ---------------------------------------------------------------------- */

  /** `finish()`: cancel the subscription when the channel is open, and
      clear the running flag in every case. */
  function Finish(p: Participant): (r: Participant)
    ensures !r.running
    ensures r.chan == p.chan && r.workitem == p.workitem && r.queue == p.queue
    ensures ChannelOpen(p) ==> r.log == p.log + [CancelConsumer(p.chan.value.consumerTag)]
    ensures !ChannelOpen(p) ==> r.log == p.log
  {
    var cancelled := if ChannelOpen(p) then p.(log := p.log + [CancelConsumer(p.chan.value.consumerTag)]) else p;
    cancelled.(running := false)
  }

  /** What happens while `run()` blocks in `self._chan.wait()`: a delivery
      is dispatched to the callback, the wait itself raises, or `finish()`
      is called from elsewhere and takes effect before the next check of
      the running flag. */
  datatype LoopStep =
    | Deliver(delivery: Delivery, consume: ConsumeOutcome)
    | WaitFails(error: PyError)
    | FinishCalled

  /** One call of `run()`: whether connecting and opening the channel
      raised, the consumer tag the broker hands out, and what the wait loop
      then meets. */
  datatype Session = Session(connectError: Option<PyError>, consumerTag: string, steps: seq<LoopStep>)

  /** How the wait loop ended: the running flag was found cleared, an
      exception escaped, or the session ran out while still waiting. */
  datatype LoopEnd =
    | LoopExited(p: Participant)
    | LoopRaised(p: Participant, error: PyError)
    | LoopBlocked(p: Participant)

  /** `while self._running: self._chan.wait()`. */
  function Loop(p: Participant, steps: seq<LoopStep>): (r: LoopEnd)
    requires p.chan.Some?
    ensures r.p.chan == p.chan && r.p.queue == p.queue
    ensures |r.p.log| >= |p.log| && r.p.log[..|p.log|] == p.log
    ensures r.LoopExited? ==> !r.p.running
    ensures r.LoopBlocked? ==> r.p.running
    decreases |steps|
  {
    if !p.running then LoopExited(p)
    else if |steps| == 0 then LoopBlocked(p)
    else
      match steps[0]
      case Deliver(d, c) =>
        var s := WorkitemCallback(p, d, c);
        if s.raised.Some? then LoopRaised(s.p, s.raised.value) else Loop(s.p, steps[1..])
      case WaitFails(e) => LoopRaised(p, e)
      case FinishCalled => Loop(Finish(p), steps[1..])
  }

  /** How a call of `run()` ended: it returned, it raised, or it is still
      blocked in the wait loop when the session runs out. */
  datatype RunOutcome =
    | Completed(p: Participant)
    | Aborted(p: Participant, error: PyError)
    | Waiting(p: Participant)

  /** Leaving the `with` block closes the channel. */
  function CloseChannel(p: Participant): (r: Participant)
    ensures !ChannelOpen(r)
    ensures r.log == p.log && r.running == p.running && r.queue == p.queue && r.workitem == p.workitem
  {
    if p.chan.Some? then p.(chan := Some(p.chan.value.(isOpen := false))) else p
  }

  /** `run()`: refuse to start twice; otherwise connect, open the channel,
      set the running flag and wait for deliveries. Whatever escapes clears
      the running flag before it is re-raised. */
  function Run(p: Participant, s: Session): (r: RunOutcome)
    ensures p.running ==> r == Aborted(p, RuntimeError(AlreadyRunning))
    ensures !p.running ==> (r.p.running <==> r.Waiting?)
    ensures |r.p.log| >= |p.log| && r.p.log[..|p.log|] == p.log
    ensures !p.running && s.connectError.None? && !r.Waiting? ==> !ChannelOpen(r.p)
  {
    if p.running then Aborted(p, RuntimeError(AlreadyRunning))
    else if s.connectError.Some? then Aborted(p.(running := false), s.connectError.value)
    else
      var started := OpenChannel(p, s.consumerTag).(running := true);
      match Loop(started, s.steps)
      case LoopExited(q) => Completed(CloseChannel(q))
      case LoopRaised(q, e) => Aborted(CloseChannel(q).(running := false), e)
      case LoopBlocked(q) => Waiting(q)
  }

  /** A fresh channel is set up before anything is delivered, with the
      prefetch, queue and subscription settings, and an open one is reused
      without setting it up again. */
  lemma RunSetsUpBeforeDeliveries(p: Participant, s: Session)
    requires !p.running && s.connectError.None?
    ensures var log := Run(p, s).p.log;
      if ChannelOpen(p) then true
      else |log| >= |p.log| + 3 && log[|p.log|..|p.log| + 3] == SetupEvents(p.queue)
  {
    var started := OpenChannel(p, s.consumerTag).(running := true);
    var end := Loop(started, s.steps);
    assert end.p.log[..|started.log|] == started.log;
    if !ChannelOpen(p) {
      assert started.log[|p.log|..] == SetupEvents(p.queue);
    }
  }

  /** A body `json.loads` rejects is rejected without requeue, and the
      re-raised ValueError ends `run()` with the running flag cleared. */
  lemma MalformedDeliveryEndsRun(p: Participant, s: Session, tag: int, c: ConsumeOutcome)
    requires !p.running && s.connectError.None?
    requires |s.steps| >= 1 && s.steps[0] == Deliver(Delivery(tag, Malformed), c)
    ensures var r := Run(p, s);
      && r.Aborted? && r.error == ValueError && !r.p.running
      && r.p.log == OpenChannel(p, s.consumerTag).log + [Reject(tag, false)]
  {
  }
  /** `finish()` while `run()` waits cancels the subscription and makes
      `run()` return normally with the channel closed; a second `run()`
      is then allowed to start again. */
  lemma FinishEndsRun(p: Participant, s: Session)
    requires !p.running && !ChannelOpen(p) && s.connectError.None?
    requires |s.steps| >= 1 && s.steps[0] == FinishCalled
    ensures var r := Run(p, s);
      && r.Completed? && !r.p.running && !ChannelOpen(r.p)
      && r.p.log == p.log + SetupEvents(p.queue) + [CancelConsumer(s.consumerTag)]
      && Run(r.p, s).Completed?
  {
    var started := OpenChannel(p, s.consumerTag).(running := true);
    var stopped := Finish(started);
    assert Loop(stopped, s.steps[1..]) == LoopExited(stopped);
    assert Loop(started, s.steps) == LoopExited(stopped);
    var r := Run(p, s);
    assert r == Completed(CloseChannel(stopped));
    var again := OpenChannel(r.p, s.consumerTag).(running := true);
    assert Loop(Finish(again), s.steps[1..]) == LoopExited(Finish(again));
    assert Loop(again, s.steps) == LoopExited(Finish(again));
  }
}
