/**
 The Feishu channel adapter as a state machine: the `_running` flag, the handles that
 `start` creates and `stop` releases (event queue, thread pool, API client, WebSocket
 client, processor task), and the list of publications the message bus has received.

 The inbound path is split into its two halves: `Callback` (the synchronous handler on
 the WebSocket thread, which may append one record to the queue) and `Step` (one
 iteration of the processor loop, which takes the head of the queue and publishes it
 if the sender is admitted). `Run` interleaves the two.
 */
module Channel {
  import opened Optional
  import opened Events
  import opened Outbound
  import opened Processor

  /** The credentials the channel is configured with. A missing value is `""`. */
  datatype Config = Config(appId: string, appSecret: string)

  /** The processor task handle: never created, running, or cancelled by `stop`. */
  datatype TaskState = NoTask | Active | Cancelled

  datatype State = State(
    running: bool,                       // `_running`
    queue: Option<seq<QueuedEvent>>,     // `_event_queue`, front first; None before start
    executor: bool,                      // `_executor` is set
    apiClient: bool,                     // `_client` is set
    wsClient: bool,                      // `_ws_client` is set
    task: TaskState,                     // `_process_task`
    published: seq<Publication>)         // what the bus has received, oldest first

  /** A freshly constructed channel. */
  const Initial: State := State(false, None, false, false, false, NoTask, [])

  predicate HasCredentials(cfg: Config)
  {
    cfg.appId != "" && cfg.appSecret != ""
  }

  /** Nothing of the running channel is held any more. */
  predicate Released(st: State)
  {
    !st.running && !st.executor && !st.apiClient && !st.wsClient && st.task != Active
  }

  /** The events waiting on the queue (none when there is no queue). */
  function Pending(st: State): seq<QueuedEvent>
  {
    if st.queue.Some? then st.queue.value else []
  }

  /**
   `start`, up to the point where it hands the blocking WebSocket loop to the thread
   pool. Without both credentials it returns having changed nothing. Otherwise it sets
   the running flag; if the SDK can be imported (`sdkAvailable`) it then creates a new
   empty queue, the thread pool, both clients and the processor task.
   */
  function Start(st: State, cfg: Config, sdkAvailable: bool): (r: State)
    ensures !HasCredentials(cfg) ==> r == st
    ensures HasCredentials(cfg) ==> r.running
    ensures HasCredentials(cfg) && sdkAvailable ==>
              r.queue == Some([]) && r.executor && r.apiClient && r.wsClient && r.task == Active
    // a failed SDK import leaves every handle as it was
    ensures !sdkAvailable ==> r.(running := st.running) == st
    ensures r.published == st.published
  {
    if !HasCredentials(cfg) then st
    else if !sdkAvailable then st.(running := true)
    else st.(running := true, queue := Some([]), executor := true, apiClient := true,
             wsClient := true, task := Active)
  }

  /**
   `stop`: clears the running flag, cancels the processor task (the handle itself is
   kept), stops and drops the WebSocket client, drops the API client and shuts the
   thread pool down. The queue and whatever is still on it are left in place.
   */
  function Stop(st: State): (r: State)
    ensures Released(r)
    ensures r.queue == st.queue && r.published == st.published
    ensures r.task == NoTask <==> st.task == NoTask
  {
    st.(running := false,
        task := if st.task == NoTask then NoTask else Cancelled,
        wsClient := false, apiClient := false, executor := false)
  }

  /** `send`: nothing without an API client, otherwise the routed request. */
  function Send(st: State, msg: OutboundMessage): (r: SendOutcome)
    ensures !st.apiClient ==> r == NotSent(ClientNotRunning)
    ensures st.apiClient ==> r == Route(msg)
  {
    if !st.apiClient then NotSent(ClientNotRunning) else Route(msg)
  }

  /**
   `_on_message_event`: before the queue exists every event is ignored; afterwards the
   normalised record is appended to the queue when the event is accepted and the `put`
   scheduled on the event loop runs (`handoffOk`); when it fails the event is lost.
   */
  function Callback(st: State, ev: RawEvent, decode: string -> Decoded, handoffOk: bool): (r: State)
    ensures st.queue.None? || Normalise(ev, decode).Drop? || !handoffOk ==> r == st
    ensures st.queue.Some? && Normalise(ev, decode).Accept? && handoffOk ==>
              r == st.(queue := Some(Pending(st) + [Normalise(ev, decode).event]))
  {
    if st.queue.None? then st
    else match Normalise(ev, decode)
      case Drop(_) => st
      case Accept(e) => if handoffOk then st.(queue := Some(st.queue.value + [e])) else st
  }

  /** The processor loop is live: running, its task not cancelled, and a queue to read. */
  predicate Enabled(st: State)
  {
    st.running && st.task == Active && st.queue.Some?
  }

  /**
   One iteration of `_process_events`: take the head of the queue and publish it when
   its sender is admitted. An empty queue times out and changes nothing, and so does a
   processor that is no longer live.
   */
  function Step(st: State, allowed: string -> bool): (r: State)
    ensures !Enabled(st) || Pending(st) == [] ==> r == st
    ensures Enabled(st) && Pending(st) != [] ==> |Pending(r)| == |Pending(st)| - 1
    // only the queue and the bus change
    ensures r == st.(queue := r.queue, published := r.published)
    ensures r.queue.Some? == st.queue.Some?
    // the head of the queue is consumed, and published exactly when it is admitted
    ensures Enabled(st) && Pending(st) != [] ==>
              && Pending(r) == Pending(st)[1..]
              && r.published == st.published + PublishIfAllowed(Pending(st)[0], allowed)
  {
    if !Enabled(st) || st.queue.value == [] then st
    else
      var q := st.queue.value;
      st.(queue := Some(q[1..]), published := st.published + PublishIfAllowed(q[0], allowed))
  }

  /**
   Nothing is lost or reordered by a processor iteration: what the bus has received,
   followed by what the pending queue and any later arrivals will publish, is unchanged.
   */
  lemma StepIsFifo(st: State, later: seq<QueuedEvent>, allowed: string -> bool)
    ensures Step(st, allowed).published + Publications(Pending(Step(st, allowed)) + later, allowed)
            == st.published + Publications(Pending(st) + later, allowed)
  {
    var q := Pending(st);
    if Enabled(st) && q != [] {
      assert (q + later)[1..] == q[1..] + later;
      assert (q + later)[0] == q[0];
    }
  }

  /**
   The processor loop run until the queue is empty: every pending event is consumed
   and the bus receives exactly the admitted ones, in queue order.
   */
  method Drain(st: State, allowed: string -> bool) returns (r: State)
    ensures !Enabled(st) ==> r == st
    ensures Enabled(st) ==> r == st.(queue := Some([]), published := r.published)
    ensures Enabled(st) ==> r.published == st.published + Publications(Pending(st), allowed)
  {
    r := st;
    while Enabled(r) && Pending(r) != []
      invariant !Enabled(st) ==> r == st
      invariant r == st.(queue := r.queue, published := r.published)
      invariant r.queue.Some? == st.queue.Some?
      invariant r.published + Publications(Pending(r), allowed)
                == st.published + Publications(Pending(st), allowed)
      decreases |Pending(r)|
    {
      StepIsFifo(r, [], allowed);
      assert Pending(r) + [] == Pending(r);
      assert Pending(Step(r, allowed)) + [] == Pending(Step(r, allowed));
      r := Step(r, allowed);
    }
  }

  /** One thing that can happen to a running channel: an inbound event, or a processor iteration. */
  datatype Action = Deliver(ev: RawEvent, handoffOk: bool) | Process

  function Apply(st: State, a: Action, decode: string -> Decoded, allowed: string -> bool): State
  {
    match a
    case Deliver(ev, ok) => Callback(st, ev, decode, ok)
    case Process => Step(st, allowed)
  }

  /** The channel after a sequence of actions, applied first to last. */
  function Run(st: State, acts: seq<Action>, decode: string -> Decoded, allowed: string -> bool): State
    decreases |acts|
  {
    if acts == [] then st else Run(Apply(st, acts[0], decode, allowed), acts[1..], decode, allowed)
  }

  /** The record one action puts on an existing queue: the accepted event of a completed hand-off. */
  function Arrival(a: Action, decode: string -> Decoded): seq<QueuedEvent>
  {
    match a
    case Deliver(ev, ok) =>
      if ok && Normalise(ev, decode).Accept? then [Normalise(ev, decode).event] else []
    case Process => []
  }

  /** The records a sequence of actions puts on an existing queue, in arrival order. */
  function Arrivals(acts: seq<Action>, decode: string -> Decoded): seq<QueuedEvent>
    decreases |acts|
  {
    if acts == [] then [] else Arrival(acts[0], decode) + Arrivals(acts[1..], decode)
  }

  /** One action keeps published-then-pending intact, whatever arrives after it. */
  lemma ApplyIsFifo(st: State, a: Action, later: seq<QueuedEvent>, decode: string -> Decoded, allowed: string -> bool)
    requires st.queue.Some?
    ensures Apply(st, a, decode, allowed).queue.Some?
    ensures Apply(st, a, decode, allowed).published + Publications(Pending(Apply(st, a, decode, allowed)) + later, allowed)
            == st.published + Publications(Pending(st) + Arrival(a, decode) + later, allowed)
  {
    var st' := Apply(st, a, decode, allowed);
    match a
    case Deliver(ev, ok) =>
      assert Pending(st') == Pending(st) + Arrival(a, decode);
    case Process =>
      assert Pending(st) + Arrival(a, decode) == Pending(st);
      StepIsFifo(st, later, allowed);
  }

  /** Chains two conservation steps across one action and the rest of a run. */
  lemma FifoChain(fin: State, mid: State, st: State, here: seq<QueuedEvent>, later: seq<QueuedEvent>, allowed: string -> bool)
    requires fin.published + Publications(Pending(fin), allowed)
             == mid.published + Publications(Pending(mid) + later, allowed)
    requires mid.published + Publications(Pending(mid) + later, allowed)
             == st.published + Publications(Pending(st) + here + later, allowed)
    ensures fin.published + Publications(Pending(fin), allowed)
            == st.published + Publications(Pending(st) + (here + later), allowed)
  {
    AppendAssociative(Pending(st), here, later);
  }

  lemma AppendAssociative<T>(a: seq<T>, b: seq<T>, c: seq<T>)
    ensures a + b + c == a + (b + c)
  {
  }

  /**
   FIFO delivery under any interleaving of callbacks and processor iterations: what the
   bus has received, followed by what the pending queue will publish, is what was
   published before, followed by what the old queue and all new arrivals publish.
   */
  lemma {:induction false} RunIsFifo(st: State, acts: seq<Action>, decode: string -> Decoded, allowed: string -> bool)
    requires st.queue.Some?
    ensures Run(st, acts, decode, allowed).queue.Some?
    ensures Run(st, acts, decode, allowed).published + Publications(Pending(Run(st, acts, decode, allowed)), allowed)
            == st.published + Publications(Pending(st) + Arrivals(acts, decode), allowed)
    decreases |acts|
  {
    if acts == [] {
      assert Pending(st) + Arrivals(acts, decode) == Pending(st);
    } else {
      var st' := Apply(st, acts[0], decode, allowed);
      var rest := acts[1..];
      RunIsFifo(st', rest, decode, allowed);
      ApplyIsFifo(st, acts[0], Arrivals(rest, decode), decode, allowed);
      FifoChain(Run(st', rest, decode, allowed), st', st, Arrival(acts[0], decode), Arrivals(rest, decode), allowed);
    }
  }

  /** Once the queue has been emptied, the bus holds exactly the admitted arrivals, in order. */
  lemma DrainedRunPublishesArrivals(st: State, acts: seq<Action>, decode: string -> Decoded, allowed: string -> bool)
    requires st.queue == Some([])
    requires Pending(Run(st, acts, decode, allowed)) == []
    ensures Run(st, acts, decode, allowed).published == st.published + Publications(Arrivals(acts, decode), allowed)
  {
    RunIsFifo(st, acts, decode, allowed);
    assert [] + Arrivals(acts, decode) == Arrivals(acts, decode);
  }

  /**
   After `stop` nothing more reaches the bus: callbacks may still append to the queue,
   but the processor is no longer live, so events left queued are never published.
   */
  lemma {:induction false} StoppedPublishesNothing(st: State, acts: seq<Action>, decode: string -> Decoded, allowed: string -> bool)
    requires !st.running
    ensures !Run(st, acts, decode, allowed).running
    ensures Run(st, acts, decode, allowed).published == st.published
    decreases |acts|
  {
    if acts != [] {
      StoppedPublishesNothing(Apply(st, acts[0], decode, allowed), acts[1..], decode, allowed);
    }
  }

  /** `start` without credentials leaves a fresh channel stopped, with nothing created. */
  lemma StartWithoutCredentials(cfg: Config, sdkAvailable: bool, msg: OutboundMessage)
    requires !HasCredentials(cfg)
    ensures Start(Initial, cfg, sdkAvailable) == Initial
    ensures Send(Start(Initial, cfg, sdkAvailable), msg) == NotSent(ClientNotRunning)
  {
  }

  /** `stop` twice is `stop` once, and `start` then `stop` releases everything `start` took. */
  lemma StopIdempotent(st: State, cfg: Config, sdkAvailable: bool)
    ensures Stop(Stop(st)) == Stop(st)
    ensures Released(Stop(Start(st, cfg, sdkAvailable)))
  {
  }

  /** After `stop`, `send` issues no request. */
  lemma NoSendAfterStop(st: State, msg: OutboundMessage)
    ensures Send(Stop(st), msg) == NotSent(ClientNotRunning)
  {
  }

  /**
   A reply to a published event, addressed with the publication's chat id and metadata,
   goes back to the conversation it came from: a create request to the chat for a p2p
   event, a reply to the original message for any other chat type that has a message id,
   and no request at all for one that has none.
   */
  lemma ReplyReachesOrigin(st: State, e: QueuedEvent, content: string, channel: string)
    requires st.apiClient
    ensures var p := Publish(e);
            var out := Send(st, OutboundMessage(channel, p.chatId, content, p.metadata));
            && (e.chatType == P2P ==>
                  out == Issued(Create(ChatIdType, e.chatId, TextMsgType, TextPayload(content))))
            && (e.chatType != P2P && e.messageId != "" ==>
                  out == Issued(Reply(e.messageId, TextMsgType, TextPayload(content))))
            && (e.chatType != P2P && e.messageId == "" ==> out == NotSent(MissingMessageId))
  {
  }

  /**
   A successful `start` with the SDK present leaves the processor live on an empty queue,
   whatever state it started from: the lifecycle hands `Step`, `Drain` and `Run` a
   channel on which every delivered event is processed.
   */
  lemma StartEnables(st: State, cfg: Config)
    requires HasCredentials(cfg)
    ensures Enabled(Start(st, cfg, true)) && Pending(Start(st, cfg, true)) == []
    ensures Start(st, cfg, true).published == st.published
  {
  }

  /** The allow-list {"U1"}. */
  predicate OnlyU1(sender: string)
  {
    sender == "U1"
  }

  /**
   The scenario with allow-list {"U1"}: three well-formed text events from U1, U2 and
   U1 are delivered to a freshly started channel and then processed; the bus receives
   the first and the third, in that order, and the second is dropped.
   */
  lemma AllowListScenario(e1: RawEvent, e2: RawEvent, e3: RawEvent, decode: string -> Decoded, cfg: Config)
    requires HasCredentials(cfg)
    requires e1.senderId == "U1" && e2.senderId == "U2" && e3.senderId == "U1"
    requires Normalise(e1, decode).Accept? && Normalise(e2, decode).Accept? && Normalise(e3, decode).Accept?
    ensures
      var st := Start(Initial, cfg, true);
      var acts := [Deliver(e1, true), Deliver(e2, true), Deliver(e3, true), Process, Process, Process];
      Run(st, acts, decode, OnlyU1).published
        == [Publish(Normalise(e1, decode).event), Publish(Normalise(e3, decode).event)]
  {
    var st := Start(Initial, cfg, true);
    var acts := [Deliver(e1, true), Deliver(e2, true), Deliver(e3, true), Process, Process, Process];
    var q1, q2, q3 := Normalise(e1, decode).event, Normalise(e2, decode).event, Normalise(e3, decode).event;
    var s1 := Callback(st, e1, decode, true);
    assert Pending(s1) == [q1];
    var s2 := Callback(s1, e2, decode, true);
    assert Pending(s2) == [q1, q2];
    var s3 := Callback(s2, e3, decode, true);
    assert Pending(s3) == [q1, q2, q3] && s3.published == [] && Enabled(s3);
    var s4 := Step(s3, OnlyU1);
    assert Pending(s4) == [q2, q3] && s4.published == [Publish(q1)];
    var s5 := Step(s4, OnlyU1);
    assert Pending(s5) == [q3] && s5.published == [Publish(q1)];
    var s6 := Step(s5, OnlyU1);
    assert s6.published == [Publish(q1), Publish(q3)];
    RunThreeThenThree(st, e1, e2, e3, decode, OnlyU1);
  }

  /** Three deliveries followed by three processor iterations, unfolded. */
  lemma RunThreeThenThree(st: State, e1: RawEvent, e2: RawEvent, e3: RawEvent, decode: string -> Decoded, allowed: string -> bool)
    ensures Run(st, [Deliver(e1, true), Deliver(e2, true), Deliver(e3, true), Process, Process, Process], decode, allowed)
            == Step(Step(Step(Callback(Callback(Callback(st, e1, decode, true), e2, decode, true), e3, decode, true), allowed), allowed), allowed)
  {
    var acts := [Deliver(e1, true), Deliver(e2, true), Deliver(e3, true), Process, Process, Process];
    var s1 := Callback(st, e1, decode, true);
    var s2 := Callback(s1, e2, decode, true);
    var s3 := Callback(s2, e3, decode, true);
    var s4 := Step(s3, allowed);
    var s5 := Step(s4, allowed);
    var s6 := Step(s5, allowed);
    assert Run(s6, acts[6..], decode, allowed) == s6;
    assert Run(s5, acts[5..], decode, allowed) == s6;
    assert Run(s4, acts[4..], decode, allowed) == s6;
    assert Run(s3, acts[3..], decode, allowed) == s6;
    assert Run(s2, acts[2..], decode, allowed) == s6;
    assert Run(s1, acts[1..], decode, allowed) == s6;
  }
}
