/**
 The running DAG: source adapters and processor loops joined by bounded channels, sources and sinks outside them,
 and the one goroutine that executes Stop. Any interleaving of their steps is a run.
 */
module DagEngine {
  import opened Wrappers

  datatype Message = Message(eventType: string, payload: string)

  datatype Kind = SourceChannel | InputChannel | SinkChannel

  /** One send that a loop owes: message `msg` on channel `channel`. */
  datatype Delivery = Delivery(channel: nat, msg: Message)

  /** A goroutine of the DAG. An adapter whose processor has no channel for the type drops what it takes. */
  datatype Job =
    | Adapter(input: nat, eventType: string, target: Option<nat>)
    | Loop(input: nat, outputs: map<string, seq<nat>>)

  /**
   The connected DAG: its channels, their common capacity, its goroutines, and the sink channels that it still knows by
   name; a sink channel replaced by a later one of the same name is forgotten, and Stop does not close it.
   */
  datatype Network = Network(kinds: seq<Kind>, capacity: nat, jobs: seq<Job>, sinks: set<nat>)
  {
    /** Loops read input channels and write input or sink channels; adapters go from a source to an input channel. */
    predicate WellFormed() {
      && (forall w :: 0 <= w < |jobs| ==> JobFits(jobs[w]))
      && forall c :: c in sinks ==> c < |kinds| && kinds[c] == SinkChannel
    }

    predicate JobFits(j: Job) {
      && j.input < |kinds|
      && match j
         case Adapter(c, _, target) =>
           kinds[c] == SourceChannel && (target.Some? ==> target.value < |kinds| && kinds[target.value] == InputChannel)
         case Loop(c, outputs) =>
           kinds[c] == InputChannel
           && forall t, k :: t in outputs && 0 <= k < |outputs[t]| ==>
                outputs[t][k] < |kinds| && kinds[outputs[t][k]] != SourceChannel
    }
  }

  /** An entry of a channel's history; `who` is the goroutine that sent or took it, None for a source or a sink. */
  datatype Item = Item(who: Option<nat>, msg: Message)

  datatype Channel = Channel(sent: seq<Item>, taken: seq<Item>, buffer: seq<Message>, closed: bool)

  datatype Pc =
    | Selecting
    | Processing(msg: Message)
    | Sending(pending: seq<Delivery>)
    | Exited

  /**
   `taken`: the messages received; `results`: what Process returned for each (None: an error);
   `sent`: the sends made, in order.
   */
  datatype Worker = Worker(pc: Pc, taken: seq<Message>, results: seq<Option<seq<Message>>>, sent: seq<Delivery>)

  /** How far Stop has come. */
  datatype Stopper =
    | Running
    | ClosingSources(next: nat)   // the context is cancelled; channels below next have been considered
    | WaitingMain                 // waits for adapters and sources
    | WaitingLoops                // waits for processor loops
    | ClosingSinks(next: nat)
    | Stopped

  /** `live`: sources whose Events call has not returned. `panicked`: a send on a closed channel happened. */
  datatype State = State(
    net: Network, channels: seq<Channel>, workers: seq<Worker>,
    live: nat, cancelled: bool, stopper: Stopper, panicked: bool)
  {
    predicate Shaped() {
      net.WellFormed() && |channels| == |net.kinds| && |workers| == |net.jobs|
    }
  }

  datatype Step =
    | SourceSend(channel: nat, msg: Message)
    | SourceReturns
    | SinkTake(channel: nat)
    | Take(worker: nat)
    | SeeClosed(worker: nat)
    | SeeDone(worker: nat)
    | Processed(worker: nat, result: Option<seq<Message>>)
    | Send(worker: nat)
    | HandToWorker(sender: Option<nat>, channel: nat, msg: Message, worker: nat)   // capacity 0: both sides meet
    | HandToSink(worker: nat)
    | StopStep

  // ---------- What a loop owes ----------

  /** The channels listed for the message's type, in order. */
  function Listed(job: Job, m: Message): seq<nat> {
    match job
    case Adapter(_, _, target) => if target.Some? then [target.value] else []
    case Loop(_, outputs) => if m.eventType in outputs then outputs[m.eventType] else []
  }

  function ToAll(channels: seq<nat>, m: Message): (r: seq<Delivery>)
    ensures |r| == |channels|
  {
    if channels == [] then [] else ToAll(channels[..|channels| - 1], m) + [Delivery(channels[|channels| - 1], m)]
  }

  /** One Process result: every output once to every channel listed for its type. */
  function Fanned(job: Job, outputs: seq<Message>): seq<Delivery> {
    if outputs == [] then []
    else Fanned(job, outputs[..|outputs| - 1]) + ToAll(Listed(job, outputs[|outputs| - 1]), outputs[|outputs| - 1])
  }

  /** All results so far; a failed Process owes nothing. */
  function Owed(job: Job, results: seq<Option<seq<Message>>>): seq<Delivery> {
    if results == [] then []
    else
      var last := results[|results| - 1];
      Owed(job, results[..|results| - 1]) + if last.Some? then Fanned(job, last.value) else []
  }

  /** An adapter passes the payload on under its own event type. */
  function Adapted(job: Job, m: Message): Message
    requires job.Adapter?
  {
    Message(job.eventType, m.payload)
  }

  function SendOrSelect(pending: seq<Delivery>): Pc {
    if pending == [] then Selecting else Sending(pending)
  }

  function Finish(job: Job, w: Worker, result: Option<seq<Message>>): Worker {
    w.(results := w.results + [result],
       pc := SendOrSelect(if result.Some? then Fanned(job, result.value) else []))
  }

  /** A worker that takes a message: an adapter has nothing to compute. */
  function Taking(job: Job, w: Worker, m: Message): Worker {
    var w' := w.(taken := w.taken + [m], pc := Processing(m));
    if job.Adapter? then Finish(job, w', Some([Adapted(job, m)])) else w'
  }

  function Sent(w: Worker): Worker
    requires w.pc.Sending? && w.pc.pending != []
  {
    w.(sent := w.sent + [w.pc.pending[0]], pc := SendOrSelect(w.pc.pending[1..]))
  }

  function Pushed(c: Channel, who: Option<nat>, m: Message): Channel {
    c.(sent := c.sent + [Item(who, m)], buffer := c.buffer + [m])
  }

  function Popped(c: Channel, who: Option<nat>): Channel
    requires c.buffer != []
  {
    c.(taken := c.taken + [Item(who, c.buffer[0])], buffer := c.buffer[1..])
  }

  /** Both sides of an unbuffered channel at once. */
  function Passed(c: Channel, from: Option<nat>, to: Option<nat>, m: Message): Channel {
    c.(sent := c.sent + [Item(from, m)], taken := c.taken + [Item(to, m)])
  }

  // ---------- Steps ----------

  predicate IsSending(s: State, w: nat)
    requires s.Shaped()
  {
    && w < |s.workers| && s.workers[w].pc.Sending? && s.workers[w].pc.pending != []
    && s.workers[w].pc.pending[0].channel < |s.channels|
  }

  /** A source may send while its Events call runs; nothing tells it that Stop has closed its channel. */
  predicate SourceMaySend(s: State, c: nat)
    requires s.Shaped()
  {
    c < |s.channels| && s.net.kinds[c] == SourceChannel && s.live > 0
  }

  /** A panic ends the whole process: nothing can step after it. */
  predicate CanStep(s: State, step: Step) {
    && s.Shaped() && !s.panicked
    && match step
       case SourceSend(c, _) =>
         SourceMaySend(s, c) && (s.channels[c].closed || |s.channels[c].buffer| < s.net.capacity)
       case SourceReturns => s.live > 0
       case SinkTake(c) => c < |s.channels| && s.net.kinds[c] == SinkChannel && s.channels[c].buffer != []
       case Take(w) =>
         w < |s.workers| && s.workers[w].pc.Selecting? && s.channels[s.net.jobs[w].input].buffer != []
       case SeeClosed(w) =>
         w < |s.workers| && s.workers[w].pc.Selecting?
         && s.channels[s.net.jobs[w].input].closed && s.channels[s.net.jobs[w].input].buffer == []
       case SeeDone(w) =>
         w < |s.workers| && s.cancelled && (s.workers[w].pc.Selecting? || s.workers[w].pc.Sending?)
       case Processed(w, _) => w < |s.workers| && s.workers[w].pc.Processing?
       case Send(w) =>
         IsSending(s, w) && (var c := s.channels[s.workers[w].pc.pending[0].channel];
                             c.closed || |c.buffer| < s.net.capacity)
       case HandToWorker(from, c, m, v) =>
         && s.net.capacity == 0 && v < |s.workers| && s.workers[v].pc.Selecting? && s.net.jobs[v].input == c
         && s.channels[c].buffer == [] && !s.channels[c].closed
         && (match from
             case None => SourceMaySend(s, c)
             case Some(w) => w != v && IsSending(s, w) && s.workers[w].pc.pending[0] == Delivery(c, m))
       case HandToSink(w) =>
         && s.net.capacity == 0 && IsSending(s, w)
         && (var c := s.workers[w].pc.pending[0].channel;
             s.net.kinds[c] == SinkChannel && s.channels[c].buffer == [] && !s.channels[c].closed)
       case StopStep =>
         match s.stopper
         case Running => true
         case ClosingSources(_) => true
         case WaitingMain => s.live == 0 && AllExited(s, true)
         case WaitingLoops => AllExited(s, false)
         case ClosingSinks(_) => true
         case Stopped => false
  }

  /** Every adapter (or every loop) has exited. */
  predicate AllExited(s: State, adapters: bool)
    requires s.Shaped()
  {
    forall w :: 0 <= w < |s.workers| && s.net.jobs[w].Adapter? == adapters ==> s.workers[w].pc.Exited?
  }

  /** Stop closes channel c in this step. */
  predicate StopCloses(s: State, c: nat)
    requires s.Shaped() && c < |s.channels|
  {
    || (s.stopper == ClosingSources(c) && s.net.kinds[c] == SourceChannel)
    || (s.stopper == ClosingSinks(c) && c in s.net.sinks)
  }

  function StopperAfter(s: State): Stopper
    requires CanStep(s, StopStep)
  {
    match s.stopper
    case Running => ClosingSources(0)
    case ClosingSources(n) => if n < |s.channels| then ClosingSources(n + 1) else WaitingMain
    case WaitingMain => WaitingLoops
    case WaitingLoops => ClosingSinks(0)
    case ClosingSinks(n) => if n < |s.channels| then ClosingSinks(n + 1) else Stopped
  }

  /** The delivery a sending worker makes next. */
  function Pending(s: State, w: nat): Delivery
    requires s.Shaped() && IsSending(s, w)
  {
    s.workers[w].pc.pending[0]
  }

  /** What a step does to channel c. */
  function ChannelAfter(s: State, step: Step, c: nat): Channel
    requires CanStep(s, step) && c < |s.channels|
  {
    var ch := s.channels[c];
    match step
    case SourceSend(d, m) => if d == c then Pushed(ch, None, m) else ch
    case SinkTake(d) => if d == c then Popped(ch, None) else ch
    case Take(w) => if s.net.jobs[w].input == c then Popped(ch, Some(w)) else ch
    case Send(w) => if Pending(s, w).channel == c then Pushed(ch, Some(w), Pending(s, w).msg) else ch
    case HandToWorker(from, d, m, v) => if d == c then Passed(ch, from, Some(v), m) else ch
    case HandToSink(w) => if Pending(s, w).channel == c then Passed(ch, Some(w), None, Pending(s, w).msg) else ch
    case StopStep => if StopCloses(s, c) then ch.(closed := true) else ch
    case _ => ch
  }

  /** What a step does to worker w. */
  function WorkerAfter(s: State, step: Step, w: nat): Worker
    requires CanStep(s, step) && w < |s.workers|
  {
    var job, worker := s.net.jobs[w], s.workers[w];
    match step
    case Take(v) => if v == w then Taking(job, worker, s.channels[job.input].buffer[0]) else worker
    case SeeClosed(v) => if v == w then worker.(pc := Exited) else worker
    case SeeDone(v) => if v == w then worker.(pc := Exited) else worker
    case Processed(v, r) => if v == w then Finish(job, worker, r) else worker
    case Send(v) => if v == w then Sent(worker) else worker
    case HandToWorker(from, _, m, v) =>
      if v == w then Taking(job, worker, m) else if from == Some(w) then Sent(worker) else worker
    case HandToSink(v) => if v == w then Sent(worker) else worker
    case _ => worker
  }

  /** Sending on a closed channel panics. */
  predicate Panics(s: State, step: Step)
    requires CanStep(s, step)
  {
    || (step.Send? && s.channels[Pending(s, step.worker).channel].closed)
    || (step.SourceSend? && s.channels[step.channel].closed)
  }

  function ChannelsAfter(s: State, step: Step): (r: seq<Channel>)
    requires CanStep(s, step)
    ensures |r| == |s.channels|
  {
    seq(|s.channels|, c requires 0 <= c < |s.channels| => ChannelAfter(s, step, c))
  }

  function WorkersAfter(s: State, step: Step): (r: seq<Worker>)
    requires CanStep(s, step)
    ensures |r| == |s.workers|
  {
    seq(|s.workers|, w requires 0 <= w < |s.workers| => WorkerAfter(s, step, w))
  }

  function Next(s: State, step: Step): State
    requires CanStep(s, step)
  {
    if Panics(s, step) then s.(panicked := true)
    else
      s.(channels := ChannelsAfter(s, step),
         workers := WorkersAfter(s, step),
         live := if step.SourceReturns? then s.live - 1 else s.live,
         cancelled := s.cancelled || step.StopStep?,
         stopper := if step.StopStep? then StopperAfter(s) else s.stopper)
  }

  /** The DAG has been started and nothing has moved yet. */
  predicate Initial(s: State) {
    && s.Shaped() && !s.cancelled && s.stopper == Running && !s.panicked
    && (forall c :: 0 <= c < |s.channels| ==> s.channels[c] == Channel([], [], [], false))
    && forall w :: 0 <= w < |s.workers| ==> s.workers[w] == Worker(Selecting, [], [], [])
  }

  ghost predicate Possible(s: State, steps: seq<Step>)
    decreases |steps|
  {
    steps == [] || (CanStep(s, steps[0]) && Possible(Next(s, steps[0]), steps[1..]))
  }

  ghost function Run(s: State, steps: seq<Step>): State
    requires Possible(s, steps)
    decreases |steps|
  {
    if steps == [] then s else Run(Next(s, steps[0]), steps[1..])
  }
}
