/**
 What every interleaving of the DAG keeps: conservation on every channel, exact fan-out, and no send on a closed
 channel.
 */
module DagSafety {
  import opened Wrappers
  import opened DagEngine

  // ---------- Channels ----------

  function Messages(items: seq<Item>): (r: seq<Message>)
    ensures |r| == |items|
  {
    if items == [] then [] else Messages(items[..|items| - 1]) + [items[|items| - 1].msg]
  }

  /** The messages of a history that belong to `who`. */
  function Of(items: seq<Item>, who: Option<nat>): seq<Message> {
    if items == [] then []
    else
      var last := items[|items| - 1];
      Of(items[..|items| - 1], who) + if last.who == who then [last.msg] else []
  }

  /** The messages of `sent` that went to channel c. */
  function On(sent: seq<Delivery>, c: nat): seq<Message> {
    if sent == [] then []
    else
      var last := sent[|sent| - 1];
      On(sent[..|sent| - 1], c) + if last.channel == c then [last.msg] else []
  }

  lemma MessagesSnoc(items: seq<Item>, i: Item)
    ensures Messages(items + [i]) == Messages(items) + [i.msg]
  {
    assert (items + [i])[..|items|] == items;
  }

  lemma OfSnoc(items: seq<Item>, i: Item, who: Option<nat>)
    ensures Of(items + [i], who) == Of(items, who) + if i.who == who then [i.msg] else []
  {
    assert (items + [i])[..|items|] == items;
  }

  lemma OnSnoc(sent: seq<Delivery>, d: Delivery, c: nat)
    ensures On(sent + [d], c) == On(sent, c) + if d.channel == c then [d.msg] else []
  {
    assert (sent + [d])[..|sent|] == sent;
  }

  /** Nothing is lost, duplicated or reordered in a channel, and it never holds more than its capacity. */
  predicate ChannelOk(capacity: nat, c: Channel) {
    Messages(c.sent) == Messages(c.taken) + c.buffer && |c.buffer| <= capacity
  }

  lemma PushKeepsChannel(capacity: nat, c: Channel, who: Option<nat>, m: Message)
    requires ChannelOk(capacity, c) && |c.buffer| < capacity
    ensures ChannelOk(capacity, Pushed(c, who, m))
  {
    MessagesSnoc(c.sent, Item(who, m));
  }

  lemma PopKeepsChannel(capacity: nat, c: Channel, who: Option<nat>)
    requires ChannelOk(capacity, c) && c.buffer != []
    ensures ChannelOk(capacity, Popped(c, who))
  {
    MessagesSnoc(c.taken, Item(who, c.buffer[0]));
  }

  lemma PassKeepsChannel(capacity: nat, c: Channel, from: Option<nat>, to: Option<nat>, m: Message)
    requires ChannelOk(capacity, c) && c.buffer == []
    ensures ChannelOk(capacity, Passed(c, from, to, m))
  {
    MessagesSnoc(c.sent, Item(from, m));
    MessagesSnoc(c.taken, Item(to, m));
  }

  // ---------- Workers ----------

  /** Every delivery goes to a channel of the network that its job may write. */
  predicate Addressed(net: Network, ds: seq<Delivery>) {
    forall i :: 0 <= i < |ds| ==> ds[i].channel < |net.kinds| && net.kinds[ds[i].channel] != SourceChannel
  }

  /** A worker's sends so far, and those in hand, are exactly what its results oblige it to, in order. */
  predicate WorkerOk(net: Network, job: Job, w: Worker) {
    && |w.results| == |w.taken| - (if w.pc.Processing? then 1 else 0)
    && (job.Adapter? ==> forall i :: 0 <= i < |w.results| ==> w.results[i] == Some([Adapted(job, w.taken[i])]))
    && match w.pc
       case Selecting => w.sent == Owed(job, w.results)
       case Processing(m) => job.Loop? && w.taken[|w.taken| - 1] == m && w.sent == Owed(job, w.results)
       case Sending(p) => p != [] && Addressed(net, p) && w.sent + p == Owed(job, w.results)
       case Exited => w.sent <= Owed(job, w.results)
  }

  lemma {:induction false} ToAllIs(channels: seq<nat>, m: Message)
    ensures forall i :: 0 <= i < |channels| ==> ToAll(channels, m)[i] == Delivery(channels[i], m)
  {
    if channels != [] {
      ToAllIs(channels[..|channels| - 1], m);
    }
  }

  lemma ToAllAddressed(net: Network, channels: seq<nat>, m: Message)
    requires forall k :: 0 <= k < |channels| ==> channels[k] < |net.kinds| && net.kinds[channels[k]] != SourceChannel
    ensures Addressed(net, ToAll(channels, m))
  {
  }

  lemma {:induction false} FannedAddressed(net: Network, job: Job, outputs: seq<Message>)
    requires net.JobFits(job)
    ensures Addressed(net, Fanned(job, outputs))
  {
    if outputs != [] {
      FannedAddressed(net, job, outputs[..|outputs| - 1]);
      ToAllAddressed(net, Listed(job, outputs[|outputs| - 1]), outputs[|outputs| - 1]);
    }
  }

  lemma OwedSnoc(job: Job, results: seq<Option<seq<Message>>>, r: Option<seq<Message>>)
    ensures Owed(job, results + [r]) == Owed(job, results) + if r.Some? then Fanned(job, r.value) else []
  {
    assert (results + [r])[..|results|] == results;
  }

  /** Finishing one message, by an adapter or after Process returned, keeps the worker's account straight. */
  lemma FinishKeepsWorker(net: Network, job: Job, w: Worker, r: Option<seq<Message>>)
    requires net.JobFits(job) && |w.results| == |w.taken| - 1 && w.sent == Owed(job, w.results)
    requires job.Adapter? ==> r == Some([Adapted(job, w.taken[|w.taken| - 1])])
                              && forall i :: 0 <= i < |w.results| ==> w.results[i] == Some([Adapted(job, w.taken[i])])
    ensures WorkerOk(net, job, Finish(job, w, r))
  {
    hide Owed, Fanned, Addressed;
    OwedSnoc(job, w.results, r);
    if r.Some? {
      FannedAddressed(net, job, r.value);
    }
    assert Owed(job, w.results) + [] == Owed(job, w.results);
  }

  lemma TakingKeepsWorker(net: Network, job: Job, w: Worker, m: Message)
    requires net.JobFits(job) && WorkerOk(net, job, w) && w.pc.Selecting?
    ensures WorkerOk(net, job, Taking(job, w, m))
  {
    if job.Adapter? {
      FinishKeepsWorker(net, job, w.(taken := w.taken + [m], pc := Processing(m)), Some([Adapted(job, m)]));
    }
  }

  lemma SentKeepsWorker(net: Network, job: Job, w: Worker)
    requires WorkerOk(net, job, w) && w.pc.Sending?
    ensures WorkerOk(net, job, Sent(w))
  {
    hide Owed;
    var p := w.pc.pending;
    assert (w.sent + [p[0]]) + p[1..] == w.sent + p;
  }

  // ---------- The invariant ----------

  /** Histories agree: each channel records exactly each worker's own sends and takes, in its order. */
  predicate HistoriesAgree(s: State, c: nat, w: nat)
    requires s.Shaped() && c < |s.channels| && w < |s.workers|
  {
    && Of(s.channels[c].sent, Some(w)) == On(s.workers[w].sent, c)
    && Of(s.channels[c].taken, Some(w)) == (if s.net.jobs[w].input == c then s.workers[w].taken else [])
  }

  /** Which channels Stop has closed so far. Input channels are never closed. */
  predicate ClosedByNow(net: Network, stopper: Stopper, c: nat)
    requires c < |net.kinds|
  {
    match net.kinds[c]
    case SourceChannel =>
      (match stopper case Running => false case ClosingSources(n) => c < n case _ => true)
    case InputChannel => false
    case SinkChannel =>
      c in net.sinks && (match stopper case ClosingSinks(n) => c < n case Stopped => true case _ => false)
  }

  predicate StopOrder(s: State)
    requires s.Shaped()
  {
    && (s.cancelled <==> !s.stopper.Running?)
    && (s.stopper.ClosingSources? ==> s.stopper.next <= |s.channels|)
    && (s.stopper.ClosingSinks? ==> s.stopper.next <= |s.channels|)
    && (s.stopper.WaitingLoops? || s.stopper.ClosingSinks? || s.stopper.Stopped? ==> s.live == 0 && AllExited(s, true))
    && (s.stopper.ClosingSinks? || s.stopper.Stopped? ==> AllExited(s, false))
    && (!s.cancelled ==> forall w :: 0 <= w < |s.workers| ==> !s.workers[w].pc.Exited?)
  }

  predicate Inv(s: State) {
    && s.Shaped() && StopOrder(s)
    && (forall c :: 0 <= c < |s.channels| ==>
          && ChannelOk(s.net.capacity, s.channels[c])
          && (s.channels[c].closed <==> ClosedByNow(s.net, s.stopper, c)))
    && (forall w :: 0 <= w < |s.workers| ==> WorkerOk(s.net, s.net.jobs[w], s.workers[w]))
    && forall c, w :: 0 <= c < |s.channels| && 0 <= w < |s.workers| ==> HistoriesAgree(s, c, w)
  }

  lemma InitialInv(s: State)
    requires Initial(s)
    ensures Inv(s)
  {
  }

  /** A source sends on its own channel after Stop has closed it. */
  predicate SendsLate(s: State, step: Step)
    requires s.Shaped()
  {
    step.SourceSend? && step.channel < |s.channels| && s.channels[step.channel].closed
  }

  /**
   A goroutine of the DAG that is about to send finds its channel open: sinks close only after every loop has exited.
   Only a source can panic, by sending on its channel after Stop has closed it.
   */
  lemma NeverPanics(s: State, step: Step)
    requires Inv(s) && CanStep(s, step)
    ensures Panics(s, step) <==> SendsLate(s, step)
    ensures step.SourceSend? || !Panics(s, step)
  {
    if step.Send? {
      assert WorkerOk(s.net, s.net.jobs[step.worker], s.workers[step.worker]);
    }
  }

  lemma StepKeepsChannel(s: State, step: Step, c: nat)
    requires CanStep(s, step) && !Panics(s, step) && c < |s.channels| && ChannelOk(s.net.capacity, s.channels[c])
    ensures ChannelOk(s.net.capacity, ChannelAfter(s, step, c))
  {
    hide ChannelOk, Finish, Taking, Messages, Pushed, Popped, Passed;
    var n, ch := s.net.capacity, s.channels[c];
    match step {
      case SourceSend(d, m) => if c == d { PushKeepsChannel(n, ch, None, m); }
      case SinkTake(d) => if c == d { PopKeepsChannel(n, ch, None); }
      case Take(w) => if c == s.net.jobs[w].input { PopKeepsChannel(n, ch, Some(w)); }
      case Send(w) => if c == Pending(s, w).channel { PushKeepsChannel(n, ch, Some(w), Pending(s, w).msg); }
      case HandToWorker(from, d, m, v) => if c == d { PassKeepsChannel(n, ch, from, Some(v), m); }
      case HandToSink(w) => if c == Pending(s, w).channel { PassKeepsChannel(n, ch, Some(w), None, Pending(s, w).msg); }
      case StopStep => CloseKeepsChannel(n, ch);
      case _ =>
    }
  }

  lemma CloseKeepsChannel(capacity: nat, c: Channel)
    requires ChannelOk(capacity, c)
    ensures ChannelOk(capacity, c.(closed := true))
  {
  }

  /** Only Stop closes channels. */
  lemma StepKeepsClosed(s: State, step: Step, c: nat)
    requires CanStep(s, step) && c < |s.channels|
    requires s.channels[c].closed <==> ClosedByNow(s.net, s.stopper, c)
    requires s.stopper.ClosingSources? || s.stopper.ClosingSinks? ==> s.stopper.next <= |s.channels|
    ensures ChannelAfter(s, step, c).closed <==>
            ClosedByNow(s.net, if step.StopStep? then StopperAfter(s) else s.stopper, c)
  {
  }

  lemma ExitKeepsWorker(net: Network, job: Job, w: Worker)
    requires WorkerOk(net, job, w) && (w.pc.Selecting? || w.pc.Sending?)
    ensures WorkerOk(net, job, w.(pc := Exited))
  {
    if w.pc.Sending? {
      assert w.sent <= w.sent + w.pc.pending;
    }
  }

  lemma ProcessedKeepsWorker(net: Network, job: Job, w: Worker, r: Option<seq<Message>>)
    requires net.JobFits(job) && WorkerOk(net, job, w) && w.pc.Processing?
    ensures WorkerOk(net, job, Finish(job, w, r))
  {
    FinishKeepsWorker(net, job, w, r);
  }

  lemma StepKeepsWorker(s: State, step: Step, w: nat)
    requires CanStep(s, step) && w < |s.workers| && WorkerOk(s.net, s.net.jobs[w], s.workers[w])
    ensures WorkerOk(s.net, s.net.jobs[w], WorkerAfter(s, step, w))
  {
    hide WorkerOk, Finish, Taking;
    var job, worker := s.net.jobs[w], s.workers[w];
    assert s.net.JobFits(job);
    match step {
      case Take(v) => if v == w { TakingKeepsWorker(s.net, job, worker, s.channels[job.input].buffer[0]); }
      case SeeClosed(v) => if v == w { ExitKeepsWorker(s.net, job, worker); }
      case SeeDone(v) => if v == w { ExitKeepsWorker(s.net, job, worker); }
      case Processed(v, r) => if v == w { ProcessedKeepsWorker(s.net, job, worker, r); }
      case Send(v) => if v == w { SentKeepsWorker(s.net, job, worker); }
      case HandToSink(v) => if v == w { SentKeepsWorker(s.net, job, worker); }
      case HandToWorker(from, _, m, v) =>
        if v == w {
          TakingKeepsWorker(s.net, job, worker, m);
        } else if from == Some(w) {
          SentKeepsWorker(s.net, job, worker);
        }
      case _ =>
    }
  }

  /** The histories of a channel and a worker grow by the same entry, or neither does. */
  lemma StepKeepsSent(s: State, step: Step, c: nat, w: nat)
    requires CanStep(s, step) && c < |s.channels| && w < |s.workers|
    requires Of(s.channels[c].sent, Some(w)) == On(s.workers[w].sent, c)
    ensures Of(ChannelAfter(s, step, c).sent, Some(w)) == On(WorkerAfter(s, step, w).sent, c)
  {
    hide Of, On, Fanned;
    var ch := s.channels[c];
    match step {
      case SourceSend(_, m) => OfSnoc(ch.sent, Item(None, m), Some(w));
      case Send(v) =>
        OnSnoc(s.workers[v].sent, Pending(s, v), c);
        OfSnoc(ch.sent, Item(Some(v), Pending(s, v).msg), Some(w));
      case HandToWorker(from, d, m, _) =>
        OfSnoc(ch.sent, Item(from, m), Some(w));
        if from.Some? { OnSnoc(s.workers[from.value].sent, Delivery(d, m), c); }
      case HandToSink(v) =>
        OnSnoc(s.workers[v].sent, Pending(s, v), c);
        OfSnoc(ch.sent, Item(Some(v), Pending(s, v).msg), Some(w));
      case _ =>
    }
  }

  lemma StepKeepsTaken(s: State, step: Step, c: nat, w: nat)
    requires CanStep(s, step) && c < |s.channels| && w < |s.workers|
    requires Of(s.channels[c].taken, Some(w)) == if s.net.jobs[w].input == c then s.workers[w].taken else []
    ensures Of(ChannelAfter(s, step, c).taken, Some(w)) ==
            if s.net.jobs[w].input == c then WorkerAfter(s, step, w).taken else []
  {
    hide Of, Fanned, CanStep, ChannelAfter, WorkerAfter, Taken;
    TakenFromChannel(s, step, c);
    TakenByWorker(s, step, w);
    if Taken(s, step, c).Some? {
      OfSnoc(s.channels[c].taken, Taken(s, step, c).value, Some(w));
    }
    if s.net.jobs[w].input != c {
      TakenFromItsInput(s, step, c, w);
    }
  }

  /** What the step takes out of channel c, and who takes it. */
  function Taken(s: State, step: Step, c: nat): Option<Item>
    requires CanStep(s, step) && c < |s.channels|
  {
    match step
    case SinkTake(d) => if d == c then Some(Item(None, s.channels[c].buffer[0])) else None
    case Take(v) => if s.net.jobs[v].input == c then Some(Item(Some(v), s.channels[c].buffer[0])) else None
    case HandToWorker(_, d, m, v) => if d == c then Some(Item(Some(v), m)) else None
    case HandToSink(v) => if Pending(s, v).channel == c then Some(Item(None, Pending(s, v).msg)) else None
    case _ => None
  }

  lemma TakenFromChannel(s: State, step: Step, c: nat)
    requires CanStep(s, step) && c < |s.channels|
    ensures ChannelAfter(s, step, c).taken ==
            if Taken(s, step, c).Some? then s.channels[c].taken + [Taken(s, step, c).value] else s.channels[c].taken
  {
    hide Fanned, StopCloses;
  }

  lemma TakenByWorker(s: State, step: Step, w: nat)
    requires CanStep(s, step) && w < |s.workers|
    ensures w < |s.net.jobs| && s.net.jobs[w].input < |s.channels|
    ensures var i := Taken(s, step, s.net.jobs[w].input);
            WorkerAfter(s, step, w).taken ==
            if i.Some? && i.value.who == Some(w) then s.workers[w].taken + [i.value.msg] else s.workers[w].taken
  {
    hide Fanned;
    assert s.net.JobFits(s.net.jobs[w]);
  }

  /** A worker takes from its own input only. */
  lemma TakenFromItsInput(s: State, step: Step, c: nat, w: nat)
    requires CanStep(s, step) && c < |s.channels| && w < |s.workers| && s.net.jobs[w].input != c
    ensures Taken(s, step, c).Some? ==> Taken(s, step, c).value.who != Some(w)
  {
    hide Fanned;
  }

  /** No worker comes back from its exit, and none leaves before the context is cancelled. */
  lemma StepKeepsExits(s: State, step: Step, w: nat)
    requires CanStep(s, step) && w < |s.workers|
    requires forall c :: 0 <= c < |s.channels| && s.channels[c].closed ==> s.cancelled
    ensures s.workers[w].pc.Exited? ==> WorkerAfter(s, step, w).pc.Exited?
    ensures !s.workers[w].pc.Exited? && !s.cancelled ==> !WorkerAfter(s, step, w).pc.Exited?
  {
    hide Fanned;
    assert s.net.JobFits(s.net.jobs[w]);
  }

  lemma StepKeepsStopOrder(s: State, step: Step)
    requires CanStep(s, step) && !Panics(s, step) && StopOrder(s)
    requires forall c :: 0 <= c < |s.channels| && s.channels[c].closed ==> s.cancelled
    ensures Next(s, step).Shaped() && StopOrder(Next(s, step))
  {
    hide WorkerAfter, ChannelAfter, Panics, ChannelsAfter;
    forall w | 0 <= w < |s.workers|
      ensures s.workers[w].pc.Exited? ==> WorkerAfter(s, step, w).pc.Exited?
      ensures !s.workers[w].pc.Exited? && !s.cancelled ==> !WorkerAfter(s, step, w).pc.Exited?
    {
      StepKeepsExits(s, step, w);
    }
  }

  /** A panic changes nothing but that. */
  lemma PanicKeepsInv(s: State)
    requires Inv(s)
    ensures Inv(s.(panicked := true))
  {
    hide WorkerOk, ChannelOk, ClosedByNow;
    forall c, w | 0 <= c < |s.channels| && 0 <= w < |s.workers| ensures HistoriesAgree(s.(panicked := true), c, w) {
      assert HistoriesAgree(s, c, w);
    }
  }

  lemma StepKeepsInv(s: State, step: Step)
    requires Inv(s) && CanStep(s, step)
    ensures Inv(Next(s, step))
  {
    hide Inv;
    if Panics(s, step) {
      PanicKeepsInv(s);
    } else {
      QuietStepKeepsInv(s, step);
    }
  }

  lemma QuietStepKeepsInv(s: State, step: Step)
    requires Inv(s) && CanStep(s, step) && !Panics(s, step)
    ensures Inv(Next(s, step))
  {
    hide WorkerOk, ChannelOk, ChannelAfter, WorkerAfter, StopOrder, Panics, Of, On, ClosedByNow, StopperAfter, CanStep;
    ClosedMeansCancelled(s);
    StepKeepsStopOrder(s, step);
    var s' := Next(s, step);
    forall c | 0 <= c < |s.channels|
      ensures ChannelOk(s.net.capacity, s'.channels[c])
              && (s'.channels[c].closed <==> ClosedByNow(s.net, s'.stopper, c))
    {
      StopIndex(s);
      StepKeepsChannel(s, step, c);
      StepKeepsClosed(s, step, c);
    }
    forall w | 0 <= w < |s.workers| ensures WorkerOk(s.net, s.net.jobs[w], s'.workers[w]) {
      StepKeepsWorker(s, step, w);
    }
    forall c, w | 0 <= c < |s.channels| && 0 <= w < |s.workers| ensures HistoriesAgree(s', c, w) {
      assert HistoriesAgree(s, c, w);
      StepKeepsSent(s, step, c, w);
      StepKeepsTaken(s, step, c, w);
    }
  }

  lemma StopIndex(s: State)
    requires s.Shaped() && StopOrder(s)
    ensures s.stopper.ClosingSources? || s.stopper.ClosingSinks? ==> s.stopper.next <= |s.channels|
  {
  }

  lemma ClosedMeansCancelled(s: State)
    requires Inv(s)
    ensures forall c :: 0 <= c < |s.channels| && s.channels[c].closed ==> s.cancelled
  {
  }

  /**
   In every run: each channel's sends are its takes followed by its buffer, which never exceeds the capacity; every
   goroutine's sends are what its results oblige it to; and the run has panicked exactly if some source sent on its
   channel after Stop had closed it - no processor or adapter ever sends on a closed channel.
   */
  lemma {:induction false} EveryRun(s: State, steps: seq<Step>)
    requires Inv(s) && Possible(s, steps)
    ensures Inv(Run(s, steps)) && Run(s, steps).net == s.net
    ensures Run(s, steps).panicked <==> s.panicked || LateSendAlong(s, steps)
    ensures forall c :: 0 <= c < |Run(s, steps).channels| ==>
      var ch := Run(s, steps).channels[c];
      Messages(ch.sent) == Messages(ch.taken) + ch.buffer && |ch.buffer| <= s.net.capacity
    decreases |steps|
  {
    hide Next, CanStep;
    if steps == [] {
      assert forall c :: 0 <= c < |s.channels| ==> ChannelOk(s.net.capacity, s.channels[c]);
    } else {
      StepKeepsInv(s, steps[0]);
      NetStays(s, steps[0]);
      NeverPanics(s, steps[0]);
      EveryRun(Next(s, steps[0]), steps[1..]);
    }
  }

  /** At some point of the run a source sends late. */
  ghost predicate LateSendAlong(s: State, steps: seq<Step>)
    requires Possible(s, steps)
    decreases |steps|
  {
    steps != [] && (SendsLate(s, steps[0]) || LateSendAlong(Next(s, steps[0]), steps[1..]))
  }

  lemma NetStays(s: State, step: Step)
    requires CanStep(s, step)
    ensures !s.panicked && Next(s, step).net == s.net && (Next(s, step).panicked <==> Panics(s, step))
  {
  }

  // ---------- Fan-out ----------

  /** One output reaches a channel exactly as many times as the channel is listed for its type. */
  lemma {:induction false} OncePerListing(channels: seq<nat>, m: Message, c: nat)
    ensures |On(ToAll(channels, m), c)| == multiset(channels)[c]
    ensures forall i :: 0 <= i < |On(ToAll(channels, m), c)| ==> On(ToAll(channels, m), c)[i] == m
  {
    hide On;
    if channels == [] {
      OnNone(c);
    } else {
      var init, last := channels[..|channels| - 1], channels[|channels| - 1];
      OncePerListing(init, m, c);
      ListedSnoc(channels, c);
      OnSnoc(ToAll(init, m), Delivery(last, m), c);
    }
  }

  lemma OnNone(c: nat)
    ensures On([], c) == []
  {
  }

  lemma ListedSnoc(channels: seq<nat>, c: nat)
    requires channels != []
    ensures multiset(channels)[c] ==
            multiset(channels[..|channels| - 1])[c] + if channels[|channels| - 1] == c then 1 else 0
  {
    assert channels == channels[..|channels| - 1] + [channels[|channels| - 1]];
  }

  lemma {:induction false} OnConcat(a: seq<Delivery>, b: seq<Delivery>, c: nat)
    ensures On(a + b, c) == On(a, c) + On(b, c)
  {
    if b == [] {
      assert a + b == a;
    } else {
      var init, last := b[..|b| - 1], b[|b| - 1];
      OnConcat(a, init, c);
      assert b == init + [last] && a + b == (a + init) + [last];
      hide On;
      OnSnoc(a + init, last, c);
      OnSnoc(init, last, c);
    }
  }

  /**
   What a channel has from a goroutine is exactly what is owed to it once the goroutine is between two messages,
   and all but the sends in hand before; only cancellation lets a goroutine leave with sends unmade.
   */
  lemma EveryOutputFannedOut(s: State, w: nat, c: nat)
    requires Inv(s) && w < |s.workers| && c < |s.channels|
    ensures var worker := s.workers[w];
            var owed := On(Owed(s.net.jobs[w], worker.results), c);
            var got := Of(s.channels[c].sent, Some(w));
            if worker.pc.Sending? then got + On(worker.pc.pending, c) == owed
            else if worker.pc.Exited? then s.cancelled && got <= owed
            else got == owed
  {
    hide Owed, On, Of, StopOrder, ChannelOk, ClosedByNow, Addressed;
    var worker := s.workers[w];
    assert HistoriesAgree(s, c, w) && WorkerOk(s.net, s.net.jobs[w], worker);
    if worker.pc.Sending? {
      OnConcat(worker.sent, worker.pc.pending, c);
    } else if worker.pc.Exited? {
      LeavesAfterCancel(s, w);
      OnPrefix(worker.sent, Owed(s.net.jobs[w], worker.results), c);
    }
  }

  lemma LeavesAfterCancel(s: State, w: nat)
    requires Inv(s) && w < |s.workers| && s.workers[w].pc.Exited?
    ensures s.cancelled
  {
    hide HistoriesAgree, ChannelOk, WorkerOk, ClosedByNow;
  }

  lemma OnPrefix(a: seq<Delivery>, b: seq<Delivery>, c: nat)
    requires a <= b
    ensures On(a, c) <= On(b, c)
  {
    hide On;
    assert b == a + b[|a|..];
    OnConcat(a, b[|a|..], c);
  }

  // ---------- Who takes a message ----------

  /** Only workers of the channel, or a sink on a sink channel, have taken from it. */
  predicate TakersOk(kind: Kind, workers: nat, ch: Channel) {
    forall i :: 0 <= i < |ch.taken| ==>
      if ch.taken[i].who.Some? then ch.taken[i].who.value < workers else kind == SinkChannel
  }

  lemma {:induction false} TakersInEveryRun(s: State, steps: seq<Step>, c: nat)
    requires Possible(s, steps) && c < |s.channels| && s.Shaped()
    requires TakersOk(s.net.kinds[c], |s.workers|, s.channels[c])
    ensures var f := Run(s, steps);
            f.Shaped() && |f.channels| == |s.channels| && TakersOk(s.net.kinds[c], |s.workers|, f.channels[c])
    decreases |steps|
  {
    if steps != [] {
      TakersInStep(s, steps[0], c);
      TakersInEveryRun(Next(s, steps[0]), steps[1..], c);
    }
  }

  lemma TakersInStep(s: State, step: Step, c: nat)
    requires CanStep(s, step) && c < |s.channels| && TakersOk(s.net.kinds[c], |s.workers|, s.channels[c])
    ensures var f := Next(s, step);
            f.Shaped() && f.net == s.net && |f.workers| == |s.workers| && |f.channels| == |s.channels|
            && TakersOk(s.net.kinds[c], |s.workers|, f.channels[c])
  {
    hide Fanned, WorkerAfter;
  }

  /** How many messages the first n workers took from channel c. */
  function TakenBy(s: State, c: nat, n: nat): nat
    requires s.Shaped() && n <= |s.workers|
  {
    if n == 0 then 0
    else TakenBy(s, c, n - 1) + if s.net.jobs[n - 1].input == c then |s.workers[n - 1].taken| else 0
  }

  function CountOf(items: seq<Item>, n: nat): nat {
    if n == 0 then 0 else CountOf(items, n - 1) + |Of(items, Some(n - 1))|
  }

  lemma {:induction false} CountOfSnoc(items: seq<Item>, i: Item, n: nat)
    ensures CountOf(items + [i], n) == CountOf(items, n) + if i.who.Some? && i.who.value < n then 1 else 0
  {
    hide Of;
    if n > 0 {
      CountOfSnoc(items, i, n - 1);
      OfSnoc(items, i, Some(n - 1));
    }
  }

  lemma {:induction false} CountOfNothing(n: nat)
    ensures CountOf([], n) == 0
  {
    if n > 0 {
      CountOfNothing(n - 1);
    }
  }

  lemma {:induction false} EveryTakeHasATaker(items: seq<Item>, n: nat)
    requires forall i :: 0 <= i < |items| ==> items[i].who.Some? && items[i].who.value < n
    ensures CountOf(items, n) == |items|
  {
    if items == [] {
      CountOfNothing(n);
    } else {
      var init := items[..|items| - 1];
      EveryTakeHasATaker(init, n);
      assert items == init + [items[|items| - 1]];
      CountOfSnoc(init, items[|items| - 1], n);
    }
  }

  lemma {:induction false} TakenByIsCount(s: State, c: nat, n: nat)
    requires s.Shaped() && c < |s.channels| && n <= |s.workers|
    requires forall w :: 0 <= w < n ==> HistoriesAgree(s, c, w)
    ensures TakenBy(s, c, n) == CountOf(s.channels[c].taken, n)
  {
    hide Of, On;
    if n > 0 {
      TakenByIsCount(s, c, n - 1);
      assert HistoriesAgree(s, c, n - 1);
    }
  }

  /**
   Several adapters on one source divide its events: the events taken from a source (or input) channel are taken by
   exactly one goroutine each, and together those goroutines took exactly those events.
   */
  lemma EventsAreDivided(s: State, steps: seq<Step>, c: nat)
    requires Initial(s) && Possible(s, steps) && c < |s.channels| && s.net.kinds[c] != SinkChannel
    ensures var f := Run(s, steps);
            && f.Shaped() && c < |f.channels|
            && |f.channels[c].taken| == TakenBy(f, c, |f.workers|)
            && forall w :: 0 <= w < |f.workers| && f.net.jobs[w].input == c ==>
              Of(f.channels[c].taken, Some(w)) == f.workers[w].taken
  {
    InitialInv(s);
    EveryRun(s, steps);
    TakersInEveryRun(s, steps, c);
    var f := Run(s, steps);
    SameWorkers(s, steps);
    EveryTakeHasATaker(f.channels[c].taken, |f.workers|);
    TakenByIsCount(f, c, |f.workers|);
    forall w | 0 <= w < |f.workers| && f.net.jobs[w].input == c
      ensures Of(f.channels[c].taken, Some(w)) == f.workers[w].taken
    {
      assert HistoriesAgree(f, c, w);
    }
  }

  lemma {:induction false} SameWorkers(s: State, steps: seq<Step>)
    requires Possible(s, steps)
    ensures |Run(s, steps).workers| == |s.workers| && |Run(s, steps).channels| == |s.channels|
    decreases |steps|
  {
    if steps != [] {
      SameWorkers(Next(s, steps[0]), steps[1..]);
    }
  }

  /** No two goroutines read the channel. */
  predicate OneReader(net: Network, c: nat) {
    forall v, w :: 0 <= v < |net.jobs| && 0 <= w < |net.jobs| && net.jobs[v].input == c && net.jobs[w].input == c ==>
      v == w
  }

  /** Every goroutine that reads the channel has taken all that was taken from it. */
  predicate EachTookAll(s: State, c: nat)
    requires s.Shaped() && c < |s.channels|
  {
    forall w :: 0 <= w < |s.workers| && s.net.jobs[w].input == c ==> s.workers[w].taken == Messages(s.channels[c].taken)
  }

  lemma {:induction false} TakenByTwo(s: State, c: nat, n: nat, v: nat, w: nat)
    requires s.Shaped() && v < w < |s.workers| && n <= |s.workers|
    requires s.net.jobs[v].input == c && s.net.jobs[w].input == c
    ensures TakenBy(s, c, n) >=
            (if v < n then |s.workers[v].taken| else 0) + (if w < n then |s.workers[w].taken| else 0)
  {
    if n > 0 {
      TakenByTwo(s, c, n - 1, v, w);
    }
  }

  lemma {:induction false} TakenByOne(s: State, c: nat, n: nat, w: nat)
    requires s.Shaped() && w < |s.workers| && n <= |s.workers| && s.net.jobs[w].input == c && OneReader(s.net, c)
    ensures TakenBy(s, c, n) == if w < n then |s.workers[w].taken| else 0
  {
    if n > 0 {
      TakenByOne(s, c, n - 1, w);
    }
  }

  lemma {:induction false} AllOfOne(items: seq<Item>, who: Option<nat>)
    ensures |Of(items, who)| <= |items|
    ensures |Of(items, who)| == |items| ==> Of(items, who) == Messages(items)
  {
    if items != [] {
      AllOfOne(items[..|items| - 1], who);
    }
  }

  lemma SecondReaderMisses(s: State, c: nat, v: nat, w: nat)
    requires s.Shaped() && c < |s.channels| && v < w < |s.workers|
    requires s.net.jobs[v].input == c && s.net.jobs[w].input == c
    requires |s.channels[c].taken| == TakenBy(s, c, |s.workers|) && s.channels[c].taken != []
    ensures !EachTookAll(s, c)
  {
    hide TakenBy, Messages;
    TakenByTwo(s, c, |s.workers|, v, w);
    var short := if |s.workers[v].taken| < |s.channels[c].taken| then v else w;
    assert s.workers[short].taken != Messages(s.channels[c].taken);
  }

  /**
   The adapters of a source are not given copies: in every run, each goroutine that reads a channel has taken all that
   was taken from it exactly if no two read it, or nothing has been taken.
   */
  lemma EachTookAllIff(s: State, steps: seq<Step>, c: nat)
    requires Initial(s) && Possible(s, steps) && c < |s.channels| && s.net.kinds[c] != SinkChannel
    ensures var f := Run(s, steps);
            f.Shaped() && c < |f.channels| && f.net == s.net
            && (EachTookAll(f, c) <==> OneReader(s.net, c) || f.channels[c].taken == [])
  {
    hide Inv, Of, TakenBy, Messages;
    InitialInv(s);
    EveryRun(s, steps);
    EventsAreDivided(s, steps, c);
    var f := Run(s, steps);
    if OneReader(s.net, c) || f.channels[c].taken == [] {
      forall w | 0 <= w < |f.workers| && f.net.jobs[w].input == c
        ensures f.workers[w].taken == Messages(f.channels[c].taken)
      {
        if OneReader(s.net, c) {
          TakenByOne(f, c, |f.workers|, w);
        }
        AllOfOne(f.channels[c].taken, Some(w));
      }
    } else {
      var v, w :| 0 <= v < w < |f.net.jobs| && f.net.jobs[v].input == c && f.net.jobs[w].input == c;
      SecondReaderMisses(f, c, v, w);
    }
  }

  /** A source with two adapters. */
  function SharedSource(): State {
    var idle, empty := Worker(Selecting, [], [], []), Channel([], [], [], false);
    State(Network([SourceChannel, InputChannel, InputChannel], 1,
            [Adapter(0, "t", Some(1)), Adapter(0, "t", Some(2))], {}),
          [empty, empty, empty], [idle, idle], 1, false, Running, false)
  }

  lemma EventArrives(m: Message)
    ensures Initial(SharedSource()) && CanStep(SharedSource(), SourceSend(0, m))
    ensures HoldsOne(Next(SharedSource(), SourceSend(0, m)), m)
  {
  }

  predicate HoldsOne(s: State, m: Message) {
    && s.Shaped() && !s.panicked && s.net == SharedSource().net && s.workers == SharedSource().workers
    && s.channels[0] == Channel([Item(None, m)], [], [m], false)
  }

  lemma OneMessage(i: Item)
    ensures Messages([i]) == [i.msg]
  {
    assert [i][..0] == [];
  }

  lemma EventTaken(s: State, m: Message)
    requires HoldsOne(s, m)
    ensures CanStep(s, Take(0))
    ensures var f := Next(s, Take(0));
            f.Shaped() && |f.channels| == 3 && |f.workers| == 2 && Messages(f.channels[0].taken) == [m]
            && f.workers[0].taken == [m] && f.workers[1].taken == []
  {
    hide Fanned;
    OneMessage(Item(Some(0), m));
  }

  lemma RunOfOne(s: State, a: Step)
    requires CanStep(s, a)
    ensures Possible(s, [a]) && Run(s, [a]) == Next(s, a)
  {
    hide CanStep, Next;
    assert [a][1..] == [];
    assert Possible(Next(s, a), []) && Run(Next(s, a), []) == Next(s, a);
  }

  lemma RunOfTwo(s: State, a: Step, b: Step)
    requires CanStep(s, a) && CanStep(Next(s, a), b)
    ensures Possible(s, [a, b]) && Run(s, [a, b]) == Next(Next(s, a), b)
  {
    hide CanStep, Next;
    RunOfOne(Next(s, a), b);
    assert [a, b][1..] == [b];
  }

  /** Its one event goes to one of them. */
  lemma OneEventOneAdapter(m: Message)
    ensures var s, steps := SharedSource(), [SourceSend(0, m), Take(0)];
            && Initial(s) && Possible(s, steps) && |Run(s, steps).channels| == 3 && |Run(s, steps).workers| == 2
            && var f := Run(s, steps);
               Messages(f.channels[0].taken) == [m] && f.workers[0].taken == [m] && f.workers[1].taken == []
  {
    hide CanStep, Next, Initial, HoldsOne, SharedSource, Messages;
    EventArrives(m);
    EventTaken(Next(SharedSource(), SourceSend(0, m)), m);
    RunOfTwo(SharedSource(), SourceSend(0, m), Take(0));
  }

  /** A source whose channel nothing reads. */
  function LoneSource(): State {
    State(Network([SourceChannel], 1, [], {}), [Channel([], [], [], false)], [], 1, false, Running, false)
  }

  lemma StopClosesTheChannel(m: Message)
    ensures var s, late := LoneSource(), SourceSend(0, m);
            && Initial(s) && CanStep(s, StopStep) && CanStep(Next(s, StopStep), StopStep)
            && var closed := Next(Next(s, StopStep), StopStep);
               CanStep(closed, late) && SendsLate(closed, late) && Next(closed, late).panicked
  {
    var s := LoneSource();
    var cancelled := Next(s, StopStep);
    assert cancelled.stopper == ClosingSources(0) && cancelled.channels == s.channels;
    var closed := Next(cancelled, StopStep);
    assert closed.channels == [s.channels[0].(closed := true)];
  }

  /** Stop closes the channel of a source that is still running, and the source's next send panics. */
  lemma LateSourcePanics(m: Message)
    ensures var s, steps := LoneSource(), [StopStep, StopStep, SourceSend(0, m)];
            Initial(s) && Possible(s, steps) && LateSendAlong(s, steps) && Run(s, steps).panicked
  {
    hide CanStep, Next, Initial, LoneSource, SendsLate;
    var s, late := LoneSource(), SourceSend(0, m);
    StopClosesTheChannel(m);
    var cancelled := Next(s, StopStep);
    var closed := Next(cancelled, StopStep);
    RunOfTwo(cancelled, StopStep, late);
    RunOfOne(closed, late);
    assert [StopStep, StopStep, late][1..] == [StopStep, late] && [StopStep, late][1..] == [late];
    assert LateSendAlong(closed, [late]);
    assert LateSendAlong(cancelled, [StopStep, late]);
  }
}
