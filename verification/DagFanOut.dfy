/**
 What a goroutine of the DAG owes, counted and put in order from what Process returned and from the job's own lists.
 */
module DagFanOut {
  import opened Wrappers
  import opened DagEngine
  import opened DagSafety

  // ---------- The laws that determine what is owed ----------

  lemma {:induction false} OwedConcat(job: Job, a: seq<Option<seq<Message>>>, b: seq<Option<seq<Message>>>)
    ensures Owed(job, a + b) == Owed(job, a) + Owed(job, b)
    decreases |b|
  {
    hide Fanned, Owed;
    if b == [] {
      OwedNothing(job);
      assert a + b == a;
    } else {
      var init, last := b[..|b| - 1], b[|b| - 1];
      assert b == init + [last] && a + b == (a + init) + [last];
      OwedConcat(job, a, init);
      OwedSnoc(job, a + init, last);
      OwedSnoc(job, init, last);
    }
  }

  lemma {:induction false} FannedConcat(job: Job, a: seq<Message>, b: seq<Message>)
    ensures Fanned(job, a + b) == Fanned(job, a) + Fanned(job, b)
    decreases |b|
  {
    hide ToAll, Listed;
    if b == [] {
      assert a + b == a;
    } else {
      var init, last := b[..|b| - 1], b[|b| - 1];
      FannedConcat(job, a, init);
      assert (a + b)[..|a + b| - 1] == a + init && (a + b)[|a + b| - 1] == last;
    }
  }

  lemma FannedOne(job: Job, m: Message)
    ensures Fanned(job, [m]) == ToAll(Listed(job, m), m)
  {
    hide ToAll, Listed;
    assert [m][..0] == [] && Fanned(job, []) == [];
    assert Fanned(job, [m]) == [] + ToAll(Listed(job, m), m);
  }

  /**
   A loop owes, result by result and output by output in order: nothing for a failed Process, nothing for an output
   whose type has no list, and otherwise the output once to each channel of its type's list, in the list's order.
   */
  lemma LoopOwes(input: nat, outputs: map<string, seq<nat>>, before: seq<Option<seq<Message>>>, ms: seq<Message>,
      m: Message)
    ensures var job := Loop(input, outputs);
            && Owed(job, []) == []
            && Owed(job, before + [None]) == Owed(job, before)
            && Owed(job, before + [Some([])]) == Owed(job, before)
            && (m.eventType !in outputs ==> Owed(job, before + [Some(ms + [m])]) == Owed(job, before + [Some(ms)]))
            && (m.eventType in outputs ==>
                  Owed(job, before + [Some(ms + [m])]) == Owed(job, before + [Some(ms)]) +
                  seq(|outputs[m.eventType]|, i requires 0 <= i < |outputs[m.eventType]| =>
                    Delivery(outputs[m.eventType][i], m)))
  {
    hide Owed, Fanned;
    var job := Loop(input, outputs);
    OwedNothing(job);
    OwedSnoc(job, before, None);
    OwedSnoc(job, before, Some([]));
    OwedSnoc(job, before, Some(ms));
    OwedSnoc(job, before, Some(ms + [m]));
    FannedConcat(job, ms, [m]);
    FannedOne(job, m);
    ToAllIs(Listed(job, m), m);
    if m.eventType in outputs {
      var channels := outputs[m.eventType];
      assert ToAll(Listed(job, m), m) ==
             seq(|channels|, i requires 0 <= i < |channels| => Delivery(channels[i], m));
    }
  }

  lemma OwedNothing(job: Job)
    ensures Owed(job, []) == [] && Fanned(job, []) == []
  {
  }

  // ---------- How often ----------

  /** Everything Process returned, in order; a failed Process returned nothing. */
  function Returned(results: seq<Option<seq<Message>>>): seq<Message> {
    if results == [] then []
    else
      var last := results[|results| - 1];
      Returned(results[..|results| - 1]) + if last.Some? then last.value else []
  }

  /** How often the job lists channel c for a type. */
  function TimesListed(outputs: map<string, seq<nat>>, t: string, c: nat): nat {
    if t in outputs then multiset(outputs[t])[c] else 0
  }

  lemma {:induction false} ToAllCount(channels: seq<nat>, m: Message, d: Delivery)
    ensures multiset(ToAll(channels, m))[d] == if d.msg == m then multiset(channels)[d.channel] else 0
  {
    if channels != [] {
      var init, last := channels[..|channels| - 1], channels[|channels| - 1];
      ToAllCount(init, m, d);
      ListedSnoc(channels, d.channel);
      assert ToAll(channels, m) == ToAll(init, m) + [Delivery(last, m)];
    }
  }

  lemma {:induction false} FannedCount(job: Job, ms: seq<Message>, d: Delivery)
    requires job.Loop?
    ensures multiset(Fanned(job, ms))[d] == multiset(ms)[d.msg] * TimesListed(job.outputs, d.msg.eventType, d.channel)
  {
    hide ToAll, TimesListed, Listed;
    if ms == [] {
      OwedNothing(job);
    } else {
      var init, last := ms[..|ms| - 1], ms[|ms| - 1];
      FannedCount(job, init, d);
      ToAllCount(Listed(job, last), last, d);
      ListedTimes(job, last, d.channel);
      assert ms == init + [last];
      OneMore(multiset(init)[d.msg], TimesListed(job.outputs, d.msg.eventType, d.channel));
    }
  }

  lemma ListedTimes(job: Job, m: Message, c: nat)
    requires job.Loop?
    ensures multiset(Listed(job, m))[c] == TimesListed(job.outputs, m.eventType, c)
  {
  }

  lemma OneMore(n: nat, k: nat)
    ensures (n + 1) * k == n * k + k
  {
  }

  lemma Distribute(m: nat, n: nat, k: nat)
    ensures (m + n) * k == m * k + n * k
  {
  }

  /**
   Each output is owed to each channel as often as Process returned it, in all its successful results together, times as
   often as the job lists the channel for its type.
   */
  lemma {:induction false} OwedCount(job: Job, results: seq<Option<seq<Message>>>, c: nat, m: Message)
    requires job.Loop?
    ensures multiset(Owed(job, results))[Delivery(c, m)] ==
            multiset(Returned(results))[m] * TimesListed(job.outputs, m.eventType, c)
  {
    hide Fanned, TimesListed;
    if results != [] {
      var init, last := results[..|results| - 1], results[|results| - 1];
      OwedCount(job, init, c, m);
      if last.Some? {
        FannedCount(job, last.value, Delivery(c, m));
        Distribute(multiset(Returned(init))[m], multiset(last.value)[m], TimesListed(job.outputs, m.eventType, c));
      }
    }
  }

  // ---------- In what order ----------

  /** Each output as often as the job lists the channel for its type, in order. */
  function Copies(outputs: map<string, seq<nat>>, ms: seq<Message>, c: nat): seq<Message> {
    if ms == [] then []
    else
      var last := ms[|ms| - 1];
      Copies(outputs, ms[..|ms| - 1], c) + seq(TimesListed(outputs, last.eventType, c), _ => last)
  }

  lemma {:induction false} CopiesConcat(outputs: map<string, seq<nat>>, a: seq<Message>, b: seq<Message>, c: nat)
    ensures Copies(outputs, a + b, c) == Copies(outputs, a, c) + Copies(outputs, b, c)
    decreases |b|
  {
    hide TimesListed;
    if b == [] {
      assert a + b == a;
    } else {
      var init, last := b[..|b| - 1], b[|b| - 1];
      CopiesConcat(outputs, a, init, c);
      assert (a + b)[..|a + b| - 1] == a + init && (a + b)[|a + b| - 1] == last;
    }
  }

  lemma {:induction false} FannedOrder(job: Job, ms: seq<Message>, c: nat)
    requires job.Loop?
    ensures On(Fanned(job, ms), c) == Copies(job.outputs, ms, c)
  {
    hide On, ToAll;
    if ms == [] {
      OwedNothing(job);
      OnNone(c);
    } else {
      var init, last := ms[..|ms| - 1], ms[|ms| - 1];
      FannedOrder(job, init, c);
      OnConcat(Fanned(job, init), ToAll(Listed(job, last), last), c);
      OncePerListing(Listed(job, last), last, c);
      assert On(ToAll(Listed(job, last), last), c) ==
             seq(TimesListed(job.outputs, last.eventType, c), _ => last);
    }
  }

  /** On one channel the outputs stand in the order in which Process returned them. */
  lemma {:induction false} OwedOrder(job: Job, results: seq<Option<seq<Message>>>, c: nat)
    requires job.Loop?
    ensures On(Owed(job, results), c) == Copies(job.outputs, Returned(results), c)
  {
    hide On, Fanned, Copies;
    if results == [] {
      OwedNothing(job);
      OnNone(c);
      NoCopies(job.outputs, c);
    } else {
      var init, last := results[..|results| - 1], results[|results| - 1];
      OwedOrder(job, init, c);
      if last.Some? {
        OnConcat(Owed(job, init), Fanned(job, last.value), c);
        FannedOrder(job, last.value, c);
        CopiesConcat(job.outputs, Returned(init), last.value, c);
      } else {
        assert Owed(job, results) == Owed(job, init) && Returned(results) == Returned(init);
      }
    }
  }

  lemma NoCopies(outputs: map<string, seq<nat>>, c: nat)
    ensures Copies(outputs, [], c) == []
  {
  }

  /**
   In every reachable state, a channel has from a loop that is between two messages each output in the order in which
   Process returned it, as often as the loop lists the channel for its type, and nothing else.
   */
  lemma ChannelHasEveryOutput(s: State, w: nat, c: nat)
    requires Inv(s) && w < |s.workers| && c < |s.channels| && s.net.jobs[w].Loop?
    requires s.workers[w].pc.Selecting? || s.workers[w].pc.Processing?
    ensures Of(s.channels[c].sent, Some(w)) == Copies(s.net.jobs[w].outputs, Returned(s.workers[w].results), c)
  {
    hide WorkerOk, ChannelOk, StopOrder, HistoriesAgree, Of, On, Owed, Copies, Returned;
    EveryOutputFannedOut(s, w, c);
    OwedOrder(s.net.jobs[w], s.workers[w].results, c);
  }

  // ---------- Adapters ----------

  /**
   In every reachable state, an adapter owes each message it has taken, in order, with its payload and under the
   adapter's own event type, to the processor's channel; and nothing if the processor has none.
   */
  lemma AdapterOwes(s: State, w: nat)
    requires Inv(s) && w < |s.workers| && s.net.jobs[w].Adapter?
    ensures var job, worker := s.net.jobs[w], s.workers[w];
            && (job.target.None? ==> Owed(job, worker.results) == [])
            && (job.target.Some? ==>
                  Owed(job, worker.results) == seq(|worker.taken|, i requires 0 <= i < |worker.taken| =>
                    Delivery(job.target.value, Message(job.eventType, worker.taken[i].payload))))
  {
    hide Owed, StopOrder, ChannelOk, HistoriesAgree;
    var job, worker := s.net.jobs[w], s.workers[w];
    assert WorkerOk(s.net, job, worker);
    assert |worker.results| == |worker.taken|;
    AdapterResults(job, worker.taken, worker.results);
  }

  lemma {:induction false} AdapterResults(job: Job, taken: seq<Message>, results: seq<Option<seq<Message>>>)
    requires job.Adapter? && |results| == |taken|
    requires forall i :: 0 <= i < |results| ==> results[i] == Some([Adapted(job, taken[i])])
    ensures job.target.None? ==> Owed(job, results) == []
    ensures job.target.Some? ==>
      Owed(job, results) == seq(|taken|, i requires 0 <= i < |taken| =>
        Delivery(job.target.value, Message(job.eventType, taken[i].payload)))
  {
    hide Fanned;
    if results != [] {
      var n := |results| - 1;
      AdapterResults(job, taken[..n], results[..n]);
      FannedOne(job, Adapted(job, taken[n]));
      ToAllIs(Listed(job, Adapted(job, taken[n])), Adapted(job, taken[n]));
      assert Owed(job, results) == Owed(job, results[..n]) + Fanned(job, results[n].value);
      if job.target.Some? {
        assert ToAll([job.target.value], Adapted(job, taken[n])) ==
               [Delivery(job.target.value, Message(job.eventType, taken[n].payload))];
      }
    }
  }
}
