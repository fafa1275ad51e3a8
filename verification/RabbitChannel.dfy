/** The server as the worker of one RabbitMQ service sees it: the queues of all services
    and this worker's consuming channel. Beside them the channel keeps the run of the
    machine that the commands so far amount to. */
module RabbitChannel {
  import opened Wrappers
  import opened Events
  import opened Sums
  import opened RabbitMachine

  datatype Error = Unreachable | ChannelClosed

  ghost predicate QueuesEqual(v: Svc, w: Svc) {
    v.declared == w.declared && v.ready == w.ready && v.retry == w.retry && v.dlq == w.dlq
  }

  ghost predicate SameQueues(v: seq<Svc>, w: seq<Svc>) {
    |v| == |w| && forall j: nat | j < |v| :: QueuesEqual(v[j], w[j])
  }

  /** tags[i] is the delivery tag of flights[i]. */
  ghost predicate Tagged(tags: seq<nat>, unacked: map<nat, Copy>, flights: seq<Flight>) {
    && |tags| == |flights|
    && if tags == [] then unacked == map[] else
         var n := |tags| - 1;
         && tags[n] in unacked && unacked[tags[n]] == flights[n].copy
         && Tagged(tags[..n], unacked - {tags[n]}, flights[..n])
  }

  /** The tags are distinct and are exactly those of the unacknowledged messages. */
  lemma {:induction false} TaggedMeans(tags: seq<nat>, unacked: map<nat, Copy>, flights: seq<Flight>)
    requires Tagged(tags, unacked, flights)
    ensures forall i, j | 0 <= i < j < |tags| :: tags[i] != tags[j]
    ensures forall i | 0 <= i < |tags| :: tags[i] in unacked && unacked[tags[i]] == flights[i].copy
    ensures forall t :: t in unacked <==> t in tags
  {
    if tags != [] {
      var n := |tags| - 1;
      TaggedMeans(tags[..n], unacked - {tags[n]}, flights[..n]);
      assert tags == tags[..n] + [tags[n]];
      assert forall i | 0 <= i < n :: tags[i] == tags[..n][i] && flights[i] == flights[..n][i];
      forall t | t in unacked ensures t in tags { assert t == tags[n] || t in unacked - {tags[n]}; }
    }
  }

  ghost predicate Doing(tags: seq<nat>, flights: seq<Flight>, tag: nat, phase: Phase) {
    exists i: nat :: IsDoing(tags, flights, i, tag, phase)
  }

  ghost predicate IsDoing(tags: seq<nat>, flights: seq<Flight>, i: nat, tag: nat, phase: Phase) {
    i < |tags| == |flights| && tags[i] == tag && flights[i].phase == phase
  }

  lemma {:induction false} TaggedWithout(tags: seq<nat>, unacked: map<nat, Copy>, flights: seq<Flight>, i: nat)
    requires Tagged(tags, unacked, flights) && i < |tags|
    ensures Tagged(Without(tags, i), unacked - {tags[i]}, Without(flights, i))
    ensures tags[i] in unacked && unacked[tags[i]] == flights[i].copy
  {
    var n := |tags| - 1;
    if i == n {
      assert Without(tags, i) == tags[..n] && Without(flights, i) == flights[..n];
    } else {
      var rest, last := unacked - {tags[n]}, tags[n];
      TaggedWithout(tags[..n], rest, flights[..n], i);
      WithoutOfFront(tags, i);
      WithoutOfFront(flights, i);
      assert (unacked - {tags[i]}) - {last} == rest - {tags[i]};
      TaggedGrows(Without(tags[..n], i), unacked - {tags[i]}, Without(flights[..n], i), last, flights[n]);
    }
  }

  lemma WithoutOfFront<T>(xs: seq<T>, i: nat)
    requires i < |xs| - 1
    ensures Without(xs, i) == Without(xs[..|xs| - 1], i) + [xs[|xs| - 1]]
  {
  }

  lemma TaggedGrows(tags: seq<nat>, unacked: map<nat, Copy>, flights: seq<Flight>, tag: nat, f: Flight)
    requires tag in unacked && unacked[tag] == f.copy && Tagged(tags, unacked - {tag}, flights)
    ensures Tagged(tags + [tag], unacked, flights + [f])
  {
    assert (tags + [tag])[..|tags|] == tags && (flights + [f])[..|tags|] == flights;
  }

  lemma TaggedAppend(tags: seq<nat>, unacked: map<nat, Copy>, flights: seq<Flight>, tag: nat, f: Flight)
    requires Tagged(tags, unacked, flights) && tag !in unacked
    ensures Tagged(tags + [tag], unacked[tag := f.copy], flights + [f])
    ensures Doing(tags + [tag], flights + [f], tag, f.phase)
  {
    assert unacked[tag := f.copy] - {tag} == unacked;
    TaggedGrows(tags, unacked[tag := f.copy], flights, tag, f);
    assert IsDoing(tags + [tag], flights + [f], |tags|, tag, f.phase);
  }

  lemma TaggedPhase(tags: seq<nat>, unacked: map<nat, Copy>, flights: seq<Flight>, i: nat, phase: Phase)
    requires Tagged(tags, unacked, flights) && i < |tags|
    ensures Tagged(tags, unacked, flights[i := flights[i].(phase := phase)])
    ensures Doing(tags, flights[i := flights[i].(phase := phase)], tags[i], phase)
    ensures tags[i] in unacked && unacked[tags[i]] == flights[i].copy
  {
    PhaseKeepsTags(tags, unacked, flights, i, phase);
    TaggedMeans(tags, unacked, flights);
    assert IsDoing(tags, flights[i := flights[i].(phase := phase)], i, tags[i], phase);
  }

  lemma {:induction false} PhaseKeepsTags(tags: seq<nat>, unacked: map<nat, Copy>, flights: seq<Flight>, i: nat, phase: Phase)
    requires Tagged(tags, unacked, flights) && i < |tags|
    ensures Tagged(tags, unacked, flights[i := flights[i].(phase := phase)])
  {
    var n, after := |tags| - 1, flights[i := flights[i].(phase := phase)];
    if i == n {
      assert after[..n] == flights[..n];
    } else {
      PhaseKeepsTags(tags[..n], unacked - {tags[n]}, flights[..n], i, phase);
      assert after[..n] == flights[..n][i := flights[i].(phase := phase)];
    }
  }

  lemma MainAlike(v: seq<Svc>, w: seq<Svc>, c: Copy, k: nat)
    requires SameQueues(v, w) && k < |v|
    ensures SameQueues(ToMain(v, c), ToMain(w, c)) && ToMain(w, c)[k].flights == w[k].flights
  {
    forall j: nat | j < |v| ensures QueuesEqual(ToMain(v, c)[j], ToMain(w, c)[j]) { assert QueuesEqual(v[j], w[j]); }
  }

  lemma RetryAlike(v: seq<Svc>, w: seq<Svc>, c: Copy, k: nat)
    requires SameQueues(v, w) && k < |v|
    ensures SameQueues(ToRetry(v, c), ToRetry(w, c)) && ToRetry(w, c)[k].flights == w[k].flights
  {
    forall j: nat | j < |v| ensures QueuesEqual(ToRetry(v, c)[j], ToRetry(w, c)[j]) { assert QueuesEqual(v[j], w[j]); }
  }

  lemma NackAlike(v: seq<Svc>, w: seq<Svc>, c: Copy, k: nat, i: nat)
    requires SameQueues(v, w) && k < |v| && i < |w[k].flights|
    ensures SameQueues(ToRetry(v, c), ToRetry(DropFlight(w, k, i), c))
    ensures ToRetry(DropFlight(w, k, i), c)[k].flights == Without(w[k].flights, i)
  {
    assert QueuesEqual(v[k], w[k]);
    UpdateAlike(v, w, k, v[k], DropFlight(w, k, i)[k]);
    assert v[k := v[k]] == v;
    RetryAlike(v, DropFlight(w, k, i), c, k);
  }

  lemma BuryAlike(v: seq<Svc>, w: seq<Svc>, e: Envelope, k: nat, i: nat, phase: Phase)
    requires SameQueues(v, w) && k < |v| && i < |w[k].flights|
    ensures SameQueues(ToDlq(v, e), ToDlq(SetFlight(w, k, i, phase), e))
    ensures ToDlq(SetFlight(w, k, i, phase), e)[k].flights == w[k].flights[i := w[k].flights[i].(phase := phase)]
  {
    assert QueuesEqual(v[k], w[k]);
    UpdateAlike(v, w, k, v[k], SetFlight(w, k, i, phase)[k]);
    assert v[k := v[k]] == v;
    DlqAlike(v, SetFlight(w, k, i, phase), e, k);
  }

  lemma RequeueAlike(v: seq<Svc>, w: seq<Svc>, k: nat, i: nat)
    requires SameQueues(v, w) && k < |v| && i < |w[k].flights|
    ensures var c := w[k].flights[i].copy;
            SameQueues(v[k := v[k].(ready := v[k].ready + [c])],
                       w[k := w[k].(ready := w[k].ready + [c], flights := Without(w[k].flights, i))])
  {
    var c := w[k].flights[i].copy;
    assert QueuesEqual(v[k], w[k]);
    UpdateAlike(v, w, k, v[k].(ready := v[k].ready + [c]),
                w[k].(ready := w[k].ready + [c], flights := Without(w[k].flights, i)));
  }

  lemma DlqAlike(v: seq<Svc>, w: seq<Svc>, e: Envelope, k: nat)
    requires SameQueues(v, w) && k < |v|
    ensures SameQueues(ToDlq(v, e), ToDlq(w, e)) && ToDlq(w, e)[k].flights == w[k].flights
  {
    forall j: nat | j < |v| ensures QueuesEqual(ToDlq(v, e)[j], ToDlq(w, e)[j]) { assert QueuesEqual(v[j], w[j]); }
  }

  lemma UpdateAlike(v: seq<Svc>, w: seq<Svc>, k: nat, a: Svc, b: Svc)
    requires SameQueues(v, w) && k < |v| && QueuesEqual(a, b)
    ensures SameQueues(v[k := a], w[k := b])
  {
    var v', w' := v[k := a], w[k := b];
    forall j: nat | j < |v| ensures QueuesEqual(v'[j], w'[j]) { assert QueuesEqual(v[j], w[j]); }
  }

  /** What a worker has in its hands besides prefetched messages. */
  datatype Hand = Nothing | Hand(tag: nat, f: Flight)

  /** Everything is merely prefetched, except the delivery in hand. */
  ghost predicate Resting(tags: seq<nat>, flights: seq<Flight>, hand: Hand) {
    forall i: nat | i < |tags| && i < |flights| :: flights[i].phase.Prefetched? || (hand.Hand? && tags[i] == hand.tag)
  }

  lemma RestingWithout(tags: seq<nat>, flights: seq<Flight>, i: nat, hand: Hand)
    requires i < |tags| == |flights| && Resting(tags, flights, hand)
    requires forall j, k | 0 <= j < k < |tags| :: tags[j] != tags[k]
    ensures Resting(Without(tags, i), Without(flights, i), hand)
    ensures hand.Hand? && tags[i] == hand.tag ==> Resting(Without(tags, i), Without(flights, i), Nothing)
  {
    var ts, fs := Without(tags, i), Without(flights, i);
    forall k: nat | k < |ts|
      ensures ts[k] == tags[if k < i then k else k + 1] && fs[k] == flights[if k < i then k else k + 1]
    {
    }
  }

  class Channel {
    const cfg: Cfg
    const svc: nat
    var svcs: seq<Svc>            // main, retry and dead-letter queues of all services
    var unacked: map<nat, Copy>   // what this channel was handed, by delivery tag
    var nextTag: nat
    var open: bool

    ghost var steps: seq<Step>
    ghost var trail: seq<State>
    ghost var model: State
    ghost var tags: seq<nat>

    /** What was recorded is a run that ends in this state. */
    ghost predicate Logged(s: State)
      reads this`steps, this`trail
    {
      Trail(cfg, trail, steps) && s == trail[|steps|]
    }

    ghost predicate Valid()
      reads this
    {
      && svc < |svcs| == |cfg.maxRetries|
      && (forall tag | tag in unacked :: tag < nextTag)
      && (!open ==> unacked == map[])
      && Logged(model) && Agrees()
    }

    ghost predicate Agrees()
      reads this
    {
      svc < |svcs| && SameQueues(svcs, model.svcs) && Tagged(tags, unacked, model.svcs[svc].flights)
    }

    ghost function Flights(): seq<Flight>
      reads this
    {
      if svc < |model.svcs| then model.svcs[svc].flights else []
    }

    /** What this worker is doing with a delivery. */
    ghost predicate At(tag: nat, phase: Phase)
      reads this
    {
      Doing(tags, Flights(), tag, phase)
    }

    /** This, and nothing else, is in the worker's hands: a delivery of the open channel,
        or what it goes on with after the channel was lost. */
    ghost predicate Has(hand: Hand)
      reads this
    {
      && Resting(tags, Flights(), hand)
      && (hand.Hand? ==>
            if open then hand.tag in unacked && unacked[hand.tag] == hand.f.copy && At(hand.tag, hand.f.phase)
            else (svc, hand.f) in model.orphans)
    }

    constructor (cfg: Cfg, svc: nat, ghost s: State)
      requires Init(cfg, s) && svc < |cfg.maxRetries|
      ensures Valid() && this.cfg == cfg && this.svc == svc && model == s && Has(Nothing)
      ensures svcs == seq(|cfg.maxRetries|, _ => Svc(false, [], [], [], []))
      ensures unacked == map[] && open
    {
      this.cfg, this.svc := cfg, svc;
      svcs := seq(|cfg.maxRetries|, _ => Svc(false, [], [], [], []));
      unacked, nextTag, open, steps, trail, model, tags := map[], 0, true, [], [s], s, [];
    }

    ghost method Advance(step: Step)
      requires Logged(model) && Can(cfg, model, step)
      modifies this`model, this`steps, this`trail
      ensures Logged(model) && model == Do(cfg, old(model), step)
      ensures model.reached >= old(model.reached)
    {
      TrailExtends(cfg, trail, steps, step);
      steps, trail, model := steps + [step], trail + [Do(cfg, model, step)], Do(cfg, model, step);
    }

    // ----- the rest of the world

    /** Steps of other services and of the server. */
    ghost predicate IsForeign(x: Step) {
      x.Declare? || x.Publish? || x.Garbage? || x.Expire? || x.svc != svc
    }

    /** Anything they do, at any moment; after is what the queues look like then. */
    method Elsewhere(ghost x: Step, after: seq<Svc>)
      requires Valid() && Can(cfg, model, x) && IsForeign(x) && SameQueues(after, Do(cfg, model, x).svcs)
      modifies this`svcs, this`model, this`steps, this`trail
      ensures Valid() && svcs == after && model == Do(cfg, old(model), x)
      ensures forall hand :: old(Has(hand)) ==> Has(hand)
    {
      svcs := after;
      ForeignKeepsFlights(x);
      Advance(x);
    }

    lemma ForeignKeepsFlights(x: Step)
      requires svc < |model.svcs| == |cfg.maxRetries| && Can(cfg, model, x) && IsForeign(x)
      ensures Do(cfg, model, x).svcs[svc].flights == model.svcs[svc].flights
      ensures |Do(cfg, model, x).svcs| == |model.svcs| && Do(cfg, model, x).orphans >= model.orphans
    {
    }

    /** listen() of some service declares its three queues and binds them. */
    method DeclareTopology(k: nat)
      requires Valid() && k < |svcs|
      modifies this`svcs, this`model, this`steps, this`trail
      ensures Valid() && svcs == old(svcs)[k := old(svcs)[k].(declared := true)]
      ensures forall hand :: old(Has(hand)) ==> Has(hand)
    {
      assert QueuesEqual(svcs[k], model.svcs[k]);
      UpdateAlike(svcs, model.svcs, k, svcs[k].(declared := true), model.svcs[k].(declared := true));
      Elsewhere(Declare(k), svcs[k := svcs[k].(declared := true)]);
    }

    /** publish() of some service took effect. */
    method Publish(e: Envelope)
      requires Valid()
      modifies this`svcs, this`model, this`steps, this`trail
      ensures Valid() && svcs == ToMain(old(svcs), Copy(Some(e), []))
      ensures |svcs| == |old(svcs)|
      ensures forall j: nat | j < |svcs| ::
                svcs[j] == if old(svcs)[j].declared then old(svcs)[j].(ready := old(svcs)[j].ready + [Copy(Some(e), [])])
                           else old(svcs)[j]
      ensures forall hand :: old(Has(hand)) ==> Has(hand)
      ensures model.reached >= old(model.reached) && Arrived(old(svcs), model.reached, e)
    {
      forall j: nat | j < |svcs| ensures svcs[j].declared == model.svcs[j].declared { assert QueuesEqual(svcs[j], model.svcs[j]); }
      MainAlike(svcs, model.svcs, Copy(Some(e), []), svc);
      Elsewhere(Step.Publish(e), ToMain(svcs, Copy(Some(e), [])));
    }

    /** The TTL of the first message in the retry queue of a service is over. */
    method Expire(k: nat)
      requires Valid() && k < |svcs| && svcs[k].retry != []
      modifies this`svcs, this`model, this`steps, this`trail
      ensures Valid()
      ensures var v := old(svcs)[k];
              svcs == ToMain(old(svcs)[k := v.(retry := v.retry[1..])], Bump(v.retry[0], RetryQ(k), Expired))
      ensures forall hand :: old(Has(hand)) ==> Has(hand)
    {
      var v, w := svcs[k], model.svcs[k];
      assert QueuesEqual(v, w) && Without(v.retry, 0) == v.retry[1..];
      ghost var mid := model.svcs[k := w.(retry := Without(w.retry, 0))];
      UpdateAlike(svcs, model.svcs, k, v.(retry := v.retry[1..]), mid[k]);
      var expired := svcs[k := v.(retry := v.retry[1..])];
      MainAlike(expired, mid, Bump(v.retry[0], RetryQ(k), Expired), svc);
      Elsewhere(Step.Expire(k, 0), ToMain(expired, Bump(v.retry[0], RetryQ(k), Expired)));
    }

    // ----- what the consuming channel does

    /** The head of the main queue is handed to the channel. */
    method Deliver() returns (tag: nat, copy: Copy)
      requires Valid() && open && svcs[svc].ready != []
      modifies this
      ensures Valid() && open && At(tag, Prefetched)
      ensures old(Has(Nothing)) ==> Has(Nothing)
      ensures copy == old(svcs[svc].ready[0]) && tag !in old(unacked) && unacked == old(unacked)[tag := copy]
      ensures svcs == old(svcs)[svc := old(svcs)[svc].(ready := old(svcs)[svc].ready[1..])]
    {
      var v := svcs[svc];
      tag, copy := nextTag, v.ready[0];
      DeliverAs(tag);
      nextTag := nextTag + 1;
      unacked := unacked[tag := copy];
      svcs := svcs[svc := v.(ready := v.ready[1..])];
    }

    /** The machine's side of a delivery. */
    ghost method DeliverAs(tag: nat)
      requires Valid() && svcs[svc].ready != [] && tag !in unacked
      modifies this`model, this`steps, this`trail, this`tags
      ensures Logged(model) && svc < |svcs|
      ensures SameQueues(svcs[svc := svcs[svc].(ready := svcs[svc].ready[1..])], model.svcs)
      ensures Tagged(tags, unacked[tag := svcs[svc].ready[0]], model.svcs[svc].flights) && At(tag, Prefetched)
      ensures old(Resting(tags, Flights(), Nothing)) ==> Resting(tags, Flights(), Nothing)
    {
      var v, w := svcs[svc], model.svcs[svc];
      assert QueuesEqual(v, w) && Without(v.ready, 0) == v.ready[1..];
      TaggedAppend(tags, unacked, w.flights, tag, Flight(v.ready[0], Prefetched));
      Advance(Step.Deliver(svc, 0));
      UpdateAlike(svcs, old(model.svcs), svc, v.(ready := v.ready[1..]), model.svcs[svc]);
      tags := tags + [tag];
    }

    /** The delivery in hand enters another phase. */
    ghost method Moved(i: nat, tag: nat, phase: Phase, x: Step)
      requires Valid() && open && i < |tags| && tags[i] == tag && Can(cfg, model, x)
      requires Do(cfg, model, x).svcs == SetFlight(model.svcs, svc, i, phase)
      requires Resting(tags, Flights(), Hand(tag, Flights()[i]))
      modifies this`model, this`steps, this`trail
      ensures Valid() && tag in unacked && Has(Hand(tag, Flight(unacked[tag], phase)))
      ensures model == Do(cfg, old(model), x)
      ensures model.reached >= old(model.reached)
    {
      TaggedPhase(tags, unacked, Flights(), i, phase);
      Advance(x);
    }

    /** The consumer generator hands the message to the worker. */
    ghost method Take(tag: nat)
      requires Valid() && open && Has(Nothing) && At(tag, Prefetched)
      modifies this`model, this`steps, this`trail
      ensures Valid() && tag in unacked
      ensures Has(Hand(tag, Flight(unacked[tag], if unacked[tag].body.Some? then Held else Settling([Cmd.Ack]))))
      ensures model.reached >= old(model.reached)
    {
      var i: nat :| IsDoing(tags, Flights(), i, tag, Prefetched);
      TaggedMeans(tags, unacked, Flights());
      Moved(i, tag, if unacked[tag].body.Some? then Held else Settling([Cmd.Ack]), Step.Take(svc, i));
    }

    /** The receivers were run: all returned, or fail() is called. */
    ghost method Dispatched(tag: nat, copy: Copy, ok: bool)
      requires Valid() && Has(Hand(tag, Flight(copy, Held))) && copy.body.Some?
      modifies this`model, this`steps, this`trail
      ensures Valid()
      ensures var phase := Settling(if ok then [Cmd.Ack] else FailCmds(cfg, svc, copy));
              if open || Burying(phase) then Has(Hand(tag, Flight(copy, phase))) else Has(Nothing)
      ensures (svc, copy.body.value) in if ok then model.done else model.failed
      ensures model.reached >= old(model.reached)
    {
      if open {
        var i: nat :| IsDoing(tags, Flights(), i, tag, Held);
        TaggedMeans(tags, unacked, Flights());
        Moved(i, tag, Settling(if ok then [Cmd.Ack] else FailCmds(cfg, svc, copy)), Dispatch(svc, i, ok));
      } else {
        Advance(LateDispatch(svc, Flight(copy, Held), ok));
      }
    }

    /** basic_ack; it raises on a channel that was lost. */
    method BasicAck(tag: nat, ghost copy: Copy) returns (r: Result<(), Error>)
      requires Valid() && (open ==> Has(Hand(tag, Flight(copy, Settling([Cmd.Ack])))))
      modifies this
      ensures Valid() && open == old(open) && svcs == old(svcs) && Has(Nothing)
      ensures r == if open then Ok(()) else Raised(ChannelClosed)
      ensures unacked == if open then old(unacked) - {tag} else old(unacked)
      ensures model.done == old(model).done && model.orphans == old(model).orphans
      ensures model.reached >= old(model.reached)
    {
      if !open { return Raised(ChannelClosed); }
      AckAt(tag, copy);
      unacked := unacked - {tag};
      r := Ok(());
    }

    /** The machine's side of basic_ack. */
    ghost method AckAt(tag: nat, copy: Copy)
      requires Valid() && open && Has(Hand(tag, Flight(copy, Settling([Cmd.Ack]))))
      modifies this`model, this`steps, this`trail, this`tags
      ensures Logged(model) && svc < |svcs| && SameQueues(svcs, model.svcs)
      ensures Tagged(tags, unacked - {tag}, model.svcs[svc].flights) && Resting(tags, model.svcs[svc].flights, Nothing)
      ensures model.done == old(model).done && model.orphans == old(model).orphans
      ensures model.reached >= old(model.reached)
    {
      var was := model.svcs;
      var i: nat :| IsDoing(tags, was[svc].flights, i, tag, Settling([Cmd.Ack]));
      TaggedMeans(tags, unacked, was[svc].flights);
      TaggedWithout(tags, unacked, was[svc].flights, i);
      RestingWithout(tags, was[svc].flights, i, Hand(tag, Flight(copy, Settling([Cmd.Ack]))));
      assert QueuesEqual(svcs[svc], was[svc]);
      UpdateAlike(svcs, was, svc, svcs[svc], DropFlight(was, svc, i)[svc]);
      assert svcs[svc := svcs[svc]] == svcs;
      Advance(Exec(svc, i));
      tags := Without(tags, i);
    }

    ghost method AdvanceNack(i: nat, copy: Copy)
      requires Logged(model) && svc < |model.svcs| == |cfg.maxRetries| && i < |model.svcs[svc].flights|
      requires model.svcs[svc].flights[i] == Flight(copy, Settling([Nack]))
      modifies this`model, this`steps, this`trail
      ensures Logged(model)
      ensures model.svcs == ToRetry(DropFlight(old(model.svcs), svc, i), Bump(copy, MainQ(svc), Rejected))
      ensures model.reached >= old(model.reached)
    {
      Advance(Exec(svc, i));
    }

    /** The machine's side of basic_nack. */
    ghost method NackAt(i: nat, tag: nat, copy: Copy)
      requires Valid() && i < |tags| && tags[i] == tag && Has(Hand(tag, Flight(copy, Settling([Nack])))) && open
      requires Flights()[i].phase == Settling([Nack])
      modifies this`model, this`steps, this`trail, this`tags
      ensures Logged(model) && svc < |svcs|
      ensures var c := Bump(copy, MainQ(svc), Rejected);
              && SameQueues(ToRetry(svcs, c), model.svcs)
              && Tagged(tags, unacked - {tag}, model.svcs[svc].flights)
              && Resting(tags, model.svcs[svc].flights, Nothing)
      ensures model.reached >= old(model.reached)
    {
      var was := model.svcs;
      TaggedMeans(tags, unacked, was[svc].flights);
      TaggedWithout(tags, unacked, was[svc].flights, i);
      RestingWithout(tags, was[svc].flights, i, Hand(tag, Flight(copy, Settling([Nack]))));
      NackAlike(svcs, was, Bump(copy, MainQ(svc), Rejected), svc, i);
      AdvanceNack(i, copy);
      tags := Without(tags, i);
    }

    /** basic_nack(requeue=False): the server dead-letters the message. It raises on a
        channel that was lost. */
    method BasicNack(tag: nat, copy: Copy) returns (r: Result<(), Error>)
      requires Valid() && (open ==> Has(Hand(tag, Flight(copy, Settling([Nack])))))
      modifies this
      ensures Valid() && open == old(open) && Has(Nothing)
      ensures r == if open then Ok(()) else Raised(ChannelClosed)
      ensures unacked == if open then old(unacked) - {tag} else old(unacked)
      ensures svcs == if open then ToRetry(old(svcs), Bump(copy, MainQ(svc), Rejected)) else old(svcs)
      ensures |svcs| == |old(svcs)|
      ensures forall j: nat | j < |svcs| ::
                svcs[j] == if open && old(svcs)[j].declared
                           then old(svcs)[j].(retry := old(svcs)[j].retry + [Bump(copy, MainQ(svc), Rejected)])
                           else old(svcs)[j]
      ensures model.reached >= old(model.reached)
    {
      if !open { return Raised(ChannelClosed); }
      ghost var i: nat :| IsDoing(tags, Flights(), i, tag, Settling([Nack]));
      NackAt(i, tag, copy);
      svcs := ToRetry(svcs, Bump(copy, MainQ(svc), Rejected));
      unacked := unacked - {tag};
      r := Ok(());
    }

    /** A dead letter reached the exchange. If the channel was lost, the copy it stands
        for is no longer this worker's. */
    method WriteDead(ghost tag: nat, ghost copy: Copy, e: Envelope)
      requires Valid() && Has(Hand(tag, Flight(copy, Settling([Bury, Cmd.Ack])))) && copy.body == Some(e)
      modifies this`svcs, this`model, this`steps, this`trail
      ensures Valid() && svcs == ToDlq(old(svcs), e)
      ensures |svcs| == |old(svcs)|
      ensures forall j: nat | j < |svcs| ::
                svcs[j] == if old(svcs)[j].declared then old(svcs)[j].(dlq := old(svcs)[j].dlq + [e]) else old(svcs)[j]
      ensures open ==> Has(Hand(tag, Flight(copy, Settling([Cmd.Ack]))))
      ensures !open ==> Has(Nothing)
      ensures model.reached >= old(model.reached)
    {
      if open {
        ghost var i: nat :| IsDoing(tags, Flights(), i, tag, Settling([Bury, Cmd.Ack]));
        assert [Bury, Cmd.Ack][1..] == [Cmd.Ack];
        TaggedPhase(tags, unacked, model.svcs[svc].flights, i, Settling([Cmd.Ack]));
        BuryAlike(svcs, model.svcs, e, svc, i, Settling([Cmd.Ack]));
        svcs := ToDlq(svcs, e);
        Advance(Exec(svc, i));
      } else {
        DlqAlike(svcs, model.svcs, e, svc);
        svcs := ToDlq(svcs, e);
        Advance(LateBury(svc, Flight(copy, Settling([Bury, Cmd.Ack]))));
      }
    }

    // ----- losing the channel

    ghost method AdvanceRequeue(i: nat)
      requires Logged(model) && svc < |model.svcs| == |cfg.maxRetries| && i < |model.svcs[svc].flights|
      modifies this`model, this`steps, this`trail
      ensures Logged(model)
      ensures var w := old(model.svcs)[svc];
              && model.svcs == old(model.svcs)[svc :=
                   w.(ready := w.ready + [w.flights[i].copy], flights := Without(w.flights, i))]
              && model.orphans == old(model.orphans) + Orphaned(svc, w.flights[i])
      ensures model.reached >= old(model.reached)
    {
      Advance(Requeue(svc, i));
    }

    /** The machine's side of a requeue. */
    ghost method RequeueAt(i: nat, tag: nat)
      requires Valid() && i < |tags| && tags[i] == tag
      modifies this`model, this`steps, this`trail, this`tags
      ensures Logged(model) && svc < |svcs| && tag in unacked
      ensures SameQueues(svcs[svc := svcs[svc].(ready := svcs[svc].ready + [unacked[tag]])], model.svcs)
      ensures Tagged(tags, unacked - {tag}, model.svcs[svc].flights)
      ensures tags == Without(old(tags), i) && Flights() == Without(old(Flights()), i)
      ensures model.orphans == old(model.orphans) + Orphaned(svc, old(Flights())[i])
      ensures model.reached >= old(model.reached)
    {
      var w := model.svcs[svc];
      TaggedWithout(tags, unacked, w.flights, i);
      RequeueAlike(svcs, model.svcs, svc, i);
      AdvanceRequeue(i);
      tags := Without(tags, i);
    }

    /** The delivery is still with the channel. */
    ghost predicate Carries(hand: Hand)
      reads this
    {
      hand.Hand? ==> hand.tag in unacked && unacked[hand.tag] == hand.f.copy && At(hand.tag, hand.f.phase)
    }

    ghost predicate GoesOn(hand: Hand) {
      hand.Hand? ==> hand.f.phase.Held? || Burying(hand.f.phase)
    }

    ghost predicate IsOrphan(hand: Hand)
      reads this
    {
      hand.Hand? ==> (svc, hand.f) in model.orphans
    }

    /** The machine's side of taking one message back, following what is in hand. */
    ghost method RequeueKnown(tag: nat, hand: Hand)
      requires Valid() && tag in unacked && GoesOn(hand)
      modifies this`model, this`steps, this`trail, this`tags
      ensures Logged(model) && svc < |svcs|
      ensures SameQueues(svcs[svc := svcs[svc].(ready := svcs[svc].ready + [unacked[tag]])], model.svcs)
      ensures Tagged(tags, unacked - {tag}, model.svcs[svc].flights)
      ensures model.orphans >= old(model).orphans
      ensures old(Carries(hand)) && hand.Hand? ==> if tag == hand.tag then IsOrphan(hand) else At(hand.tag, hand.f.phase)
      ensures model.reached >= old(model.reached)
    {
      var flights, tagsWas, carries := Flights(), tags, hand.Hand? && Carries(hand);
      TaggedMeans(tags, unacked, flights);
      var i: nat :| i < |tags| && tags[i] == tag;
      if carries && tag == hand.tag { OneTag(tags, flights, i, tag, hand.f.phase); }
      RequeueAt(i, tag);
      if carries && tag != hand.tag { StillDoing(tagsWas, flights, i, hand.tag, hand.f.phase); }
    }

    /** The server takes one unacknowledged message back. */
    method RequeueOne(tag: nat, ghost hand: Hand)
      requires Valid() && tag in unacked && GoesOn(hand)
      modifies this`svcs, this`unacked, this`model, this`steps, this`trail, this`tags
      ensures Valid() && unacked == old(unacked) - {tag}
      ensures var v := old(svcs)[svc]; svcs == old(svcs)[svc := v.(ready := v.ready + [old(unacked)[tag]])]
      ensures model.orphans >= old(model).orphans
      ensures old(Carries(hand)) ==> IsOrphan(hand) || Carries(hand)
      ensures model.reached >= old(model.reached)
    {
      RequeueKnown(tag, hand);
      svcs := svcs[svc := svcs[svc].(ready := svcs[svc].ready + [unacked[tag]])];
      unacked := unacked - {tag};
    }

    /** The connection is lost, or closed and reopened by a publish: the server requeues
        everything that was unacked, and this consuming channel stays closed. The worker
        goes on with the receivers it is running or the dead letter it is publishing. */
    method Reconnect(ghost hand: Hand)
      requires Valid() && GoesOn(hand)
      modifies this
      ensures Valid() && !open && unacked == map[]
      ensures Refilled(old(svcs), svcs, svc) && BackIn(old(unacked), map[], svcs[svc].ready)
      ensures model.orphans >= old(model).orphans && Has(Nothing)
      ensures old(Has(hand)) ==> Has(hand)
      ensures model.reached >= old(model.reached)
    {
      ghost var was, carries, orphan := svcs, open && Carries(hand), !open && IsOrphan(hand);
      while unacked != map[]
        invariant Valid() && svc < |was| && (open ==> old(open))
        invariant Refilled(was, svcs, svc) && BackIn(old(unacked), unacked, svcs[svc].ready)
        invariant model.orphans >= old(model).orphans
        invariant carries ==> Carries(hand) || IsOrphan(hand)
        invariant model.reached >= old(model.reached)
        decreases |unacked|
      {
        var tag :| tag in unacked;
        RefilledMore(was, svcs, svc, unacked[tag]);
        BackInMore(old(unacked), unacked, svcs[svc].ready, tag);
        RequeueOne(tag, hand);
      }
      open := false;
      assert tags == [];
    }

    /** listen() again, after a connection was lost or the process was restarted. */
    method Reopen()
      requires Valid() && unacked == map[]
      modifies this`open
      ensures Valid() && open && Has(Nothing)
      ensures model.reached >= old(model.reached)
    {
      open := true;
      assert tags == [];
    }
  }

  /** Nothing changed but that the main queue of k got more messages at its end. */
  /** Every declared service has been sent the event. */
  ghost predicate Arrived(svcs: seq<Svc>, reached: set<(nat, Envelope)>, e: Envelope) {
    forall j: nat | j < |svcs| && svcs[j].declared :: (j, e) in reached
  }

  ghost predicate SameDeclared(v: seq<Svc>, w: seq<Svc>) {
    |v| == |w| && forall j: nat | j < |v| :: v[j].declared == w[j].declared
  }

  ghost predicate Refilled(v: seq<Svc>, w: seq<Svc>, k: nat) {
    && k < |v| == |w|
    && w == v[k := v[k].(ready := w[k].ready)]
    && v[k].ready <= w[k].ready
  }

  lemma RefilledMore(v: seq<Svc>, w: seq<Svc>, k: nat, c: Copy)
    requires Refilled(v, w, k)
    ensures Refilled(v, w[k := w[k].(ready := w[k].ready + [c])], k)
  {
  }

  lemma RefilledAgain(u: seq<Svc>, v: seq<Svc>, w: seq<Svc>, k: nat, was: map<nat, Copy>)
    requires Refilled(u, v, k) && Refilled(v, w, k) && BackIn(was, map[], v[k].ready)
    ensures Refilled(u, w, k) && BackIn(was, map[], w[k].ready)
  {
    forall t | t in was ensures was[t] in w[k].ready {
      var i :| 0 <= i < |v[k].ready| && v[k].ready[i] == was[t];
      assert w[k].ready[i] == was[t];
    }
  }

  /** What was handed out is in the queue again, or still handed out. */
  ghost predicate BackIn(was: map<nat, Copy>, now: map<nat, Copy>, ready: seq<Copy>) {
    forall t | t in was :: was[t] in ready || (t in now && now[t] == was[t])
  }

  lemma BackInMore(was: map<nat, Copy>, now: map<nat, Copy>, ready: seq<Copy>, tag: nat)
    requires BackIn(was, now, ready) && tag in now
    ensures BackIn(was, now - {tag}, ready + [now[tag]])
  {
  }

  /** A tag stands for one flight. */
  lemma OneTag(tags: seq<nat>, flights: seq<Flight>, i: nat, tag: nat, phase: Phase)
    requires i < |tags| == |flights| && tags[i] == tag && Doing(tags, flights, tag, phase)
    requires forall j, k | 0 <= j < k < |tags| :: tags[j] != tags[k]
    ensures flights[i].phase == phase
  {
    var k: nat :| IsDoing(tags, flights, k, tag, phase);
  }

  lemma StillDoing(tags: seq<nat>, flights: seq<Flight>, i: nat, tag: nat, phase: Phase)
    requires i < |tags| == |flights| && tags[i] != tag && Doing(tags, flights, tag, phase)
    ensures Doing(Without(tags, i), Without(flights, i), tag, phase)
  {
    var k: nat :| IsDoing(tags, flights, k, tag, phase);
    assert IsDoing(Without(tags, i), Without(flights, i), if k < i then k else k - 1, tag, phase);
  }
}
