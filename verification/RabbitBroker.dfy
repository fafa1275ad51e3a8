/** The code of the RabbitMQ broker for one event type. Every method keeps
    Channel.Valid(), that is, whatever the code does is a run of the machine. */
module RabbitBroker {
  import opened Wrappers
  import opened Events
  import opened Counters
  import opened Sums
  import opened RabbitMachine
  import opened RabbitConservation
  import opened RabbitChannel

  class Broker {
    const channel: Channel
    const publishRetries: nat
    var pending: map<string, (nat, Copy)>   // event id -> (delivery tag, properties)

    constructor (channel: Channel, publishRetries: nat)
      ensures this.channel == channel && this.publishRetries == publishRetries && pending == map[]
    {
      this.channel, this.publishRetries := channel, publishRetries;
      pending := map[];
    }

    /** Reads the attempts already made from x-death. */
    static method DeathCount(deaths: seq<Death>, svc: nat) returns (n: nat)
      ensures n == CountOf(deaths, MainQ(svc), Rejected)
      ensures (forall d | d in deaths :: d.queue != MainQ(svc) || d.reason != Rejected) ==> n == 0
      ensures forall i | 0 <= i < |deaths| && deaths[i].queue == MainQ(svc) && deaths[i].reason == Rejected
                         && (forall j | 0 <= j < i :: deaths[j].queue != MainQ(svc) || deaths[j].reason != Rejected) ::
                n == deaths[i].count
    {
      for i := 0 to |deaths|
        invariant forall j | 0 <= j < i :: deaths[j].queue != MainQ(svc) || deaths[j].reason != Rejected
        invariant CountOf(deaths, MainQ(svc), Rejected) == CountOf(deaths[i..], MainQ(svc), Rejected)
      {
        assert deaths[i..][1..] == deaths[i + 1..];
        if deaths[i].queue == MainQ(svc) && deaths[i].reason == Rejected {
          return deaths[i].count;
        }
      }
      n := 0;
    }

    /** The attempts of _publish_to up to the first one that meets no outage; down holds
        those that do. Every failed attempt but the last costs the connection, and with it
        everything the consuming channel was handed. */
    method Connect(ghost hand: Hand, down: set<nat>, ghost svcs: seq<Svc>, ghost unacked: map<nat, Copy>, ghost lost: bool)
      returns (up: bool)
      requires Poised(hand, lost, svcs, unacked)
      modifies channel
      ensures !up <==> forall i: nat | i <= publishRetries :: i in down
      ensures Poised(hand, lost || (0 in down && (up || publishRetries > 0)), svcs, unacked)
      ensures 0 !in down ==> channel.svcs == old(channel.svcs) && channel.open == old(channel.open)
      ensures channel.model.reached >= old(channel.model.reached)
    {
      var attempts := publishRetries + 1;
      var attempt := 1;
      while attempt - 1 in down
        invariant 1 <= attempt <= attempts && Poised(hand, lost || attempt > 1, svcs, unacked)
        invariant forall i: nat | i < attempt - 1 :: i in down
        invariant attempt == 1 ==> channel.svcs == old(channel.svcs) && channel.open == old(channel.open)
        invariant channel.model.reached >= old(channel.model.reached)
        decreases attempts - attempt
      {
        if attempt == attempts { return false; }
        Reopen(hand, lost || attempt > 1, svcs, unacked);
        attempt := attempt + 1;
      }
      assert attempt > 1 ==> 0 in down;
      up := true;
    }

    /** A publish is about to be attempted: with the consuming channel still there and
        nothing changed, or with that channel lost and all it was handed back in its queue. */
    ghost predicate Poised(hand: Hand, lost: bool, svcs: seq<Svc>, unacked: map<nat, Copy>)
      reads channel
    {
      && channel.Valid() && channel.Has(hand) && channel.GoesOn(hand)
      && if lost then
           && !channel.open
           && Refilled(svcs, channel.svcs, channel.svc) && BackIn(unacked, map[], channel.svcs[channel.svc].ready)
         else
           channel.open && channel.svcs == svcs && channel.unacked == unacked
    }

    lemma PoisedToStart(hand: Hand)
      requires channel.Valid() && channel.Has(hand) && channel.GoesOn(hand)
      ensures Poised(hand, !channel.open, channel.svcs, channel.unacked)
    {
    }

    lemma StillThere(hand: Hand, lost: bool, svcs: seq<Svc>, unacked: map<nat, Copy>)
      requires Poised(hand, lost, svcs, unacked)
      ensures Refilled(svcs, channel.svcs, channel.svc)
      ensures BackIn(unacked, channel.unacked, channel.svcs[channel.svc].ready)
    {
    }

    method Reopen(ghost hand: Hand, ghost lost: bool, ghost svcs: seq<Svc>, ghost unacked: map<nat, Copy>)
      requires Poised(hand, lost, svcs, unacked)
      modifies channel
      ensures Poised(hand, true, svcs, unacked)
      ensures channel.model.reached >= old(channel.model.reached)
    {
      ghost var before := channel.svcs;
      channel.Reconnect(hand);
      if lost { RefilledAgain(svcs, before, channel.svcs, channel.svc, unacked); }
    }

    /** publish(), which receivers may call too while a delivery is in hand. A success
        on the first attempt keeps the channel of that delivery. */
    method Publish(e: Envelope, down: set<nat>, ghost hand: Hand) returns (r: Result<(), Error>)
      requires channel.Valid() && channel.Has(hand) && channel.GoesOn(hand)
      modifies channel
      ensures channel.Valid() && channel.Has(hand)
      ensures r == if forall i: nat | i <= publishRetries :: i in down then Raised(Unreachable) else Ok(())
      ensures channel.open ==> old(channel.open) && channel.unacked == old(channel.unacked)
      ensures SameDeclared(old(channel.svcs), channel.svcs)
      ensures r.Ok? ==> Arrived(old(channel.svcs), channel.model.reached, e)
      ensures 0 !in down ==> channel.open == old(channel.open) && channel.svcs == ToMain(old(channel.svcs), Copy(Some(e), []))
      ensures 0 in down && r.Ok? ==>
                !channel.open && Routed(old(channel.svcs), channel.svcs, channel.svc, old(channel.unacked), e)
      ensures r.Raised? ==>
                && Refilled(old(channel.svcs), channel.svcs, channel.svc)
                && BackIn(old(channel.unacked), channel.unacked, channel.svcs[channel.svc].ready)
      ensures channel.model.reached >= old(channel.model.reached)
    {
      ghost var svcs, unacked, lost := channel.svcs, channel.unacked, !channel.open;
      PoisedToStart(hand);
      var up := Connect(hand, down, svcs, unacked, lost);
      if !up {
        StillThere(hand, lost || (0 in down && publishRetries > 0), svcs, unacked);
        return Raised(Unreachable);
      }
      Route(e, hand, lost || 0 in down, svcs, unacked);
      r := Ok(());
    }

    /** The publish itself, on the consuming channel or a new one. */
    method Route(e: Envelope, ghost hand: Hand, ghost lost: bool, ghost svcs: seq<Svc>, ghost unacked: map<nat, Copy>)
      requires Poised(hand, lost, svcs, unacked)
      modifies channel
      ensures channel.Valid() && channel.Has(hand)
      ensures !lost ==> channel.open && channel.unacked == unacked
      ensures lost ==> !channel.open && Routed(svcs, channel.svcs, channel.svc, unacked, e)
      ensures channel.svcs == ToMain(old(channel.svcs), Copy(Some(e), []))
      ensures SameDeclared(svcs, channel.svcs) && Arrived(svcs, channel.model.reached, e)
      ensures channel.model.reached >= old(channel.model.reached)
    {
      ghost var mid := channel.svcs;
      assert SameDeclared(svcs, mid);
      channel.Publish(e);
      if lost { RoutedLate(svcs, mid, channel.svc, unacked, e); }
    }

    /** _publish_to the dead-letter exchange. */
    method PublishDead(e: Envelope, ghost tag: nat, ghost copy: Copy, down: set<nat>) returns (r: Result<(), Error>)
      requires channel.Valid() && channel.Has(Hand(tag, Flight(copy, Settling([Bury, Cmd.Ack])))) && copy.body == Some(e)
      modifies channel
      ensures channel.Valid()
      ensures r == if forall i: nat | i <= publishRetries :: i in down then Raised(Unreachable) else Ok(())
      ensures r.Ok? && old(channel.open) && 0 !in down ==>
                && channel.open && channel.svcs == ToDlq(old(channel.svcs), e)
                && channel.unacked == old(channel.unacked) && channel.Has(Hand(tag, Flight(copy, Settling([Cmd.Ack]))))
      ensures r.Ok? && !(old(channel.open) && 0 !in down) ==>
                && !channel.open && channel.Has(Nothing)
                && WrittenLate(old(channel.svcs), channel.svcs, channel.svc, old(channel.unacked), e)
      ensures r.Raised? ==>
                && Refilled(old(channel.svcs), channel.svcs, channel.svc)
                && BackIn(old(channel.unacked), channel.unacked, channel.svcs[channel.svc].ready)
                && (publishRetries > 0 ==> channel.Has(Nothing))
      ensures channel.model.reached >= old(channel.model.reached)
    {
      ghost var hand := Hand(tag, Flight(copy, Settling([Bury, Cmd.Ack])));
      ghost var svcs, unacked, lost := channel.svcs, channel.unacked, !channel.open;
      PoisedToStart(hand);
      var up := Connect(hand, down, svcs, unacked, lost);
      if !up {
        StillThere(hand, lost || (0 in down && publishRetries > 0), svcs, unacked);
        assert !channel.open ==> channel.Has(Nothing) by { if !channel.open { ClosedHasNothing(); } }
        return Raised(Unreachable);
      }
      Write(e, tag, copy, lost || 0 in down, svcs, unacked);
      r := Ok(());
    }

    lemma ClosedHasNothing()
      requires channel.Valid() && !channel.open
      ensures channel.Has(Nothing)
    {
      assert channel.tags == [];
    }

    method Write(
        e: Envelope, ghost tag: nat, ghost copy: Copy, ghost lost: bool, ghost svcs: seq<Svc>, ghost unacked: map<nat, Copy>)
      requires Poised(Hand(tag, Flight(copy, Settling([Bury, Cmd.Ack]))), lost, svcs, unacked) && copy.body == Some(e)
      modifies channel
      ensures channel.Valid()
      ensures !lost ==>
                && channel.open && channel.svcs == ToDlq(svcs, e) && channel.unacked == unacked
                && channel.Has(Hand(tag, Flight(copy, Settling([Cmd.Ack]))))
      ensures lost ==>
                !channel.open && channel.Has(Nothing) && WrittenLate(svcs, channel.svcs, channel.svc, unacked, e)
      ensures channel.model.reached >= old(channel.model.reached)
    {
      if !channel.open { LateWrite(svcs, channel.svcs, channel.svc, unacked, e); }
      channel.WriteDead(tag, copy, e);
    }

    /** An unreadable message is acknowledged and not yielded. */
    method ToEnvelope(tag: nat, copy: Copy) returns (r: Option<Envelope>)
      requires channel.Valid() && channel.open && channel.Has(Nothing) && channel.At(tag, Prefetched)
      requires tag in channel.unacked && channel.unacked[tag] == copy
      modifies this, channel
      ensures channel.Valid() && channel.open && r == copy.body && channel.svcs == old(channel.svcs)
      ensures r.Some? ==>
                && pending == old(pending)[r.value.eventId := (tag, copy)]
                && channel.unacked == old(channel.unacked) && channel.Has(Hand(tag, Flight(copy, Held)))
      ensures r.None? ==>
                && pending == old(pending) && channel.unacked == old(channel.unacked) - {tag} && channel.Has(Nothing)
      ensures channel.model.reached >= old(channel.model.reached)
    {
      channel.Take(tag);
      if copy.body.None? {
        var acked := channel.BasicAck(tag, copy);
        return None;
      }
      pending := pending[copy.body.value.eventId := (tag, copy)];
      r := copy.body;
    }

    /** The event's delivery is what this worker has in hand, be its channel open or lost. */
    ghost predicate Holds(e: Envelope)
      reads this, channel
    {
      e.eventId in pending ==>
        var (tag, copy) := pending[e.eventId];
        copy.body == Some(e) && channel.Has(Hand(tag, Flight(copy, Held)))
    }

    method Ack(e: Envelope) returns (r: Result<(), Error>)
      requires channel.Valid() && Holds(e)
      modifies this, channel
      ensures channel.Valid() && pending == old(pending) - {e.eventId}
      ensures channel.svcs == old(channel.svcs) && channel.open == old(channel.open)
      ensures r == if e.eventId !in old(pending) || channel.open then Ok(()) else Raised(ChannelClosed)
      ensures channel.unacked == if e.eventId in old(pending) && channel.open
                                 then old(channel.unacked) - {old(pending)[e.eventId].0} else old(channel.unacked)
      ensures e.eventId in old(pending) ==> channel.Has(Nothing) && (channel.svc, e) in channel.model.done
      ensures channel.model.reached >= old(channel.model.reached)
    {
      if e.eventId !in pending { return Ok(()); }
      var (tag, copy) := pending[e.eventId];
      pending := pending - {e.eventId};
      channel.Dispatched(tag, copy, true);
      r := channel.BasicAck(tag, copy);
    }

    /** Returns True when the event is given up. It raises exactly when the channel of the
        message is gone, or when the event is to be given up and the first dead-letter
        publish meets an outage. A retry on a lost channel changes nothing: the message is
        back in its queue. A burial either fails altogether, and there is no dead letter,
        or the dead letter is written although the message is back in its queue, so that
        it will be written again. */
    method Fail(e: Envelope, down: set<nat>) returns (r: Result<bool, Error>)
      requires channel.Valid() && Holds(e)
      modifies this, channel
      ensures channel.Valid() && pending == old(pending) - {e.eventId}
      ensures e.eventId !in old(pending) ==>
                r == Ok(true) && channel.svcs == old(channel.svcs) && channel.unacked == old(channel.unacked)
      ensures e.eventId in old(pending) ==>
                var (tag, copy) := old(pending)[e.eventId];
                var retries := Retries(channel.cfg, channel.svc, copy);
                && (r.Raised? <==> !old(channel.open) || (!retries && 0 in down))
                && (r.Ok? ==>
                      && r.value == !retries && channel.Has(Nothing)
                      && channel.open && channel.unacked == old(channel.unacked) - {tag}
                      && channel.svcs == (if r.value then ToDlq(old(channel.svcs), e)
                                          else ToRetry(old(channel.svcs), Bump(copy, MainQ(channel.svc), Rejected))))
                && (r.Raised? && retries ==>
                      && r == Raised(ChannelClosed) && channel.Has(Nothing)
                      && channel.svcs == old(channel.svcs) && channel.unacked == old(channel.unacked))
                && (r.Raised? && !retries ==>
                      && (r == Raised(Unreachable) <==> forall i: nat | i <= publishRetries :: i in down)
                      && if r == Raised(Unreachable) then
                           && Refilled(old(channel.svcs), channel.svcs, channel.svc)
                           && BackIn(old(channel.unacked), channel.unacked, channel.svcs[channel.svc].ready)
                         else
                           && r == Raised(ChannelClosed) && channel.Has(Nothing)
                           && WrittenLate(old(channel.svcs), channel.svcs, channel.svc, old(channel.unacked), e))
      ensures channel.model.reached >= old(channel.model.reached)
    {
      if e.eventId !in pending { return Ok(true); }
      var (tag, copy) := pending[e.eventId];
      pending := pending - {e.eventId};
      channel.Dispatched(tag, copy, false);
      var count := DeathCount(copy.deaths, channel.svc);
      var attempt := count + 1;
      if attempt < channel.cfg.maxRetries[channel.svc] {
        var nacked := channel.BasicNack(tag, copy);
        if nacked.Raised? { return Raised(nacked.error); }
        return Ok(false);
      }
      var published := PublishDead(e, tag, copy, down);
      if published.Raised? { return Raised(published.error); }
      var acked := channel.BasicAck(tag, copy);
      if acked.Raised? { return Raised(acked.error); }
      r := Ok(true);
    }
  }

  /** Everything handed out is back in the main queue of k, and after that the dead
      letter went to every declared service. */
  ghost predicate WrittenLate(was: seq<Svc>, now: seq<Svc>, k: nat, unacked: map<nat, Copy>, e: Envelope) {
    exists mid: seq<Svc> :: Refilled(was, mid, k) && now == ToDlq(mid, e) && BackIn(unacked, map[], mid[k].ready)
  }

  /** The same for a publish on the main exchange. */
  ghost predicate Routed(was: seq<Svc>, now: seq<Svc>, k: nat, unacked: map<nat, Copy>, e: Envelope) {
    exists mid: seq<Svc> ::
      Refilled(was, mid, k) && now == ToMain(mid, Copy(Some(e), [])) && BackIn(unacked, map[], mid[k].ready)
  }

  lemma RoutedLate(was: seq<Svc>, mid: seq<Svc>, k: nat, unacked: map<nat, Copy>, e: Envelope)
    requires Refilled(was, mid, k) && BackIn(unacked, map[], mid[k].ready)
    ensures Routed(was, ToMain(mid, Copy(Some(e), [])), k, unacked, e)
  {
  }

  lemma LateWrite(was: seq<Svc>, mid: seq<Svc>, k: nat, unacked: map<nat, Copy>, e: Envelope)
    requires Refilled(was, mid, k) && BackIn(unacked, map[], mid[k].ready)
    ensures WrittenLate(was, ToDlq(mid, e), k, unacked, e)
  {
  }

  /** What conservation means for the code: in every state its methods can reach, an
      event that any copy of ever reached this worker's service is handled, in its
      dead letters, in its main queue, handed out to this channel or in a retry queue. */
  lemma CodeConserves(c: Channel, e: Envelope)
    requires c.Valid() && (c.svc, e) in c.model.reached
    ensures || (c.svc, e) in c.model.done
            || e in c.svcs[c.svc].dlq
            || InQueue(c.svcs[c.svc].ready, e)
            || (exists tag :: tag in c.unacked && c.unacked[tag].body == Some(e))
            || exists k: nat :: Retrying(c.svcs, k, e)
  {
    TrailIsRun(c.cfg, c.trail, c.steps);
    Conservation(c.cfg, c.trail[0], c.steps, c.svc, e);
    assert QueuesEqual(c.svcs[c.svc], c.model.svcs[c.svc]);
    var flights := c.model.svcs[c.svc].flights;
    if InFlight(flights, e) {
      var i: nat :| i < |flights| && flights[i].copy.body == Some(e);
      TaggedMeans(c.tags, c.unacked, flights);
      assert c.tags[i] in c.unacked && c.unacked[c.tags[i]].body == Some(e);
    } else if exists k: nat :: Retrying(c.model.svcs, k, e) {
      var k: nat :| Retrying(c.model.svcs, k, e);
      assert QueuesEqual(c.svcs[k], c.model.svcs[k]);
      assert Retrying(c.svcs, k, e);
    }
  }

  // ----- the worker's loop

  /** What one receiver does: it may publish events of its own, and it may raise. A
      publish that raises makes the receiver raise. */
  datatype Act = Act(publishes: seq<(Envelope, set<nat>)>, raises: bool)

  /** The receiver raises, by itself or because a publish of it meets an outage at every attempt. */
  predicate Fails(act: Act, publishRetries: nat) {
    act.raises || exists x | x in act.publishes :: AllDown(x.1, publishRetries)
  }

  predicate AllDown(down: set<nat>, publishRetries: nat) {
    forall i: nat | i <= publishRetries :: i in down
  }

  /** One receiver is run. */
  method RunReceiver(broker: Broker, act: Act, ghost hand: Hand) returns (raised: bool)
    requires broker.channel.Valid() && broker.channel.Has(hand) && broker.channel.GoesOn(hand)
    modifies broker.channel
    ensures broker.channel.Valid() && broker.channel.Has(hand)
    ensures broker.channel.open ==> old(broker.channel.open) && broker.channel.unacked == old(broker.channel.unacked)
    ensures raised <==> Fails(act, broker.publishRetries)
    ensures SameDeclared(old(broker.channel.svcs), broker.channel.svcs)
    ensures !raised ==> AllArrived(old(broker.channel.svcs), broker.channel.model.reached, act)
    ensures broker.channel.model.reached >= old(broker.channel.model.reached)
  {
    for i := 0 to |act.publishes|
      invariant broker.channel.Valid() && broker.channel.Has(hand)
      invariant broker.channel.open ==> old(broker.channel.open) && broker.channel.unacked == old(broker.channel.unacked)
      invariant forall j | 0 <= j < i :: !AllDown(act.publishes[j].1, broker.publishRetries)
      invariant SameDeclared(old(broker.channel.svcs), broker.channel.svcs)
      invariant broker.channel.model.reached >= old(broker.channel.model.reached)
      invariant forall j | 0 <= j < i ::
                  Arrived(old(broker.channel.svcs), broker.channel.model.reached, act.publishes[j].0)
    {
      var published := PublishOne(broker, act.publishes[i].0, act.publishes[i].1, hand);
      if !published {
        assert act.publishes[i] in act.publishes;
        return true;
      }
    }
    raised := act.raises;
  }

  method PublishOne(broker: Broker, e: Envelope, down: set<nat>, ghost hand: Hand) returns (ok: bool)
    requires broker.channel.Valid() && broker.channel.Has(hand) && broker.channel.GoesOn(hand)
    modifies broker.channel
    ensures broker.channel.Valid() && broker.channel.Has(hand)
    ensures broker.channel.open ==> old(broker.channel.open) && broker.channel.unacked == old(broker.channel.unacked)
    ensures ok <==> !AllDown(down, broker.publishRetries)
    ensures SameDeclared(old(broker.channel.svcs), broker.channel.svcs)
    ensures ok ==> Arrived(old(broker.channel.svcs), broker.channel.model.reached, e)
    ensures broker.channel.model.reached >= old(broker.channel.model.reached)
  {
    var published := broker.Publish(e, down, hand);
    ok := published.Ok?;
  }

  /** Every declared service has been sent all that the receiver published. */
  ghost predicate AllArrived(svcs: seq<Svc>, reached: set<(nat, Envelope)>, act: Act) {
    forall j | 0 <= j < |act.publishes| :: Arrived(svcs, reached, act.publishes[j].0)
  }

  /** All receivers are run, in order, whatever the others did. */
  method RunAll(broker: Broker, acts: seq<Act>, ghost hand: Hand) returns (ran: seq<bool>)
    requires broker.channel.Valid() && broker.channel.Has(hand) && broker.channel.GoesOn(hand)
    modifies broker.channel
    ensures broker.channel.Valid() && broker.channel.Has(hand)
    ensures broker.channel.open ==> broker.channel.unacked == old(broker.channel.unacked)
    ensures |ran| == |acts| && forall i | 0 <= i < |acts| :: ran[i] <==> Fails(acts[i], broker.publishRetries)
    ensures forall i | 0 <= i < |acts| && !ran[i] ::
              AllArrived(old(broker.channel.svcs), broker.channel.model.reached, acts[i])
    ensures broker.channel.model.reached >= old(broker.channel.model.reached)
  {
    ran := [];
    for i := 0 to |acts|
      invariant broker.channel.Valid() && broker.channel.Has(hand)
      invariant broker.channel.open ==> broker.channel.unacked == old(broker.channel.unacked)
      invariant |ran| == i && forall j | 0 <= j < i :: ran[j] <==> Fails(acts[j], broker.publishRetries)
      invariant SameDeclared(old(broker.channel.svcs), broker.channel.svcs)
      invariant broker.channel.model.reached >= old(broker.channel.model.reached)
      invariant forall j | 0 <= j < i && !ran[j] ::
                  AllArrived(old(broker.channel.svcs), broker.channel.model.reached, acts[j])
    {
      var raised := RunReceiver(broker, acts[i], hand);
      ran := ran + [raised];
    }
  }

  /** The dispatcher: all receivers are run, then the event is settled. ran[i] says whether
      receiver i raised. */
  method Dispatch(broker: Broker, e: Envelope, acts: seq<Act>, down: set<nat>)
    returns (r: Result<bool, Error>, ran: seq<bool>)
    requires broker.channel.Valid() && broker.Holds(e) && e.eventId in broker.pending
    modifies broker, broker.channel
    ensures broker.channel.Valid() && broker.pending == old(broker.pending) - {e.eventId}
    ensures |ran| == |acts| && forall i | 0 <= i < |acts| :: ran[i] <==> Fails(acts[i], broker.publishRetries)
    ensures forall i | 0 <= i < |acts| && !ran[i] ::
              AllArrived(old(broker.channel.svcs), broker.channel.model.reached, acts[i])
    ensures r.Ok? ==> EventSettles(broker.channel, e, old(broker.pending)[e.eventId].1, r.value)
    ensures r.Ok? ==>
              && (r.value <==> true !in ran)
              && broker.channel.Has(Nothing) && broker.channel.open
              && broker.channel.unacked == old(broker.channel.unacked) - {old(broker.pending)[e.eventId].0}
    ensures broker.channel.model.reached >= old(broker.channel.model.reached)
  {
    var (tag, copy) := broker.pending[e.eventId];
    ran := RunAll(broker, acts, Hand(tag, Flight(copy, Held)));
    if true !in ran {
      var acked := broker.Ack(e);
      r := if acked.Ok? then Ok(true) else Raised(acked.error);
    } else {
      var failed := broker.Fail(e, down);
      r := if failed.Ok? then Ok(false) else Raised(failed.error);
    }
  }

  /** Handled, the event is done; failed, its copy with one more rejection is the last one in
      every declared retry queue, or at the limit the event is the last dead letter of
      every declared service. */
  ghost predicate EventSettles(c: Channel, e: Envelope, copy: Copy, handled: bool)
    reads c
  {
    if handled then (c.svc, e) in c.model.done
    else
      && c.svc < |c.cfg.maxRetries|
      && forall j: nat | j < |c.svcs| && c.svcs[j].declared ::
           if CountOf(copy.deaths, MainQ(c.svc), Rejected) + 1 < c.cfg.maxRetries[c.svc] then
             c.svcs[j].retry != [] && c.svcs[j].retry[|c.svcs[j].retry| - 1] == Bump(copy, MainQ(c.svc), Rejected)
           else
             c.svcs[j].dlq != [] && c.svcs[j].dlq[|c.svcs[j].dlq| - 1] == e
  }

  /** Between two turns of the loop: nothing is pending, and all the channel was handed
      is merely prefetched. */
  ghost predicate BetweenTurns(broker: Broker)
    reads broker, broker.channel
  {
    var c := broker.channel;
    c.Valid() && c.open && c.Has(Nothing) && broker.pending == map[]
  }

  /** One turn with any prefetched delivery, in whatever state queues and other
      deliveries are, copies of the same event included. Fetching one at a time is not
      assumed: the turn ends with empty hands again, or raises. */
  method Turn(broker: Broker, tag: nat, acts: seq<Act>, down: set<nat>)
    returns (r: Result<(), Error>, ran: seq<bool>)
    requires BetweenTurns(broker) && tag in broker.channel.unacked && broker.channel.At(tag, Prefetched)
    modifies broker, broker.channel
    ensures broker.channel.Valid() && broker.pending == map[]
    ensures r.Ok? ==> BetweenTurns(broker) && broker.channel.unacked == old(broker.channel.unacked) - {tag}
    ensures var copy := old(broker.channel.unacked)[tag];
            if copy.body.None? then r == Ok(()) && ran == [] && broker.channel.svcs == old(broker.channel.svcs)
            else
              && |ran| == |acts| && (forall i | 0 <= i < |acts| :: ran[i] <==> Fails(acts[i], broker.publishRetries))
              && (forall i | 0 <= i < |acts| && !ran[i] ::
                    AllArrived(old(broker.channel.svcs), broker.channel.model.reached, acts[i]))
              && (r.Ok? ==> EventSettles(broker.channel, copy.body.value, copy, true !in ran))
    ensures broker.channel.model.reached >= old(broker.channel.model.reached)
  {
    var got := broker.ToEnvelope(tag, broker.channel.unacked[tag]);
    ran := [];
    if got.None? { return Ok(()), []; }
    var dispatched;
    dispatched, ran := Dispatch(broker, got.value, acts, down);
    r := if dispatched.Ok? then Ok(()) else Raised(dispatched.error);
  }

  /** A worker that raised or was killed comes back: what it held was requeued, whatever
      it was doing. */
  method Restart(broker: Broker)
    requires broker.channel.Valid()
    modifies broker, broker.channel
    ensures BetweenTurns(broker) && broker.channel.unacked == map[]
    ensures Refilled(old(broker.channel.svcs), broker.channel.svcs, broker.channel.svc)
    ensures BackIn(old(broker.channel.unacked), map[], broker.channel.svcs[broker.channel.svc].ready)
  {
    broker.pending := map[];
    broker.channel.Reconnect(Nothing);
    broker.channel.Reopen();
  }

  /** A single declared service with nothing in hand. */
  ghost predicate Alone(broker: Broker)
    reads broker, broker.channel
  {
    var c := broker.channel;
    && c.Valid() && c.open && c.Has(Nothing) && broker.pending == map[] && c.unacked == map[]
    && c.svc == 0 && |c.svcs| == 1 && c.svcs[0].declared
  }

  /** The next copy is delivered and yielded. */
  method TakeNext(broker: Broker, e: Envelope) returns (tag: nat, copy: Copy)
    requires Alone(broker)
    requires broker.channel.svcs[0].ready != [] && broker.channel.svcs[0].ready[0].body == Some(e)
    modifies broker, broker.channel
    ensures var c := broker.channel;
            && c.Valid() && c.open && c.svc == 0 && broker.pending == map[e.eventId := (tag, copy)]
            && copy == old(c.svcs)[0].ready[0] && c.unacked == map[tag := copy] && broker.Holds(e)
            && c.svcs == [old(c.svcs)[0].(ready := old(c.svcs)[0].ready[1..])]
  {
    var c := broker.channel;
    tag, copy := c.Deliver();
    var r := broker.ToEnvelope(tag, copy);
  }

  /** One copy of e, with n rejections so far, is delivered, dispatched and settled. */
  method ServeOne(broker: Broker, e: Envelope, n: nat, ok: bool)
    requires Alone(broker)
    requires var v := broker.channel.svcs[0];
             |v.ready| == 1 && v.ready[0].body == Some(e) && Rejections(v.ready[0], 0) == n && v.retry == []
    modifies broker, broker.channel
    ensures Alone(broker) && broker.channel.svcs[0].ready == []
    ensures var c := broker.channel;
            var v := c.svcs[0];
            var retried := !ok && n + 1 < c.cfg.maxRetries[0];
            && v.dlq == old(broker.channel.svcs[0].dlq) + (if ok || retried then [] else [e])
            && (if retried then |v.retry| == 1 && v.retry[0].body == Some(e) && Rejections(v.retry[0], 0) == n + 1
                else v.retry == [])
  {
    var c := broker.channel;
    var tag, copy := TakeNext(broker, e);
    BumpCounts(copy, MainQ(0), Rejected, MainQ(0), Rejected);
    if ok {
      var acked := broker.Ack(e);
    } else {
      var failed := broker.Fail(e, {});
    }
  }

  /** The TTL of what is in the retry queue is over. */
  method ComeBack(broker: Broker, e: Envelope, n: nat)
    requires Alone(broker)
    requires var v := broker.channel.svcs[0];
             v.ready == [] && |v.retry| == 1 && v.retry[0].body == Some(e) && Rejections(v.retry[0], 0) == n
    modifies broker.channel
    ensures Alone(broker)
    ensures var v := broker.channel.svcs[0];
            && |v.ready| == 1 && v.ready[0].body == Some(e) && Rejections(v.ready[0], 0) == n
            && v.retry == [] && v.dlq == old(broker.channel.svcs[0].dlq)
  {
    var c := broker.channel;
    BumpCounts(c.svcs[0].retry[0], RetryQ(0), Expired, MainQ(0), Rejected);
    c.Expire(0);
  }

  /** One worker, one subscribed service, no crash: an event whose handlers fail the
      first j times, from its publication until nothing is left of it. */
  method Drive(broker: Broker, e: Envelope, j: nat) returns (attempts: nat)
    requires Alone(broker) && broker.channel.svcs[0] == Svc(true, [], [], [], [])
    modifies broker, broker.channel
    ensures Alone(broker)
    ensures var v, max := broker.channel.svcs[0], broker.channel.cfg.maxRetries[0];
            && attempts == (if j < max then j + 1 else if max < 1 then 1 else max) == Dispatched(j, max)
            && |v.dlq| == (if j < max || j == 0 then 0 else 1) == DeadLettered(j, max)
            && v.ready == [] && v.retry == []
  {
    var c := broker.channel;
    var max := c.cfg.maxRetries[0];
    var published := broker.Publish(e, {}, Nothing);
    attempts := 0;
    while c.svcs[0].ready != []
      invariant Alone(broker) && c.svcs[0].retry == []
      invariant c.svcs[0].ready != [] ==>
                  && |c.svcs[0].ready| == 1 && c.svcs[0].ready[0].body == Some(e)
                  && Rejections(c.svcs[0].ready[0], 0) == attempts
                  && |c.svcs[0].dlq| == 0 && attempts < Dispatched(j, max)
      invariant c.svcs[0].ready == [] ==>
                  attempts == Dispatched(j, max) && |c.svcs[0].dlq| == DeadLettered(j, max)
      decreases Dispatched(j, max) - attempts + |c.svcs[0].ready|
    {
      ServeOne(broker, e, attempts, j <= attempts);
      attempts := attempts + 1;
      if c.svcs[0].retry != [] { ComeBack(broker, e, attempts); }
    }
  }
}
