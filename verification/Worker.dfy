/** The worker command, the dispatcher, and the part every broker shares: a map from
    the event id of a yielded envelope to the delivery it came from. */
module Worker {
  import opened Wrappers
  import opened Events
  import opened Registry

  /** What the server hands over: a handle to settle it with, and the envelope if the
      bytes are readable. settles: acknowledging or failing it goes through; otherwise
      that raises. */
  datatype Delivery<H> = Delivery(handle: H, body: Option<Envelope>, settles: bool)

  /** Everything observable a worker does, in order. */
  datatype Event<H> =
    | Dropped(handle: H)            // unreadable, settled without being yielded
    | Yielded(handle: H, e: Envelope)
    | Ran(receiver: Receiver, raised: bool)
    | Acked(handle: H)
    | Failed(handle: H)
    | Closed                        // broker.close() on the way out

  /** The state a concrete broker keeps on the worker's side. */
  class Broker<H(==)> {
    var pending: map<string, Delivery<H>>
    var trace: seq<Event<H>>

    constructor ()
      ensures pending == map[] && trace == []
    {
      pending, trace := map[], [];
    }

    /** Fails only if dropping an unreadable message does. */
    method ToEnvelope(d: Delivery<H>) returns (r: Result<Option<Envelope>, ()>)
      modifies this
      ensures r == if d.body.None? && !d.settles then Raised(()) else Ok(d.body)
      ensures d.body.None? ==>
                pending == old(pending) && trace == old(trace) + if d.settles then [Dropped(d.handle)] else []
      ensures d.body.Some? ==>
                && pending == old(pending)[d.body.value.eventId := d]
                && trace == old(trace) + [Yielded(d.handle, d.body.value)]
    {
      if d.body.None? {
        if !d.settles { return Raised(()); }
        trace := trace + [Dropped(d.handle)];
        return Ok(None);
      }
      pending := pending[d.body.value.eventId := d];
      trace := trace + [Yielded(d.handle, d.body.value)];
      r := Ok(d.body);
    }

    /** Settling an event that is not pending does nothing. */
    method Ack(e: Envelope) returns (r: Result<(), ()>)
      modifies this
      ensures pending == old(pending) - {e.eventId}
      ensures r == if e.eventId in old(pending) && !old(pending)[e.eventId].settles then Raised(()) else Ok(())
      ensures trace == old(trace) + if e.eventId in old(pending) && r.Ok? then [Acked(old(pending)[e.eventId].handle)] else []
    {
      if e.eventId !in pending { return Ok(()); }
      var d := pending[e.eventId];
      pending := pending - {e.eventId};
      if !d.settles { return Raised(()); }
      trace := trace + [Acked(d.handle)];
      r := Ok(());
    }

    method Fail(e: Envelope) returns (r: Result<(), ()>)
      modifies this
      ensures pending == old(pending) - {e.eventId}
      ensures r == if e.eventId in old(pending) && !old(pending)[e.eventId].settles then Raised(()) else Ok(())
      ensures trace == old(trace) + if e.eventId in old(pending) && r.Ok? then [Failed(old(pending)[e.eventId].handle)] else []
    {
      if e.eventId !in pending { return Ok(()); }
      var d := pending[e.eventId];
      pending := pending - {e.eventId};
      if !d.settles { return Raised(()); }
      trace := trace + [Failed(d.handle)];
      r := Ok(());
    }

    method Close()
      modifies this
      ensures pending == old(pending) && trace == old(trace) + [Closed]
    {
      trace := trace + [Closed];
    }
  }

  function Runs<H>(rs: seq<Receiver>, raises: set<Receiver>): seq<Event<H>> {
    if rs == [] then []
    else Runs(rs[..|rs| - 1], raises) + [Ran(rs[|rs| - 1], rs[|rs| - 1] in raises)]
  }

  /** One event per receiver, in order. */
  lemma {:induction false} RunsAt<H>(rs: seq<Receiver>, raises: set<Receiver>)
    ensures |Runs<H>(rs, raises)| == |rs|
    ensures forall k | 0 <= k < |rs| :: Runs<H>(rs, raises)[k] == Ran(rs[k], rs[k] in raises)
  {
    if rs != [] { RunsAt<H>(rs[..|rs| - 1], raises); }
  }

  /** raises is the set of receivers that raise this time. */
  predicate Succeeds(rs: seq<Receiver>, raises: set<Receiver>) {
    forall r | r in rs :: r !in raises
  }

  /** Every receiver runs, whether or not earlier ones raised; the event is then
      acknowledged exactly when none of them did, and failed otherwise. An exception of
      the broker is passed on. */
  method Dispatch<H(==)>(broker: Broker<H>, registry: Registry, e: Envelope, raises: set<Receiver>)
    returns (r: Result<bool, ()>)
    requires registry.Valid()
    modifies broker
    ensures var rs := registry.Of(e.eventType);
            && r == (if e.eventId in old(broker.pending) && !old(broker.pending)[e.eventId].settles then Raised(())
                     else Ok(Succeeds(rs, raises)))
            && broker.pending == old(broker.pending) - {e.eventId}
            && broker.trace == old(broker.trace) + Runs(rs, raises)
                 + (if e.eventId !in old(broker.pending) || r.Raised? then []
                    else if Succeeds(rs, raises) then [Acked(old(broker.pending)[e.eventId].handle)]
                    else [Failed(old(broker.pending)[e.eventId].handle)])
    ensures var rs, n := registry.Of(e.eventType), |old(broker.trace)|;
            && |broker.trace| >= n + |rs|
            && (forall k | 0 <= k < |rs| :: broker.trace[n + k] == Ran(rs[k], rs[k] in raises))
  {
    var receivers := registry.GetReceivers(e.eventType);
    ghost var before := broker.trace;
    var failedCount := RunReceivers(broker, receivers, raises);
    RunsShown(before, receivers, raises);
    var succeeded := failedCount == 0;
    var settled;
    if succeeded {
      settled := broker.Ack(e);
    } else {
      settled := broker.Fail(e);
    }
    r := if settled.Ok? then Ok(succeeded) else Raised(());
  }

  method RunReceivers<H(==)>(broker: Broker<H>, receivers: seq<Receiver>, raises: set<Receiver>) returns (failedCount: nat)
    modifies broker
    ensures broker.pending == old(broker.pending) && broker.trace == old(broker.trace) + Runs(receivers, raises)
    ensures failedCount == 0 <==> Succeeds(receivers, raises)
  {
    failedCount := 0;
    var i := 0;
    while i < |receivers|
      invariant 0 <= i <= |receivers|
      invariant failedCount == 0 <==> Succeeds(receivers[..i], raises)
      invariant broker.pending == old(broker.pending)
      invariant broker.trace == old(broker.trace) + Runs(receivers[..i], raises)
    {
      assert receivers[..i + 1][..i] == receivers[..i];
      broker.trace := broker.trace + [Ran(receivers[i], receivers[i] in raises)];
      if receivers[i] in raises {
        failedCount := failedCount + 1;
      }
      i := i + 1;
    }
    assert receivers[..i] == receivers;
  }

  lemma RunsShown<H>(before: seq<Event<H>>, rs: seq<Receiver>, raises: set<Receiver>)
    ensures |Runs<H>(rs, raises)| == |rs|
    ensures forall k | 0 <= k < |rs| :: (before + Runs<H>(rs, raises))[|before| + k] == Ran(rs[k], rs[k] in raises)
  {
    RunsAt<H>(rs, raises);
  }

  /** The whole history of a worker that is fed these deliveries one after the other:
      raises[i] raise for the i-th, and a stop is requested before delivery stop. */
  ghost function History<H>(
      registry: Handlers, feed: seq<Delivery<H>>, raises: seq<set<Receiver>>, stop: nat)
      : seq<Event<H>>
    requires |raises| == |feed|
    decreases |feed|
  {
    if feed == [] then []
    else
      Turn(registry, feed[0], raises[0], stop == 0)
      + if Ends(feed[0], stop == 0) then []
        else History(registry, feed[1..], raises[1..], if stop == 0 then 0 else stop - 1)
  }

  /** The loop ends with this delivery: the stop flag is up, or settling it raises. */
  predicate Ends<H>(d: Delivery<H>, stopped: bool) { !d.settles || (stopped && d.body.Some?) }

  /** And that by an exception. */
  predicate Raises<H>(d: Delivery<H>, stopped: bool) { !d.settles && !(stopped && d.body.Some?) }

  ghost predicate LoopRaises<H>(feed: seq<Delivery<H>>, stop: nat, i: nat)
    requires i <= |feed|
    decreases |feed| - i
  {
    i < |feed| && if Ends(feed[i], stop <= i) then Raises(feed[i], stop <= i) else LoopRaises(feed, stop, i + 1)
  }

  /** One delivery: dropped, or yielded and, unless the stop flag is up, handled. */
  ghost function Turn<H>(
      registry: Handlers, d: Delivery<H>, raises: set<Receiver>, stopped: bool): seq<Event<H>>
  {
    if d.body.None? then if d.settles then [Dropped(d.handle)] else []
    else
      [Yielded(d.handle, d.body.value)]
      + if stopped then [] else Handled(d, ReceiversOf(registry, d.body.value.eventType), raises)
  }

  /** The history from delivery i on. */
  ghost function Rest<H>(
      registry: Handlers, feed: seq<Delivery<H>>, raises: seq<set<Receiver>>, stop: nat, i: nat)
      : seq<Event<H>>
    requires i <= |raises| == |feed|
  {
    History(registry, feed[i..], raises[i..], if stop < i then 0 else stop - i)
  }

  lemma RestUnfolds<H>(
      registry: Handlers, feed: seq<Delivery<H>>, raises: seq<set<Receiver>>, stop: nat, i: nat)
    requires i < |raises| == |feed|
    ensures Rest(registry, feed, raises, stop, i)
            == Turn(registry, feed[i], raises[i], stop <= i)
               + if Ends(feed[i], stop <= i) then [] else Rest(registry, feed, raises, stop, i + 1)
  {
    assert feed[i..][1..] == feed[i + 1..] && raises[i..][1..] == raises[i + 1..];
  }

  ghost function Handled<H>(d: Delivery<H>, rs: seq<Receiver>, raises: set<Receiver>): seq<Event<H>> {
    Runs(rs, raises)
    + if !d.settles then [] else [if Succeeds(rs, raises) then Acked(d.handle) else Failed(d.handle)]
  }

  // ----- what a stop request does, read off the trace

  /** From position p on the trace shows a whole dispatch of d: the delivery is yielded, each
      receiver of its type is run in order, and then it is settled, if that goes through. */
  ghost predicate DispatchedAt<H>(
      registry: Handlers, trace: seq<Event<H>>, p: nat, d: Delivery<H>, raises: set<Receiver>)
    requires d.body.Some?
  {
    var rs := ReceiversOf(registry, d.body.value.eventType);
    var n := p + 1 + |rs|;
    && |trace| >= n && trace[p] == Yielded(d.handle, d.body.value)
    && (forall k | 0 <= k < |rs| :: trace[p + 1 + k] == Ran(rs[k], rs[k] in raises))
    && (d.settles ==>
          |trace| > n && trace[n] == if exists r :: r in rs && r in raises then Failed(d.handle) else Acked(d.handle))
  }

  /** What one more turn adds to a trace. */
  lemma TurnShows<H>(registry: Handlers, before: seq<Event<H>>, d: Delivery<H>, raises: set<Receiver>, stopped: bool)
    ensures var after := before + Turn(registry, d, raises, stopped);
            && (stopped ==> |after| <= |before| + 1)
            && (stopped && |after| > |before| ==> after[|before|].Dropped? || after[|before|].Yielded?)
            && (!stopped && d.body.Some? ==> DispatchedAt(registry, after, |before|, d, raises))
  {
    if !stopped && d.body.Some? {
      TurnDispatches(registry, before, d, raises, []);
      assert before + Turn(registry, d, raises, stopped) + [] == before + Turn(registry, d, raises, stopped);
    }
  }

  lemma TurnDispatches<H>(
      registry: Handlers, before: seq<Event<H>>, d: Delivery<H>, raises: set<Receiver>, rest: seq<Event<H>>)
    requires d.body.Some?
    ensures DispatchedAt(registry, before + Turn(registry, d, raises, false) + rest, |before|, d, raises)
  {
    RunsAt<H>(ReceiversOf(registry, d.body.value.eventType), raises);
  }

  lemma HistoryUnfolds<H>(registry: Handlers, feed: seq<Delivery<H>>, raises: seq<set<Receiver>>, stop: nat)
    returns (turn: seq<Event<H>>, rest: seq<Event<H>>)
    requires |raises| == |feed| > 0 && stop > 0
    ensures History(registry, feed, raises, stop) == turn + rest && turn == Turn(registry, feed[0], raises[0], false)
    ensures rest == if feed[0].settles then History(registry, feed[1..], raises[1..], stop - 1) else []
  {
    turn := Turn(registry, feed[0], raises[0], false);
    rest := if Ends(feed[0], false) then [] else History(registry, feed[1..], raises[1..], stop - 1);
  }

  /** before is what comes before delivery i. */
  ghost predicate IsBefore<H>(
      registry: Handlers, feed: seq<Delivery<H>>, raises: seq<set<Receiver>>, stop: nat, i: nat, before: seq<Event<H>>)
    requires i <= |raises| == |feed|
  {
    History(registry, feed, raises, stop) == before + Rest(registry, feed, raises, stop, i)
  }

  lemma NothingIsBeforeFirst<H>(registry: Handlers, feed: seq<Delivery<H>>, raises: seq<set<Receiver>>, stop: nat)
    requires |raises| == |feed|
    ensures IsBefore(registry, feed, raises, stop, 0, [])
  {
    assert feed[0..] == feed && raises[0..] == raises;
  }

  lemma TurnIsBeforeNext<H>(
      registry: Handlers, feed: seq<Delivery<H>>, raises: seq<set<Receiver>>, stop: nat, i: nat, before: seq<Event<H>>)
    requires i < |raises| == |feed| && IsBefore(registry, feed, raises, stop, i, before) && !Ends(feed[i], stop <= i)
    ensures IsBefore(registry, feed, raises, stop, i + 1, before + Turn(registry, feed[i], raises[i], stop <= i))
  {
    WholeUnfolds(before, registry, feed, raises, stop, i);
  }

  lemma {:induction false} UpToDelivery<H>(
      registry: Handlers, feed: seq<Delivery<H>>, raises: seq<set<Receiver>>, stop: nat, i: nat)
    returns (before: seq<Event<H>>)
    requires i < |feed| == |raises| && i <= stop && forall j: nat | j < i :: feed[j].settles
    ensures IsBefore(registry, feed, raises, stop, i, before)
    decreases i
  {
    if i == 0 {
      before := [];
      NothingIsBeforeFirst(registry, feed, raises, stop);
    } else {
      before := UpToDelivery(registry, feed, raises, stop, i - 1);
      TurnIsBeforeNext(registry, feed, raises, stop, i - 1, before);
      before := before + Turn(registry, feed[i - 1], raises[i - 1], stop <= i - 1);
    }
  }

  /** A delivery that comes before the stop request, and after deliveries that could all be
      settled, is dispatched, whenever the request comes after it. */
  lemma EarlierIsDispatched<H>(
      registry: Handlers, feed: seq<Delivery<H>>, raises: seq<set<Receiver>>, stop: nat, i: nat) returns (p: nat)
    requires |raises| == |feed| && i < |feed| && i < stop && feed[i].body.Some?
    requires forall j: nat | j < i :: feed[j].settles
    ensures DispatchedAt(registry, History(registry, feed, raises, stop), p, feed[i], raises[i])
  {
    var before := UpToDelivery(registry, feed, raises, stop, i);
    WholeUnfolds(before, registry, feed, raises, stop, i);
    var after := if Ends(feed[i], false) then [] else Rest(registry, feed, raises, stop, i + 1);
    TurnDispatches(registry, before, feed[i], raises[i], after);
    p := |before|;
  }

  /** From position p on messages are dropped unread, but for one that may be yielded last. */
  ghost predicate OnlyDrops<H>(trace: seq<Event<H>>, p: nat) {
    forall k | p <= k < |trace| :: trace[k].Dropped? || (trace[k].Yielded? && k == |trace| - 1)
  }

  lemma DropsLater<H>(before: seq<Event<H>>, trace: seq<Event<H>>, p: nat)
    requires OnlyDrops(trace, p)
    ensures OnlyDrops(before + trace, |before| + p)
  {
    var all := before + trace;
    forall k | |before| + p <= k < |all| ensures all[k].Dropped? || (all[k].Yielded? && k == |all| - 1) {
      assert all[k] == trace[k - |before|];
    }
  }

  /** trace begins with before, p events long, and shows nothing but drops after that. */
  ghost predicate StopsAfter<H>(trace: seq<Event<H>>, before: seq<Event<H>>, p: nat) {
    p <= |trace| && trace[..p] == before && OnlyDrops(trace, p)
  }

  lemma StopsLater<H>(turn: seq<Event<H>>, trace: seq<Event<H>>, before: seq<Event<H>>, p: nat)
    requires StopsAfter(trace, before, p)
    ensures StopsAfter(turn + trace, turn + before, |turn| + p)
  {
    DropsLater(turn, trace, p);
    assert (turn + trace)[..|turn| + p] == turn + trace[..p];
  }

  lemma BothUnfold<H>(registry: Handlers, feed: seq<Delivery<H>>, raises: seq<set<Receiver>>, stop: nat)
    returns (turn: seq<Event<H>>, rest: seq<Event<H>>, before: seq<Event<H>>)
    requires |raises| == |feed| && 0 < stop <= |feed|
    ensures History(registry, feed, raises, stop) == turn + rest
    ensures History(registry, feed[..stop], raises[..stop], stop) == turn + before
    ensures feed[0].settles ==>
              && rest == History(registry, feed[1..], raises[1..], stop - 1)
              && before == History(registry, feed[1..][..stop - 1], raises[1..][..stop - 1], stop - 1)
    ensures !feed[0].settles ==> rest == [] && before == []
  {
    turn, rest := HistoryUnfolds(registry, feed, raises, stop);
    var turn1;
    turn1, before := HistoryUnfolds(registry, feed[..stop], raises[..stop], stop);
    assert feed[..stop][1..] == feed[1..][..stop - 1] && raises[..stop][1..] == raises[1..][..stop - 1];
  }

  /** Nothing is run or settled once the stop was requested: from delivery number stop on
      unreadable messages are dropped, and at most one more is yielded, which is the end. */
  lemma {:induction false} NothingAfterStop<H>(
      registry: Handlers, feed: seq<Delivery<H>>, raises: seq<set<Receiver>>, stop: nat) returns (p: nat)
    requires |raises| == |feed| && stop <= |feed|
    ensures StopsAfter(History(registry, feed, raises, stop), History(registry, feed[..stop], raises[..stop], stop), p)
    decreases |feed|
  {
    p := 0;
    if stop == 0 {
      StoppedOnlyDrops(registry, feed, raises);
    } else {
      var turn, rest, before := BothUnfold(registry, feed, raises, stop);
      var q: nat := 0;
      if feed[0].settles {
        q := NothingAfterStop(registry, feed[1..], raises[1..], stop - 1);
      } else {
        assert StopsAfter(rest, before, 0);
      }
      StopsLater(turn, rest, before, q);
      p := |turn| + q;
    }
  }

  lemma {:induction false} StoppedOnlyDrops<H>(
      registry: Handlers, feed: seq<Delivery<H>>, raises: seq<set<Receiver>>)
    requires |raises| == |feed|
    ensures OnlyDrops(History(registry, feed, raises, 0), 0)
    decreases |feed|
  {
    if feed != [] {
      var turn := Turn(registry, feed[0], raises[0], true);
      if Ends(feed[0], true) {
        assert History(registry, feed, raises, 0) == turn;
      } else {
        StoppedOnlyDrops(registry, feed[1..], raises[1..]);
        var rest := History(registry, feed[1..], raises[1..], 0);
        DropsLater(turn, rest, 0);
        assert turn == [Dropped(feed[0].handle)] && History(registry, feed, raises, 0) == turn + rest;
      }
    }
  }

  /** The loop is left by an exception exactly when a delivery cannot be settled that all
      before it could be, and no earlier delivery was yielded after the stop request; a
      readable one must itself have come before it. */
  lemma {:induction false} LoopRaisesIff<H>(feed: seq<Delivery<H>>, stop: nat, i: nat)
    requires i <= |feed|
    ensures LoopRaises(feed, stop, i) <==>
            exists n: nat :: RaisesAt(feed, stop, i, n)
    decreases |feed| - i
  {
    if i < |feed| && !Ends(feed[i], stop <= i) {
      LoopRaisesIff(feed, stop, i + 1);
      var m := i + 1;
      if n: nat :| RaisesAt(feed, stop, m, n) { assert RaisesAt(feed, stop, i, n); }
      if n: nat :| RaisesAt(feed, stop, i, n) { assert n > i && RaisesAt(feed, stop, m, n); }
    } else if i < |feed| && Raises(feed[i], stop <= i) {
      assert RaisesAt(feed, stop, i, i);
    }
  }

  ghost predicate RaisesAt<H>(feed: seq<Delivery<H>>, stop: nat, i: nat, n: nat) {
    && i <= n < |feed| && !feed[n].settles && (feed[n].body.Some? ==> n < stop)
    && forall j: nat | i <= j < n :: feed[j].settles && (feed[j].body.Some? ==> j < stop)
  }

  /** What a worker has in hand: a delivery, the receivers still to be run for it, and
      whether one that was run has raised. */
  datatype Hand<H> = Hand(handle: H, left: seq<Receiver>, raised: bool)

  /** Worker discipline. A delivery is fetched only with empty hands; every receiver of
      its event type is run once, in registration order; and then the delivery is
      settled once, through its own handle: acknowledged if no receiver raised, failed
      if one did. The broker is closed last, whatever is in hand. */
  ghost predicate Disciplined<H>(registry: Handlers, trace: seq<Event<H>>, hand: Option<Hand<H>>)
    decreases |trace|
  {
    trace == [] ||
    match trace[0]
    case Dropped(_) => hand.None? && Disciplined(registry, trace[1..], None)
    case Yielded(h, e) =>
      hand.None? && Disciplined(registry, trace[1..], Some(Hand(h, ReceiversOf(registry, e.eventType), false)))
    case Ran(r, raised) =>
      hand.Some? && hand.value.left != [] && hand.value.left[0] == r
      && Disciplined(registry, trace[1..], Some(RanOne(hand.value, raised)))
    case Acked(h) => hand == Some(Hand(h, [], false)) && Disciplined(registry, trace[1..], None)
    case Failed(h) => hand == Some(Hand(h, [], true)) && Disciplined(registry, trace[1..], None)
    case Closed => |trace| == 1
  }

  function RanOne<H>(hand: Hand<H>, raised: bool): Hand<H>
    requires hand.left != []
  {
    Hand(hand.handle, hand.left[1..], hand.raised || raised)
  }

  /** Every history of the worker is disciplined up to the close that ends it, even when
      deliveries share an event id, a stop is requested, or a settlement raises. */
  lemma {:induction false} HistoryIsDisciplined<H>(
      registry: Handlers, feed: seq<Delivery<H>>, raises: seq<set<Receiver>>, stop: nat)
    requires |raises| == |feed|
    ensures Disciplined(registry, History(registry, feed, raises, stop) + [Closed], None)
    decreases |feed|
  {
    if feed != [] {
      var stopped := stop == 0;
      var stop1: nat := if stopped then 0 else stop - 1;
      var last := Ends(feed[0], stopped);
      var rest := if last then [] else History(registry, feed[1..], raises[1..], stop1);
      if !last { HistoryIsDisciplined(registry, feed[1..], raises[1..], stop1); }
      TurnThen(registry, feed[0], raises[0], stopped, rest + [Closed]);
      Regroup(Turn(registry, feed[0], raises[0], stopped), rest, [Closed]);
    }
  }

  lemma DroppedThen<H>(registry: Handlers, h: H, rest: seq<Event<H>>)
    requires Disciplined(registry, rest, None)
    ensures Disciplined(registry, [Dropped(h)] + rest, None)
  {
    assert ([Event<H>.Dropped(h)] + rest)[1..] == rest;
  }

  lemma YieldedThen<H>(registry: Handlers, h: H, e: Envelope, rest: seq<Event<H>>)
    requires Disciplined(registry, rest, Some(Hand(h, ReceiversOf(registry, e.eventType), false)))
    ensures Disciplined(registry, [Yielded(h, e)] + rest, None)
  {
    assert ([Event<H>.Yielded(h, e)] + rest)[1..] == rest;
  }

  lemma TurnThen<H>(registry: Handlers, d: Delivery<H>, raises: set<Receiver>, stopped: bool, rest: seq<Event<H>>)
    requires if Ends(d, stopped) then rest == [Closed] else Disciplined(registry, rest, None)
    ensures Disciplined(registry, Turn(registry, d, raises, stopped) + rest, None)
  {
    if d.body.None? {
      if d.settles { DroppedThen(registry, d.handle, rest); } else { assert Turn(registry, d, raises, stopped) + rest == rest; }
    } else if stopped {
      YieldedThen(registry, d.handle, d.body.value, rest);
    } else {
      var handled := Handled(d, ReceiversOf(registry, d.body.value.eventType), raises);
      HandledThen(registry, d, ReceiversOf(registry, d.body.value.eventType), raises, rest);
      YieldedThen(registry, d.handle, d.body.value, handled + rest);
      Regroup([Event<H>.Yielded(d.handle, d.body.value)], handled, rest);
    }
  }

  lemma HandledThen<H>(registry: Handlers, d: Delivery<H>, rs: seq<Receiver>, raises: set<Receiver>, rest: seq<Event<H>>)
    requires if d.settles then Disciplined(registry, rest, None) else rest == [Closed]
    ensures Disciplined(registry, Handled(d, rs, raises) + rest, Some(Hand(d.handle, rs, false)))
  {
    var settled := if !d.settles then [] else [if Succeeds(rs, raises) then Acked(d.handle) else Failed(d.handle)];
    if d.settles { assert (settled + rest)[1..] == rest; } else { assert settled + rest == rest; }
    RunsThen(registry, d.handle, rs, [], raises, settled + rest);
    assert rs + [] == rs;
    Regroup(Runs<H>(rs, raises), settled, rest);
  }

  lemma {:induction false} RunsThen<H>(
      registry: Handlers, h: H, rs: seq<Receiver>, left: seq<Receiver>, raises: set<Receiver>, rest: seq<Event<H>>)
    requires Disciplined(registry, rest, Some(Hand(h, left, !Succeeds(rs, raises))))
    ensures Disciplined(registry, Runs(rs, raises) + rest, Some(Hand(h, rs + left, false)))
  {
    if rs == [] {
      assert Runs<H>(rs, raises) + rest == rest && rs + left == left;
    } else {
      var n := |rs| - 1;
      var ran := Event<H>.Ran(rs[n], rs[n] in raises);
      assert ([ran] + rest)[1..] == rest && ([rs[n]] + left)[1..] == left;
      assert rs == rs[..n] + [rs[n]];
      assert forall r :: r in rs <==> r in rs[..n] || r == rs[n];
      RunsThen(registry, h, rs[..n], [rs[n]] + left, raises, [ran] + rest);
      assert rs[..n] + ([rs[n]] + left) == rs + left;
      assert Runs<H>(rs, raises) + rest == Runs(rs[..n], raises) + ([ran] + rest);
    }
  }

  /** A worker that is killed at any point leaves the beginning of a history, and that
      is disciplined too: at most its last delivery is yielded and not settled. */
  lemma {:induction false} CutShort<H>(registry: Handlers, trace: seq<Event<H>>, hand: Option<Hand<H>>, n: nat)
    requires n <= |trace| && Disciplined(registry, trace, hand)
    ensures Disciplined(registry, trace[..n], hand)
    decreases n
  {
    if n > 0 {
      assert trace[..n][1..] == trace[1..][..n - 1];
      var next := match trace[0]
                  case Yielded(h, e) => Some(Hand(h, ReceiversOf(registry, e.eventType), false))
                  case Ran(_, raised) => Some(RanOne(hand.value, raised))
                  case _ => None;
      CutShort(registry, trace[1..], next, n - 1);
    }
  }

  class Command {
    var stop: bool

    constructor ()
      ensures !stop
    {
      stop := false;
    }

    /** The signal handler. */
    method RequestStop()
      modifies this
      ensures stop
    {
      stop := true;
    }

    /** One turn of the loop: resume the generator with delivery d, then look at the
        flag, then dispatch. again is false when the loop is left, raised when it is left
        by an exception. */
    method Serve<H(==)>(broker: Broker<H>, registry: Registry, d: Delivery<H>, raises: set<Receiver>)
      returns (again: bool, raised: bool)
      requires registry.Valid() && broker.pending == map[]
      modifies broker
      ensures again <==> !Ends(d, stop)
      ensures raised <==> Raises(d, stop)
      ensures again ==> broker.pending == map[]
      ensures broker.trace == old(broker.trace) + Turn(registry.handlers, d, raises, stop)
      ensures var n := |old(broker.trace)|;
              && n <= |broker.trace| && broker.trace[..n] == old(broker.trace)
              && (stop ==> |broker.trace| <= n + 1)
              && (stop && |broker.trace| > n ==> broker.trace[n].Dropped? || broker.trace[n].Yielded?)
              && (!stop && d.body.Some? ==> DispatchedAt(registry.handlers, broker.trace, n, d, raises))
    {
      TurnShows(registry.handlers, broker.trace, d, raises, stop);
      again, raised := TakeTurn(broker, registry, d, raises);
    }

    method TakeTurn<H(==)>(broker: Broker<H>, registry: Registry, d: Delivery<H>, raises: set<Receiver>)
      returns (again: bool, raised: bool)
      requires registry.Valid() && broker.pending == map[]
      modifies broker
      ensures again <==> !Ends(d, stop)
      ensures raised <==> Raises(d, stop)
      ensures again ==> broker.pending == map[]
      ensures broker.trace == old(broker.trace) + Turn(registry.handlers, d, raises, stop)
    {
      var r := broker.ToEnvelope(d);
      if r.Raised? { return false, true; }
      again, raised := true, false;
      if r.value.Some? {
        if stop {
          again := false;
        } else {
          var dispatched := Dispatch(broker, registry, r.value.value, raises);
          again, raised := dispatched.Ok?, dispatched.Raised?;
        }
      }
    }

    /** feed is what the server delivers to this worker until it is killed; SIGTERM or
        SIGINT arrives before delivery stopAt. Without any receiver the command does not
        even listen. Otherwise the broker is closed on the way out, be it by the stop flag
        or by an exception, which is passed on. */
    method Handle<H(==)>(
        broker: Broker<H>, registry: Registry, feed: seq<Delivery<H>>, raises: seq<set<Receiver>>, stopAt: nat)
      returns (r: Result<(), ()>)
      requires registry.Valid() && |raises| == |feed|
      requires broker.pending == map[]
      modifies this, broker
      ensures broker.trace == old(broker.trace)
                + if registry.handlers == map[] then []
                  else History(registry.handlers, feed, raises, stopAt) + [Closed]
      ensures r.Raised? <==> registry.handlers != map[] && exists n: nat :: RaisesAt(feed, stopAt, 0, n)
    {
      LoopRaisesIff(feed, stopAt, 0);
      var types := registry.RegisteredEventTypes();
      if types == {} {
        assert forall t | t in registry.handlers :: registry.Of(t) != [];
        return Ok(());
      }
      stop := false;
      ghost var before, history := broker.trace, History(registry.handlers, feed, raises, stopAt);
      var raised := Consume(broker, registry, feed, raises, stopAt);
      broker.Close();
      Regroup(before, history, [Closed]);
      r := if raised then Raised(()) else Ok(());
    }

    /** The consuming loop. Nothing is pending whenever a delivery is fetched. */
    method Consume<H(==)>(
        broker: Broker<H>, registry: Registry, feed: seq<Delivery<H>>, raises: seq<set<Receiver>>, stopAt: nat)
      returns (raised: bool)
      requires registry.Valid() && |raises| == |feed|
      requires broker.pending == map[] && !stop
      modifies this, broker
      ensures broker.trace == old(broker.trace) + History(registry.handlers, feed, raises, stopAt)
      ensures raised <==> LoopRaises(feed, stopAt, 0)
    {
      var i: nat := 0;
      assert feed[0..] == feed && raises[0..] == raises;
      ghost var whole := old(broker.trace) + History(registry.handlers, feed, raises, stopAt);
      while i < |feed|
        invariant i <= |feed| && (stop <==> stopAt < i) && broker.pending == map[]
        invariant LoopRaises(feed, stopAt, 0) <==> LoopRaises(feed, stopAt, i)
        invariant whole == broker.trace + Rest(registry.handlers, feed, raises, stopAt, i)
      {
        var again;
        again, raised := ServeNth(broker, registry, feed, raises, stopAt, i, whole);
        if !again { return; }
        i := i + 1;
      }
      raised := false;
    }

    method ServeNth<H(==)>(
        broker: Broker<H>, registry: Registry, feed: seq<Delivery<H>>, raises: seq<set<Receiver>>, stopAt: nat,
        i: nat, ghost whole: seq<Event<H>>)
      returns (again: bool, raised: bool)
      requires registry.Valid() && i < |feed| == |raises| && broker.pending == map[] && (stop <==> stopAt < i)
      requires whole == broker.trace + Rest(registry.handlers, feed, raises, stopAt, i)
      modifies this, broker
      ensures stop <==> stopAt < i + 1
      ensures again <==> !Ends(feed[i], stopAt <= i)
      ensures raised <==> Raises(feed[i], stopAt <= i)
      ensures again ==> broker.pending == map[]
      ensures whole == broker.trace + if again then Rest(registry.handlers, feed, raises, stopAt, i + 1) else []
    {
      WholeUnfolds(broker.trace, registry.handlers, feed, raises, stopAt, i);
      if i == stopAt { RequestStop(); }
      again, raised := Serve(broker, registry, feed[i], raises[i]);
    }
  }

  lemma WholeUnfolds<H>(
      before: seq<Event<H>>, registry: Handlers, feed: seq<Delivery<H>>, raises: seq<set<Receiver>>, stop: nat, i: nat)
    requires i < |raises| == |feed|
    ensures before + Rest(registry, feed, raises, stop, i)
            == before + Turn(registry, feed[i], raises[i], stop <= i)
               + if Ends(feed[i], stop <= i) then [] else Rest(registry, feed, raises, stop, i + 1)
  {
    RestUnfolds(registry, feed, raises, stop, i);
    Regroup(before, Turn(registry, feed[i], raises[i], stop <= i),
            if Ends(feed[i], stop <= i) then [] else Rest(registry, feed, raises, stop, i + 1));
  }

  lemma Regroup<T>(a: seq<T>, b: seq<T>, c: seq<T>)
    ensures a + (b + c) == a + b + c
  {
  }
}
