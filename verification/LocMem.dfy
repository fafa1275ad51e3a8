/** The in-memory broker: one queue per service and event type, shared by the process. */
module LocMem {
  import opened Wrappers
  import opened Events

  type Slot = (string, string)   // service and event type

  datatype State = State(subscribers: map<string, set<string>>, queues: map<Slot, seq<Envelope>>)

  datatype Op =
    | Publish(e: Envelope)
    | Listen(service: string, types: set<string>)
    | Take(service: string, eventType: string)
    | Reset

  const EMPTY := State(map[], map[])

  function Subscribed(s: State, slot: Slot): bool {
    slot.0 in s.subscribers && slot.1 in s.subscribers[slot.0]
  }

  function TypesOf(s: State, service: string): set<string> {
    if service in s.subscribers then s.subscribers[service] else {}
  }

  function QueueOf(s: State, slot: Slot): seq<Envelope> {
    if slot in s.queues then s.queues[slot] else []
  }

  ghost function Do(s: State, op: Op): State {
    match op
    case Publish(e) =>
      s.(queues := map slot | slot in s.queues ::
                     if Subscribed(s, slot) && slot.1 == e.eventType then s.queues[slot] + [e] else s.queues[slot])
    case Listen(service, types) =>
      State(s.subscribers[service := TypesOf(s, service) + types],
            map slot | slot in s.queues.Keys + (set t | t in types :: (service, t)) :: QueueOf(s, slot))
    case Take(service, t) =>
      var q := QueueOf(s, (service, t));
      if q == [] then s else s.(queues := s.queues[(service, t) := q[1..]])
    case Reset => EMPTY
  }

  ghost function Final(ops: seq<Op>): State {
    if ops == [] then EMPTY else Do(Final(ops[..|ops| - 1]), ops[|ops| - 1])
  }

  /** What one operation hands to a consumer of the slot. */
  ghost function Handed(s: State, op: Op, slot: Slot): seq<Envelope> {
    if op == Take(slot.0, slot.1) && QueueOf(s, slot) != [] then [QueueOf(s, slot)[0]] else []
  }

  /** What all consumers of the slot got together since the last reset, in order. */
  ghost function Yielded(ops: seq<Op>, slot: Slot): seq<Envelope> {
    if ops == [] || ops[|ops| - 1].Reset? then []
    else Yielded(ops[..|ops| - 1], slot) + Handed(Final(ops[..|ops| - 1]), ops[|ops| - 1], slot)
  }

  /** A queue exists exactly for every subscribed type. */
  ghost predicate Inv(s: State) {
    forall slot: Slot :: slot in s.queues <==> Subscribed(s, slot)
  }

  lemma {:induction false} QueuesMatchSubscriptions(ops: seq<Op>)
    ensures Inv(Final(ops))
  {
    if ops != [] {
      var s, op := Final(ops[..|ops| - 1]), ops[|ops| - 1];
      QueuesMatchSubscriptions(ops[..|ops| - 1]);
      forall slot: Slot ensures slot in Do(s, op).queues <==> Subscribed(Do(s, op), slot) {
        assert slot in s.queues <==> Subscribed(s, slot);
      }
    }
  }

  // ----- what a subscriber should see, read off the history alone

  ghost function PublishedOf(ops: seq<Op>, eventType: string): seq<Envelope> {
    if ops == [] then [] else Published(ops[0], eventType) + PublishedOf(ops[1..], eventType)
  }

  ghost function Published(op: Op, eventType: string): seq<Envelope> {
    if op.Publish? && op.e.eventType == eventType then [op.e] else []
  }

  ghost predicate Subscribes(op: Op, slot: Slot) {
    op.Listen? && op.service == slot.0 && slot.1 in op.types
  }

  /** Events of the type published after the first subscription. */
  ghost function SinceSubscription(ops: seq<Op>, slot: Slot): seq<Envelope> {
    if ops == [] then []
    else if Subscribes(ops[0], slot) then PublishedOf(ops[1..], slot.1)
    else SinceSubscription(ops[1..], slot)
  }

  /** The part of a history after the last reset. */
  ghost function Era(ops: seq<Op>): seq<Op> {
    if ops == [] || ops[|ops| - 1].Reset? then [] else Era(ops[..|ops| - 1]) + [ops[|ops| - 1]]
  }

  ghost predicate EverSubscribed(ops: seq<Op>, slot: Slot) {
    exists i :: 0 <= i < |ops| && Subscribes(ops[i], slot)
  }

  lemma {:induction false} PublishedAppend(ops: seq<Op>, op: Op, eventType: string)
    ensures PublishedOf(ops + [op], eventType)
            == PublishedOf(ops, eventType) + Published(op, eventType)
  {
    if ops == [] {
      assert [op][1..] == [];
    } else {
      var whole, first := ops + [op], Published(ops[0], eventType);
      assert whole[0] == ops[0] && whole[1..] == ops[1..] + [op];
      PublishedAppend(ops[1..], op, eventType);
      Joined(first, PublishedOf(ops[1..], eventType), Published(op, eventType));
    }
  }

  lemma Joined(a: seq<Envelope>, b: seq<Envelope>, c: seq<Envelope>)
    ensures a + (b + c) == (a + b) + c
  {
  }

  lemma {:induction false} SinceAppend(ops: seq<Op>, op: Op, slot: Slot)
    ensures SinceSubscription(ops + [op], slot)
            == SinceSubscription(ops, slot) + Gain(op, slot, EverSubscribed(ops, slot))
  {
    if ops == [] {
      assert [op][1..] == [];
    } else {
      assert (ops + [op])[1..] == ops[1..] + [op];
      if Subscribes(ops[0], slot) {
        PublishedAppend(ops[1..], op, slot.1);
      } else {
        SinceAppend(ops[1..], op, slot);
        if EverSubscribed(ops, slot) {
          var i :| 0 <= i < |ops| && Subscribes(ops[i], slot);
          assert Subscribes(ops[1..][i - 1], slot);
        }
        if EverSubscribed(ops[1..], slot) {
          var i :| 0 <= i < |ops[1..]| && Subscribes(ops[1..][i], slot);
          assert Subscribes(ops[i + 1], slot);
        }
      }
    }
  }

  lemma {:induction false} SubscribedIffListened(ops: seq<Op>, slot: Slot)
    ensures Subscribed(Final(ops), slot) <==> EverSubscribed(Era(ops), slot)
  {
    if ops != [] && !ops[|ops| - 1].Reset? {
      var n := |ops| - 1;
      SubscribedIffListened(ops[..n], slot);
      var before := Era(ops[..n]);
      if EverSubscribed(before, slot) {
        var i :| 0 <= i < |before| && Subscribes(before[i], slot);
        assert Subscribes(Era(ops)[i], slot);
      }
      if EverSubscribed(Era(ops), slot) {
        var i :| 0 <= i < |Era(ops)| && Subscribes(Era(ops)[i], slot);
        if i < |before| { assert Subscribes(before[i], slot); }
      }
      if Subscribes(ops[n], slot) { assert Subscribes(Era(ops)[|before|], slot); }
    }
  }

  /** Fan-out. For every service and type, what its consumers got so far followed by
      what is still queued is, in order, what was published of that type since the
      service first subscribed to it, across repeated subscriptions, any number of
      consumers, and other services. */
  lemma {:induction false} FanOut(ops: seq<Op>, slot: Slot)
    ensures Yielded(ops, slot) + QueueOf(Final(ops), slot) == SinceSubscription(Era(ops), slot)
  {
    if ops != [] && !ops[|ops| - 1].Reset? {
      FanOut(ops[..|ops| - 1], slot);
      FanOutStep(ops[..|ops| - 1], ops[|ops| - 1], slot);
      assert ops == ops[..|ops| - 1] + [ops[|ops| - 1]];
    }
  }

  lemma FanOutStep(ops: seq<Op>, op: Op, slot: Slot)
    requires !op.Reset? && Yielded(ops, slot) + QueueOf(Final(ops), slot) == SinceSubscription(Era(ops), slot)
    ensures Yielded(ops + [op], slot) + QueueOf(Final(ops + [op]), slot) == SinceSubscription(Era(ops + [op]), slot)
  {
    var s := Final(ops);
    assert (ops + [op])[..|ops|] == ops;
    QueuesMatchSubscriptions(ops);
    assert slot in s.queues <==> Subscribed(s, slot);
    SubscribedIffListened(ops, slot);
    SinceAppend(Era(ops), op, slot);
    HandedAndQueued(s, op, slot);
    Shuffle(Yielded(ops, slot), QueueOf(s, slot), Handed(s, op, slot), QueueOf(Do(s, op), slot),
            Gain(op, slot, Subscribed(s, slot)));
  }

  lemma Shuffle(y: seq<Envelope>, q: seq<Envelope>, handed: seq<Envelope>, rest: seq<Envelope>, gain: seq<Envelope>)
    requires handed + rest == q + gain
    ensures (y + handed) + rest == (y + q) + gain
  {
    assert (y + handed) + rest == y + (handed + rest);
    assert (y + q) + gain == y + (q + gain);
  }

  /** What an operation adds to a slot that is or is not subscribed. */
  ghost function Gain(op: Op, slot: Slot, subscribed: bool): seq<Envelope> {
    if subscribed && op.Publish? && op.e.eventType == slot.1 then [op.e] else []
  }

  /** One operation only moves the head of a queue to a consumer, or adds a publish. */
  lemma HandedAndQueued(s: State, op: Op, slot: Slot)
    requires !op.Reset? && (slot in s.queues <==> Subscribed(s, slot))
    ensures Handed(s, op, slot) + QueueOf(Do(s, op), slot) == QueueOf(s, slot) + Gain(op, slot, Subscribed(s, slot))
  {
    var q := QueueOf(s, slot);
    if op == Take(slot.0, slot.1) && q != [] {
      assert [q[0]] + q[1..] == q;
    }
  }

  // ----- the code

  /** What the slot receives of a publish once all services but todo were served. */
  ghost function Share(s: State, e: Envelope, todo: set<string>, slot: Slot): seq<Envelope> {
    if slot.0 !in todo && Subscribed(s, slot) && slot.1 == e.eventType then [e] else []
  }

  class Hub {
    var subscribers: map<string, set<string>>
    var queues: map<Slot, seq<Envelope>>
    ghost var history: seq<Op>

    ghost function View(): State
      reads this
    {
      State(subscribers, queues)
    }

    ghost predicate Valid()
      reads this
    {
      View() == Final(history)
    }

    constructor ()
      ensures Valid() && history == []
    {
      subscribers, queues, history := map[], map[], [];
    }

    ghost method Record(op: Op)
      requires View() == Do(Final(history), op)
      modifies this`history
      ensures Valid() && history == old(history) + [op]
    {
      assert (history + [op])[..|history|] == history;
      history := history + [op];
    }

    /** The loop looks up a queue only for subscribed types, so it never misses one. */
    method Publish(e: Envelope)
      requires Valid()
      modifies this
      ensures Valid() && history == old(history) + [Op.Publish(e)]
      ensures subscribers == old(subscribers) && queues.Keys == old(queues).Keys
      ensures forall s | s in subscribers && e.eventType in subscribers[s] :: (s, e.eventType) in queues
      ensures forall slot | slot in queues ::
                queues[slot] == if slot.1 == e.eventType && slot.0 in subscribers && e.eventType in subscribers[slot.0]
                                then old(queues)[slot] + [e] else old(queues)[slot]
    {
      QueuesMatchSubscriptions(history);
      ghost var s := View();
      var todo := subscribers.Keys;
      while todo != {}
        invariant todo <= subscribers.Keys && subscribers == s.subscribers && history == old(history)
        invariant queues.Keys == s.queues.Keys
        invariant forall slot | slot in s.queues :: queues[slot] == s.queues[slot] + Share(s, e, todo, slot)
        decreases |todo|
      {
        var service :| service in todo;
        todo := todo - {service};
        if e.eventType in subscribers[service] {
          var slot := (service, e.eventType);
          assert Subscribed(s, slot);
          queues := queues[slot := queues[slot] + [e]];
        }
      }
      assert queues == Do(s, Op.Publish(e)).queues;
      Record(Op.Publish(e));
    }

    /** Subscribing again adds to the subscription and keeps what is queued. */
    method Listen(service: string, types: set<string>)
      requires Valid()
      modifies this
      ensures Valid() && history == old(history) + [Op.Listen(service, types)]
      ensures subscribers.Keys == old(subscribers).Keys + {service}
      ensures subscribers[service] == types + if service in old(subscribers) then old(subscribers)[service] else {}
      ensures forall s | s in old(subscribers) && s != service :: subscribers[s] == old(subscribers)[s]
      ensures queues.Keys == old(queues).Keys + set t | t in types :: (service, t)
      ensures forall slot | slot in queues :: queues[slot] == if slot in old(queues) then old(queues)[slot] else []
    {
      ghost var s := View();
      var had := if service in subscribers then subscribers[service] else {};
      subscribers := subscribers[service := had + types];
      OpenQueues(service, types);
      assert queues == Do(s, Op.Listen(service, types)).queues;
      Record(Op.Listen(service, types));
    }

    method OpenQueues(service: string, types: set<string>)
      modifies this`queues
      ensures queues.Keys == old(queues.Keys) + set t | t in types :: (service, t)
      ensures forall slot | slot in queues :: queues[slot] == if slot in old(queues) then old(queues)[slot] else []
    {
      var todo := types;
      while todo != {}
        invariant todo <= types
        invariant queues.Keys == old(queues.Keys) + set t | t in types && t !in todo :: (service, t)
        invariant forall slot | slot in queues :: queues[slot] == if slot in old(queues) then old(queues)[slot] else []
        decreases |todo|
      {
        var t :| t in todo;
        todo := todo - {t};
        if (service, t) !in queues {
          queues := queues[(service, t) := []];
        }
      }
    }

    /** One attempt of a consumer; an empty queue yields nothing. */
    method Take(service: string, eventType: string) returns (r: Option<Envelope>)
      requires Valid() && Subscribed(View(), (service, eventType))
      modifies this
      ensures Valid() && history == old(history) + [Op.Take(service, eventType)]
      ensures subscribers == old(subscribers)
      ensures Handed(old(View()), Op.Take(service, eventType), (service, eventType))
              == if r.Some? then [r.value] else []
      ensures var slot := (service, eventType);
              && slot in old(queues) && (r.None? <==> old(queues)[slot] == [])
              && queues == (if r.None? then old(queues) else old(queues)[slot := old(queues)[slot][1..]])
              && (r.Some? ==> r.value == old(queues)[slot][0])
    {
      QueuesMatchSubscriptions(history);
      var slot := (service, eventType);
      assert slot in queues;
      if queues[slot] == [] {
        r := None;
      } else {
        r := Some(queues[slot][0]);
        queues := queues[slot := queues[slot][1..]];
      }
      Record(Op.Take(service, eventType));
    }

    /** One round of the consuming loop over the listened types. */
    method Round(service: string, types: seq<string>) returns (yielded: seq<Envelope>, ghost from: seq<nat>)
      requires Valid() && AllSubscribed(subscribers, service, types)
      modifies this
      ensures Valid() && subscribers == old(subscribers)
      ensures history == old(history) + Takes(service, types)
      ensures yielded == AllHanded(old(history), service, types)
      ensures |history| == |old(history)| + |types|
      ensures forall i | 0 <= i < |types| :: history[|old(history)| + i] == Op.Take(service, types[i])
      ensures Distinct(types) ==> OneEach(old(queues), queues, service, types, |types|, yielded, from)
    {
      yielded, from := TakeEach(service, types);
      RoundEnds(old(history), old(queues), service, types, yielded, from);
    }

    method TakeEach(service: string, types: seq<string>) returns (yielded: seq<Envelope>, ghost from: seq<nat>)
      requires Valid() && AllSubscribed(subscribers, service, types)
      modifies this
      ensures Valid() && subscribers == old(subscribers)
      ensures InRound(old(history), old(queues), service, types, |types|, yielded, from)
    {
      yielded, from := [], [];
      RoundStarts(service, types);
      for i := 0 to |types|
        invariant Valid() && subscribers == old(subscribers)
        invariant InRound(old(history), old(queues), service, types, i, yielded, from)
      {
        yielded, from := RoundNext(old(history), old(queues), service, types, i, yielded, from);
      }
    }

    lemma RoundStarts(service: string, types: seq<string>)
      requires Valid() && AllSubscribed(subscribers, service, types)
      ensures InRound(history, queues, service, types, 0, [], [])
    {
      QueuesMatchSubscriptions(history);
      forall i: nat | i < |types| ensures (service, types[i]) in queues {
        assert Subscribed(Final(history), (service, types[i]));
      }
    }

    lemma RoundEnds(
        ops: seq<Op>, was: map<Slot, seq<Envelope>>, service: string, types: seq<string>, yielded: seq<Envelope>, from: seq<nat>)
      requires InRound(ops, was, service, types, |types|, yielded, from)
      ensures history == ops + Takes(service, types) && yielded == AllHanded(ops, service, types)
      ensures |history| == |ops| + |types| && forall i | 0 <= i < |types| :: history[|ops| + i] == Op.Take(service, types[i])
      ensures Distinct(types) ==> OneEach(was, queues, service, types, |types|, yielded, from)
    {
      assert types[..|types|] == types;
    }

    /** The first i types of the round were looked at. */
    ghost predicate InRound(
        ops: seq<Op>, was: map<Slot, seq<Envelope>>, service: string, types: seq<string>, i: nat,
        yielded: seq<Envelope>, from: seq<nat>)
      reads this
    {
      && i <= |types| && history == ops + Takes(service, types[..i])
      && yielded == AllHanded(ops, service, types[..i])
      && (Distinct(types) ==> OneEach(was, queues, service, types, i, yielded, from))
    }

    method RoundNext(
        ghost ops: seq<Op>, ghost was: map<Slot, seq<Envelope>>, service: string, types: seq<string>, i: nat,
        yielded: seq<Envelope>, ghost from: seq<nat>)
      returns (more: seq<Envelope>, ghost now: seq<nat>)
      requires Valid() && i < |types| && AllSubscribed(subscribers, service, types)
      requires InRound(ops, was, service, types, i, yielded, from)
      modifies this
      ensures Valid() && subscribers == old(subscribers) && InRound(ops, was, service, types, i + 1, more, now)
    {
      NextTake(ops, service, types, i);
      more, now := yielded, from;
      ghost var before := queues;
      var r := Take(service, types[i]);
      if Distinct(types) { OneMoreEach(was, before, queues, service, types, i, yielded, from); }
      if r.Some? { more, now := yielded + [r.value], from + [i]; }
    }

    method Reset()
      requires Valid()
      modifies this
      ensures Valid() && history == old(history) + [Op.Reset]
      ensures subscribers == map[] && queues == map[]
    {
      subscribers, queues := map[], map[];
      Record(Op.Reset);
    }
  }

  ghost predicate AllSubscribed(subscribers: map<string, set<string>>, service: string, types: seq<string>) {
    forall i | 0 <= i < |types| :: service in subscribers && types[i] in subscribers[service]
  }

  ghost predicate Distinct(types: seq<string>) {
    forall i, j | 0 <= i < j < |types| :: types[i] != types[j]
  }

  /** Of the first n types, those in from had something queued: each yields the head of its
      queue, in this order, and keeps the rest; all other queues are as they were. */
  ghost predicate OneEach(
      was: map<Slot, seq<Envelope>>, now: map<Slot, seq<Envelope>>, service: string, types: seq<string>, n: nat,
      yielded: seq<Envelope>, from: seq<nat>)
  {
    && n <= |types| && |yielded| == |from| && now.Keys == was.Keys
    && (forall i: nat | i < |types| :: (service, types[i]) in was)
    && (forall k | 0 <= k < |from| :: from[k] < n)
    && (forall k, l | 0 <= k < l < |from| :: from[k] < from[l])
    && (forall i: nat | i < n :: i in from <==> was[(service, types[i])] != [])
    && (forall k | 0 <= k < |from| :: yielded[k] == was[(service, types[from[k]])][0])
    && (forall i: nat | i in from :: now[(service, types[i])] == was[(service, types[i])][1..])
    && (forall slot | slot in was && (forall i: nat | i in from :: slot != (service, types[i])) :: now[slot] == was[slot])
  }

  lemma OneMoreEach(
      was: map<Slot, seq<Envelope>>, before: map<Slot, seq<Envelope>>, now: map<Slot, seq<Envelope>>, service: string,
      types: seq<string>, n: nat, yielded: seq<Envelope>, from: seq<nat>)
    requires Distinct(types) && n < |types| && OneEach(was, before, service, types, n, yielded, from)
    requires var slot := (service, types[n]);
             now == if before[slot] == [] then before else before[slot := before[slot][1..]]
    ensures var slot := (service, types[n]);
            && before[slot] == was[slot]
            && if was[slot] == [] then OneEach(was, now, service, types, n + 1, yielded, from)
               else OneEach(was, now, service, types, n + 1, yielded + [was[slot][0]], from + [n])
  {
    var slot := (service, types[n]);
    assert n !in from;
    assert before[slot] == was[slot];
    if was[slot] != [] {
      var more := from + [n];
      assert forall i: nat :: i in more <==> i in from || i == n;
    }
  }

  lemma NextTake(ops: seq<Op>, service: string, types: seq<string>, i: nat)
    requires i < |types|
    ensures ops + Takes(service, types[..i + 1]) == ops + Takes(service, types[..i]) + [Take(service, types[i])]
    ensures AllHanded(ops, service, types[..i + 1])
            == AllHanded(ops, service, types[..i])
               + Handed(Final(ops + Takes(service, types[..i])), Take(service, types[i]), (service, types[i]))
  {
    assert types[..i + 1][..i] == types[..i];
  }

  ghost function Takes(service: string, types: seq<string>): seq<Op> {
    seq(|types|, i requires 0 <= i < |types| => Take(service, types[i]))
  }

  /** What a round over the types yields after a history. */
  ghost function AllHanded(ops: seq<Op>, service: string, types: seq<string>): seq<Envelope> {
    if types == [] then []
    else
      var n := |types| - 1;
      AllHanded(ops, service, types[..n])
      + Handed(Final(ops + Takes(service, types[..n])), Take(service, types[n]), (service, types[n]))
  }
}
