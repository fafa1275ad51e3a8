/** The code of the Redis broker for one stream and one consumer group. Every method
    keeps Server.Valid(), that is, whatever the code does is a run of the machine. */
module RedisBroker {
  import opened Wrappers
  import opened Events
  import opened Counters
  import opened RedisMachine
  import opened RedisConservation
  import opened RedisRounds
  import opened RedisServer

  class Broker {
    const server: Server
    const maxRetries: int
    const publishRetries: nat
    var pending: map<string, nat>

    constructor (server: Server, maxRetries: int, publishRetries: nat)
      ensures this.server == server && this.maxRetries == maxRetries && this.publishRetries == publishRetries
      ensures pending == map[]
    {
      this.server, this.maxRetries, this.publishRetries, pending := server, maxRetries, publishRetries, map[];
    }

    ghost predicate Valid()
      reads this, server
    {
      server.Valid() && maxRetries == server.cfg.maxRetries[server.g]
    }

    /** XADD with its retries: attempt i meets a connection error if i is in lost, and if
        it is in hidden too the entry was added before the reply got lost. So a publish
        that returns added the event at least once, and possibly k times; one that raises
        may have added it as well. */
    method Publish(e: Envelope, lost: set<nat>, hidden: set<nat>) returns (r: Result<(), ()>, ghost k: nat)
      requires Valid()
      modifies server
      ensures Valid() && server.entries == old(server.entries) + Copies(e, k)
      ensures old(server.entries) <= server.entries && |server.entries| == |old(server.entries)| + k
      ensures forall i | |old(server.entries)| <= i < |server.entries| :: server.entries[i] == Some(e)
      ensures lost * hidden == {} && r.Ok? ==> server.entries == old(server.entries) + [Some(e)]
      ensures server.rows == old(server.rows) && server.last == old(server.last) && server.dlq == old(server.dlq)
      ensures forall batch, phase :: old(server.At(batch, phase)) ==> server.At(batch, phase)
      ensures r.Raised? <==> forall i: nat | i <= publishRetries :: i in lost
      ensures (r.Ok? ==> k >= 1) && k <= publishRetries + 1
      ensures lost * hidden == {} ==> k == if r.Ok? then 1 else 0
    {
      var attempts := publishRetries + 1;
      var attempt := 1;
      k := 0;
      assert server.entries == old(server.entries) + Copies(e, 0);
      while attempt - 1 in lost
        invariant 1 <= attempt <= attempts && k <= attempt - 1
        invariant Valid() && server.entries == old(server.entries) + Copies(e, k)
        invariant server.rows == old(server.rows) && server.last == old(server.last) && server.dlq == old(server.dlq)
        invariant forall batch, phase :: old(server.At(batch, phase)) ==> server.At(batch, phase)
        invariant forall i: nat | i < attempt - 1 :: i in lost
        invariant lost * hidden == {} ==> k == 0
        decreases attempts - attempt
      {
        if attempt - 1 in hidden {
          assert attempt - 1 in lost * hidden;
          k := AddOne(e, old(server.entries), k);
        }
        if attempt == attempts { return Raised(()), k; }
        attempt := attempt + 1;
      }
      k := AddOne(e, old(server.entries), k);
      r := Ok(());
    }

    method AddOne(e: Envelope, ghost was: seq<Option<Envelope>>, ghost k: nat) returns (ghost next: nat)
      requires Valid() && server.entries == was + Copies(e, k)
      modifies server
      ensures Valid() && next == k + 1 && server.entries == was + Copies(e, next)
      ensures forall batch, phase :: old(server.At(batch, phase)) ==> server.At(batch, phase)
      ensures server.rows == old(server.rows) && server.last == old(server.last) && server.dlq == old(server.dlq)
    {
      assert Copies(e, k + 1) == Copies(e, k) + [Some(e)];
      server.XAdd(Some(e));
      next := k + 1;
    }

    /** An unreadable entry is acknowledged and not yielded. */
    method ToEnvelope(id: nat, ghost rest: seq<nat>) returns (r: Option<Envelope>)
      requires Valid() && server.At([id] + rest, Idle) && id < |server.entries|
      modifies this`pending, server
      ensures Valid() && server.entries == old(server.entries) && r == server.entries[id]
      ensures server.dlq == old(server.dlq) && server.last == old(server.last)
      ensures r.Some? ==> pending == old(pending)[r.value.eventId := id]
                          && server.rows == old(server.rows) && server.At(rest, Held(id))
      ensures r.None? ==> pending == old(pending)
                          && server.rows == Removed(old(server.rows), id) && server.At(rest, Idle)
    {
      server.Next(id, rest);
      r := server.entries[id];
      if r.None? {
        server.XAck(id, rest);
      } else {
        pending := pending[r.value.eventId := id];
      }
    }

    method Ack(e: Envelope, ghost rest: seq<nat>)
      requires Valid()
      requires e.eventId in pending ==> server.At(rest, Held(pending[e.eventId]))
      modifies this`pending, server
      ensures Valid() && pending == old(pending) - {e.eventId}
      ensures server.entries == old(server.entries) && server.dlq == old(server.dlq) && server.last == old(server.last)
      ensures e.eventId !in old(pending) ==> server.rows == old(server.rows) && server.model == old(server.model)
      ensures e.eventId in old(pending) ==>
                server.rows == Removed(old(server.rows), old(pending)[e.eventId]) && server.At(rest, Idle)
    {
      if e.eventId !in pending { return; }
      var id := pending[e.eventId];
      pending := pending - {e.eventId};
      server.Dispatched(id, true, rest);
      server.XAck(id, rest);
    }

    /** The entry has been delivered often enough to be given up. An entry that is no
        longer pending counts as delivered once. */
    ghost predicate Exhausted(rows: seq<Row>, id: nat) {
      (match Lookup(rows, id) case Some(n) => n case None => 1) >= maxRetries
    }

    /** Returns True when the event is given up. A retried entry simply stays pending;
        a buried one leaves the pending list in the transaction that writes it to the
        dead letters. */
    method Fail(e: Envelope, ghost rest: seq<nat>) returns (gaveUp: bool)
      requires Valid()
      requires e.eventId in pending ==>
                 var id := pending[e.eventId];
                 server.At(rest, Held(id)) && id < |server.entries| && server.entries[id] == Some(e)
      modifies this`pending, server
      ensures Valid() && pending == old(pending) - {e.eventId}
      ensures server.entries == old(server.entries) && server.last == old(server.last)
      ensures e.eventId !in old(pending) ==>
                gaveUp && server.rows == old(server.rows) && server.dlq == old(server.dlq)
                && server.model == old(server.model)
      ensures e.eventId in old(pending) ==>
                var id := old(pending)[e.eventId];
                && gaveUp == Exhausted(old(server.rows), id)
                && server.dlq == old(server.dlq) + (if gaveUp then [e] else [])
                && server.rows == (if gaveUp then Removed(old(server.rows), id) else old(server.rows))
                && server.At(rest, Idle)
    {
      if e.eventId !in pending { return true; }
      var id := pending[e.eventId];
      pending := pending - {e.eventId};
      server.Dispatched(id, false, rest);
      var info := server.XPending(id, rest);
      var deliveryCount := match info case Some(n) => n case None => 1;
      if deliveryCount < maxRetries { return false; }
      server.Transaction(id, e, rest);
      gaveUp := true;
    }

    /** Dispatch one fetched entry: its handlers succeed or not. */
    method Serve(id: nat, ok: bool, ghost rest: seq<nat>)
      requires Valid() && server.At([id] + rest, Idle) && id < |server.entries| && pending == map[]
      modifies this`pending, server
      ensures Valid() && pending == map[] && server.At(rest, Idle)
      ensures server.entries == old(server.entries) && server.last == old(server.last)
      ensures var body := server.entries[id];
              && server.rows == Outcome(old(server.rows), id, body.None? || ok, maxRetries)
              && server.dlq == old(server.dlq)
                   + (if body.Some? && !ok && Exhausted(old(server.rows), id) then [body.value] else [])
    {
      var r := ToEnvelope(id, rest);
      if r.Some? {
        if ok { Ack(r.value, rest); } else { var gaveUp := Fail(r.value, rest); }
      }
    }

    /** The reclaiming half of one round of the consuming loop; ok[i] is the outcome of
        the i-th claimed entry. When every pending entry is idle, what is left of the
        pending list is what the round model says. */
    method ReclaimRound(idle: set<nat>, ok: seq<bool>) returns (ghost ids: seq<nat>)
      requires Valid() && server.At([], Idle) && pending == map[] && |ok| >= BATCH
      modifies this`pending, server
      ensures Valid() && server.At([], Idle) && pending == map[]
      ensures server.entries == old(server.entries) && server.last == old(server.last)
      ensures ids == FirstIdle(old(server.rows), idle, BATCH) && forall id | id in ids :: id < |server.entries|
      ensures AfterClaims(old(server.rows), server.rows, server.entries, ids, ok, maxRetries)
      ensures server.dlq
              == old(server.dlq) + Deaths(AgedAt(old(server.rows), ids), server.entries, ids, ok, maxRetries, |ids|)
      ensures AllIdle(old(server.rows), idle) ==>
                var n := Claimed(old(server.rows));
                server.rows == Scan(old(server.rows[..n]), Gone(server.entries, old(server.rows[..n]), ok), maxRetries)
                               + old(server.rows[n..])
    {
      var claimed := server.XAutoClaim(idle);
      ids := claimed;
      ServeClaimed(claimed, idle, ok, old(server.rows));
    }

    method ServeClaimed(ids: seq<nat>, ghost idle: set<nat>, ok: seq<bool>, ghost was: seq<Row>)
      requires Valid() && server.At(ids, Idle) && pending == map[] && |ids| <= |ok| && |ok| >= BATCH
      requires Ascending(ids) && forall id | id in ids :: id < |server.entries| && HasId(was, id)
      requires Listed(was, server.last) && server.last <= |server.entries|
      requires ids == FirstIdle(was, idle, BATCH) && server.rows == AgedAt(was, ids)
      modifies this`pending, server
      ensures Valid() && server.At([], Idle) && pending == map[]
      ensures server.entries == old(server.entries) && server.last == old(server.last)
      ensures AfterClaims(was, server.rows, server.entries, ids, ok, maxRetries)
      ensures server.dlq == old(server.dlq) + Deaths(AgedAt(was, ids), server.entries, ids, ok, maxRetries, |ids|)
      ensures AllIdle(was, idle) ==>
                var n := Claimed(was);
                server.rows == Scan(was[..n], Gone(server.entries, was[..n], ok), maxRetries) + was[n..]
    {
      ghost var all, aged := AllIdle(was, idle), server.rows;
      if all {
        ClaimsFront(ids, ok, server.entries, was, idle, server.last);
      }
      ghost var gone := Gone(server.entries, was[..|ids|], ok);
      ServeAll(ids, ok, all, [], was, aged, gone);
      ClaimsServed(was, aged, server.rows, server.entries, ids, ok, maxRetries);
      if all {
        assert server.rows == Scan(was[..|ids|], gone[..|ids|], maxRetries) + was[|ids|..];
        ScanIgnoresRest(was[..|ids|], gone, maxRetries);
      }
    }

    /** The loop over the claimed or newly read entries, which stand behind prefix in the
        pending list if that is known. */
    method ServeAll(
        ids: seq<nat>, ok: seq<bool>, ghost known: bool, ghost prefix: seq<Row>,
        ghost was: seq<Row>, ghost aged: seq<Row>, ghost gone: seq<bool>)
      requires Valid() && server.At(ids, Idle) && pending == map[] && |ids| <= |ok|
      requires Ascending(ids) && forall id | id in ids :: id < |server.entries|
      requires known ==> server.rows == prefix + aged && Claims(ids, ok, server.entries, was, aged, gone)
      modifies this`pending, server
      ensures Valid() && server.At([], Idle) && pending == map[]
      ensures server.entries == old(server.entries) && server.last == old(server.last)
      ensures known ==> server.rows == prefix + Left(was, aged, gone, maxRetries, |ids|)
      ensures Served(old(server.rows), server.rows, server.entries, ids, ok, maxRetries, |ids|)
      ensures server.dlq == old(server.dlq) + Deaths(old(server.rows), server.entries, ids, ok, maxRetries, |ids|)
    {
      assert ids[0..] == ids;
      ghost var entries, last, rows, dlq := server.entries, server.last, server.rows, server.dlq;
      NothingServed(known, prefix, was, aged, gone, rows, dlq, entries, ids, ok, maxRetries);
      for i := 0 to |ids|
        invariant Working(ids, i, entries) && server.last == last
        invariant SoFar(known, prefix, was, aged, gone, rows, dlq, server.rows, server.dlq, entries, ids, ok, maxRetries, i)
      {
        assert ids[i] in ids;
        SoFarNext(known, prefix, was, aged, gone, rows, dlq, server.rows, server.dlq, entries, ids, ok, maxRetries, i, last);
        ServeNext(ids, ok, entries, i);
      }
    }

    /** The entries from index i on are still to be looked at. */
    ghost predicate Working(ids: seq<nat>, i: nat, entries: seq<Option<Envelope>>)
      reads this, server
    {
      Valid() && i <= |ids| && server.At(ids[i..], Idle) && pending == map[] && server.entries == entries
    }

    method ServeNext(ids: seq<nat>, ok: seq<bool>, ghost entries: seq<Option<Envelope>>, i: nat)
      requires i < |ids| && i < |ok| && Working(ids, i, entries) && ids[i] < |entries|
      modifies this`pending, server
      ensures Working(ids, i + 1, entries) && server.last == old(server.last)
      ensures server.rows == Outcome(old(server.rows), ids[i], entries[ids[i]].None? || ok[i], maxRetries)
      ensures server.dlq == old(server.dlq) + Death(old(server.rows), entries, ids[i], ok[i], maxRetries)
    {
      assert ids[i..] == [ids[i]] + ids[i + 1..];
      Serve(ids[i], ok[i], ids[i + 1..]);
    }

    /** The reading half of the round: up to ten new entries, dispatched in order. Those
        that stay pending are at the end of the list, delivered once. */
    method ReadRound(ok: seq<bool>) returns (ghost ids: seq<nat>)
      requires Valid() && server.At([], Idle) && pending == map[] && |ok| >= BATCH
      modifies this`pending, server
      ensures Valid() && server.At([], Idle) && pending == map[] && server.entries == old(server.entries)
      ensures var n := if |server.entries| - old(server.last) < BATCH then |server.entries| - old(server.last) else BATCH;
              && server.last == old(server.last) + n
              && |ids| == n && (forall i: nat | i < n :: ids[i] == old(server.last) + i)
              && server.rows == old(server.rows) + Kept(server.entries, old(server.last), n, ok, maxRetries)
      ensures Served(old(server.rows) + FirstDelivery(ids), server.rows, server.entries, ids, ok, maxRetries, |ids|)
      ensures server.dlq == old(server.dlq)
                + Deaths(old(server.rows) + FirstDelivery(ids), server.entries, ids, ok, maxRetries, |ids|)
    {
      var read := server.XReadGroup();
      ids := read;
      ServeRead(read, ok, old(server.rows), old(server.last));
    }

    method ServeRead(ids: seq<nat>, ok: seq<bool>, ghost was: seq<Row>, ghost from: nat)
      requires Valid() && server.At(ids, Idle) && pending == map[] && |ids| <= |ok|
      requires from + |ids| <= |server.entries| && forall i: nat | i < |ids| :: ids[i] == from + i
      requires server.rows == was + FirstDelivery(ids)
      modifies this`pending, server
      ensures Valid() && server.At([], Idle) && pending == map[]
      ensures server.entries == old(server.entries) && server.last == old(server.last)
      ensures server.rows == was + Kept(server.entries, from, |ids|, ok, maxRetries)
      ensures Served(was + FirstDelivery(ids), server.rows, server.entries, ids, ok, maxRetries, |ids|)
      ensures server.dlq == old(server.dlq)
                + Deaths(was + FirstDelivery(ids), server.entries, ids, ok, maxRetries, |ids|)
    {
      ghost var unread := Unread(from, |ids|);
      ReadClaims(server.entries, from, ids, ok);
      ServeAll(ids, ok, true, was, unread, FirstDelivery(ids), Gone(server.entries, unread, ok));
      KeptIsLeft(server.entries, from, ids, ok, maxRetries);
    }

    /** A whole round of the consuming loop with everything idle: the reclaim, then the
        read. The pending list takes a step of the round model. */
    method Round(idle: set<nat>, okOld: seq<bool>, okNew: seq<bool>) returns (ghost round: RedisRounds.Round)
      requires Valid() && server.At([], Idle) && pending == map[] && |okOld| >= BATCH && |okNew| >= BATCH
      requires AllIdle(server.rows, idle)
      modifies this`pending, server
      ensures Valid() && server.At([], Idle) && pending == map[] && server.entries == old(server.entries)
      ensures ValidRound(round) && server.rows == AfterRound(old(server.rows), round, maxRetries)
      ensures old(server.dlq) <= server.dlq && old(server.last) <= server.last
      ensures server.last == |server.entries| || server.last == old(server.last) + BATCH
    {
      ghost var was := server.rows;
      ghost var front := was[..Claimed(was)];
      ghost var ids := ReclaimRound(idle, okOld);
      ghost var last := server.last;
      ghost var read := ReadRound(okNew);
      ghost var added := Kept(server.entries, last, server.last - last, okNew, maxRetries);
      ScanShrinks(Unread(last, server.last - last), Gone(server.entries, Unread(last, server.last - last), okNew), maxRetries);
      round := RedisRounds.Round(Gone(server.entries, front, okOld), added);
    }

    /** Any number of rounds, with events published before each: the pending list goes
        through the rounds of the model, so its starvation bound is one of this loop. */
    method Rounds(plan: seq<Plan>) returns (ghost rounds: seq<RedisRounds.Round>)
      requires Valid() && server.At([], Idle) && pending == map[]
      requires forall x | x in plan :: |x.okOld| >= BATCH && |x.okNew| >= BATCH
      modifies this`pending, server
      ensures Valid() && server.At([], Idle) && pending == map[]
      ensures |rounds| == |plan| && forall r | r in rounds :: ValidRound(r)
      ensures server.rows == AfterRounds(old(server.rows), rounds, maxRetries)
      ensures server.entries == old(server.entries) + Adds(plan) && old(server.dlq) <= server.dlq
      ensures plan != [] ==> server.last == |server.entries| || server.last >= old(server.last) + BATCH
    {
      rounds := [];
      assert plan[..0] == [];
      for i := 0 to |plan|
        invariant Valid() && server.At([], Idle) && pending == map[]
        invariant |rounds| == i && forall r | r in rounds :: ValidRound(r)
        invariant server.rows == AfterRounds(old(server.rows), rounds, maxRetries)
        invariant server.entries == old(server.entries) + Adds(plan[..i])
        invariant old(server.dlq) <= server.dlq && old(server.last) <= server.last
        invariant i > 0 ==> server.last == |server.entries| || server.last >= old(server.last) + BATCH
      {
        assert plan[i] in plan;
        assert plan[..i + 1][..i] == plan[..i];
        ghost var round := AddThenRound(plan[i]);
        OneRoundMore(old(server.rows), rounds, round, maxRetries);
        rounds := rounds + [round];
      }
      assert plan[..|plan|] == plan;
    }

    method AddThenRound(x: Plan) returns (ghost round: RedisRounds.Round)
      requires Valid() && server.At([], Idle) && pending == map[] && |x.okOld| >= BATCH && |x.okNew| >= BATCH
      modifies this`pending, server
      ensures Valid() && server.At([], Idle) && pending == map[]
      ensures server.entries == old(server.entries) + x.adds
      ensures ValidRound(round) && server.rows == AfterRound(old(server.rows), round, maxRetries)
      ensures old(server.dlq) <= server.dlq && old(server.last) <= server.last
      ensures server.last == |server.entries| || server.last == old(server.last) + BATCH
    {
      AddAll(x.adds);
      var idle := set row | row in server.rows :: row.id;
      round := Round(idle, x.okOld, x.okNew);
    }

    method AddAll(bodies: seq<Option<Envelope>>)
      requires Valid() && server.At([], Idle)
      modifies server
      ensures Valid() && server.At([], Idle) && server.rows == old(server.rows)
      ensures server.entries == old(server.entries) + bodies
      ensures server.last == old(server.last) && server.dlq == old(server.dlq)
    {
      for i := 0 to |bodies|
        invariant Valid() && server.At([], Idle) && server.rows == old(server.rows)
        invariant server.entries == old(server.entries) + bodies[..i]
        invariant server.last == old(server.last) && server.dlq == old(server.dlq)
      {
        server.XAdd(bodies[i]);
      }
    }

    /** A worker that was killed at any point starts again with nothing in hand. */
    method Restart()
      requires Valid()
      modifies this`pending, server
      ensures Valid() && server.At([], Idle) && pending == map[]
      ensures server.rows == old(server.rows) && server.last == old(server.last)
      ensures server.entries == old(server.entries) && server.dlq == old(server.dlq)
    {
      pending := map[];
      server.Stop();
    }
  }

  /** What happens around one round: events published before it, and the outcomes. */
  datatype Plan = Plan(adds: seq<Option<Envelope>>, okOld: seq<bool>, okNew: seq<bool>)

  ghost function Adds(plan: seq<Plan>): seq<Option<Envelope>> {
    if plan == [] then [] else Adds(plan[..|plan| - 1]) + plan[|plan| - 1].adds
  }

  /** Entries about to be read for the first time. */
  function Unread(from: nat, n: nat): seq<Row> { seq(n, (i: nat) requires i < n => Row(from + i, 0)) }

  /** Of these, the ones that are pending after their first dispatch. */
  ghost function Kept(entries: seq<Option<Envelope>>, from: nat, n: nat, ok: seq<bool>, max: int): seq<Row>
    requires n <= |ok|
  {
    Scan(Unread(from, n), Gone(entries, Unread(from, n), ok), max)
  }

  /** Entries just read are claimed with a first delivery each. */
  lemma ReadClaims(entries: seq<Option<Envelope>>, from: nat, ids: seq<nat>, ok: seq<bool>)
    requires |ids| <= |ok| && from + |ids| <= |entries| && forall i | 0 <= i < |ids| :: ids[i] == from + i
    ensures var unread := Unread(from, |ids|);
            Claims(ids, ok, entries, unread, FirstDelivery(ids), Gone(entries, unread, ok))
  {
    var unread := Unread(from, |ids|);
    forall i: nat | i < |ids|
      ensures ClaimAt(ids, ok, entries, unread, FirstDelivery(ids), Gone(entries, unread, ok), i)
    {
    }
  }

  lemma KeptIsLeft(entries: seq<Option<Envelope>>, from: nat, ids: seq<nat>, ok: seq<bool>, max: int)
    requires |ids| <= |ok|
    ensures var unread := Unread(from, |ids|);
            Left(unread, FirstDelivery(ids), Gone(entries, unread, ok), max, |ids|) == Kept(entries, from, |ids|, ok, max)
  {
    var unread := Unread(from, |ids|);
    ScanIgnoresRest(unread, Gone(entries, unread, ok), max);
    assert unread[..|ids|] == unread && FirstDelivery(ids)[|ids|..] == [];
  }

  lemma OneRoundMore(rows: seq<Row>, rounds: seq<RedisRounds.Round>, r: RedisRounds.Round, max: int)
    requires ValidRound(r) && forall x | x in rounds :: ValidRound(x)
    ensures forall x | x in rounds + [r] :: ValidRound(x)
    ensures AfterRounds(rows, rounds + [r], max) == AfterRound(AfterRounds(rows, rounds, max), r, max)
  {
    RoundsJoin(rows, rounds, [r], max);
    assert [r][1..] == [];
  }

  /** Dead letter number i is this entry, and this group wrote it. */
  ghost predicate Burial(s: Server, i: nat, id: nat)
    reads s
  {
    && i < |s.dlq| == |s.model.dlq| && id < |s.entries| && s.entries[id] == Some(s.dlq[i])
    && s.model.dlq[i].group == s.g && s.model.dlq[i].id == id
  }

  /** What conservation means for the code: whatever the group of a server in a state
      its methods can reach has read is pending, was dispatched with success, was
      unreadable, or lies in the dead letters because this group put it there. */
  lemma CodeConserves(s: Server, id: nat)
    requires s.Valid() && id < s.last
    ensures || Lookup(s.rows, id).Some?
            || s.entries[id].None?
            || (s.g, id) in s.model.done
            || exists i: nat :: Burial(s, i, id)
  {
    TrailIsRun(s.cfg, s.trail, s.steps);
    Conservation(s.cfg, s.trail[0], s.steps, s.g, id);
    if s.entries[id].Some? {
      var dead := DeadLetter(s.g, id, s.entries[id].value);
      if i: nat :| i < |s.model.dlq| && s.model.dlq[i] == dead {
        assert Burial(s, i, id);
      }
    }
  }

  function Copies(e: Envelope, k: nat): seq<Option<Envelope>> { seq(k, _ => Some(e)) }

  /** The i-th claimed entry before and after the claim, and whether it leaves the list
      whatever its count is. */
  ghost predicate ClaimAt(
      ids: seq<nat>, ok: seq<bool>, entries: seq<Option<Envelope>>,
      was: seq<Row>, aged: seq<Row>, gone: seq<bool>, i: nat)
  {
    && i < |ids| && i < |ok| && i < |was| == |aged| && i < |gone|
    && ids[i] == was[i].id && ids[i] < |entries| && aged[i] == Row(was[i].id, was[i].count + 1)
    && gone[i] == (ok[i] || entries[ids[i]].None?)
  }

  ghost predicate Claims(
      ids: seq<nat>, ok: seq<bool>, entries: seq<Option<Envelope>>, was: seq<Row>, aged: seq<Row>, gone: seq<bool>)
  {
    && |ids| <= |was| == |aged| && |ids| <= |gone|
    && forall i: nat | i < |ids| :: ClaimAt(ids, ok, entries, was, aged, gone, i)
  }

  /** The pending list when the first i claimed entries have been served. */
  ghost function Left(was: seq<Row>, aged: seq<Row>, gone: seq<bool>, max: int, i: nat): seq<Row>
    requires i <= |was| == |aged| && i <= |gone|
  {
    Scan(was[..i], gone[..i], max) + aged[i..]
  }

  /** The pending list after the entry was dispatched: it leaves in any case if settled
      holds, and otherwise when its deliveries are used up. */
  function Outcome(rows: seq<Row>, id: nat, settled: bool, max: int): seq<Row> {
    if settled || Deliveries(rows, id) >= max then Removed(rows, id) else rows
  }

  function Deliveries(rows: seq<Row>, id: nat): nat {
    match Lookup(rows, id) case Some(n) => n case None => 1
  }

  /** The first n entries were served: those that were acknowledged or given up left the
      list, each of the others is as it was before, and so is the rest of the list. */
  ghost predicate Served(
      was: seq<Row>, now: seq<Row>, entries: seq<Option<Envelope>>, ids: seq<nat>, ok: seq<bool>, max: int, n: nat)
  {
    && n <= |ids| <= |ok|
    && (forall x: nat | x !in ids[..n] :: Lookup(now, x) == Lookup(was, x))
    && forall i: nat | i < n ::
         && ids[i] < |entries|
         && Lookup(now, ids[i]) == if entries[ids[i]].None? || ok[i] || Deliveries(was, ids[i]) >= max then None
                                   else Lookup(was, ids[i])
  }

  lemma ServedNext(
      was: seq<Row>, now: seq<Row>, entries: seq<Option<Envelope>>, ids: seq<nat>, ok: seq<bool>, max: int, n: nat)
    requires n < |ids| && Ascending(ids) && ids[n] < |entries| && Served(was, now, entries, ids, ok, max, n)
    ensures Deliveries(now, ids[n]) == Deliveries(was, ids[n])
    ensures Served(was, Outcome(now, ids[n], entries[ids[n]].None? || ok[n], max), entries, ids, ok, max, n + 1)
  {
    var next := Outcome(now, ids[n], entries[ids[n]].None? || ok[n], max);
    assert ids[n] !in ids[..n];
    forall x: nat ensures Lookup(Removed(now, ids[n]), x) == if x == ids[n] then None else Lookup(now, x) {
      LookupRemoved(now, ids[n], x);
    }
    forall x: nat | x !in ids[..n + 1] ensures Lookup(next, x) == Lookup(was, x) {
      assert x !in ids[..n] && x != ids[n];
    }
  }

  /** Of the claimed entries those that were handled, unreadable or delivered for the last
      time have left the list, and the others are pending with one delivery more. */
  ghost predicate AfterClaims(
      was: seq<Row>, now: seq<Row>, entries: seq<Option<Envelope>>, ids: seq<nat>, ok: seq<bool>, max: int)
  {
    && |ids| <= |ok|
    && (forall x: nat | x !in ids :: Lookup(now, x) == Lookup(was, x))
    && forall i: nat | i < |ids| ::
         && ids[i] < |entries| && Lookup(was, ids[i]).Some?
         && var n := Lookup(was, ids[i]).value + 1;
            Lookup(now, ids[i]) == if entries[ids[i]].None? || ok[i] || n >= max then None else Some(n)
  }

  lemma ClaimsServed(
      was: seq<Row>, aged: seq<Row>, now: seq<Row>, entries: seq<Option<Envelope>>, ids: seq<nat>, ok: seq<bool>, max: int)
    requires aged == AgedAt(was, ids) && Served(aged, now, entries, ids, ok, max, |ids|)
    requires forall id | id in ids :: HasId(was, id)
    ensures AfterClaims(was, now, entries, ids, ok, max)
  {
    assert ids[..|ids|] == ids;
    forall x: nat
      ensures Lookup(aged, x) == match Lookup(was, x) case None => None case Some(c) => Some(if x in ids then c + 1 else c)
    {
      LookupAged(was, ids, x);
    }
    forall i: nat | i < |ids| ensures Lookup(was, ids[i]).Some? {
      assert HasId(was, ids[i]);
      HasIdFound(was, ids[i]);
    }
  }

  lemma {:induction false} HasIdFound(rows: seq<Row>, id: nat)
    requires HasId(rows, id)
    ensures Lookup(rows, id).Some?
  {
    var i :| 0 <= i < |rows| && rows[i].id == id;
    if rows[0].id != id {
      assert rows[1..][i - 1].id == id;
      HasIdFound(rows[1..], id);
    }
  }

  /** The dead letter of one entry, if it is given up. */
  ghost function Death(rows: seq<Row>, entries: seq<Option<Envelope>>, id: nat, ok: bool, max: int): seq<Envelope>
  {
    if id < |entries| && entries[id].Some? && !ok && Deliveries(rows, id) >= max then [entries[id].value] else []
  }

  ghost function Deaths(
      rows: seq<Row>, entries: seq<Option<Envelope>>, ids: seq<nat>, ok: seq<bool>, max: int, n: nat): seq<Envelope>
    requires n <= |ids| <= |ok|
  {
    if n == 0 then [] else Deaths(rows, entries, ids, ok, max, n - 1) + Death(rows, entries, ids[n - 1], ok[n - 1], max)
  }

  /** With everything idle the first entries of the list are claimed. */
  lemma ClaimsFront(ids: seq<nat>, ok: seq<bool>, entries: seq<Option<Envelope>>, was: seq<Row>, idle: set<nat>, bound: nat)
    requires Listed(was, bound) && bound <= |entries| && AllIdle(was, idle) && |ok| >= BATCH
    requires ids == FirstIdle(was, idle, BATCH)
    ensures |ids| == Claimed(was) && AgedAt(was, ids)[|ids|..] == was[|ids|..]
    ensures Claims(ids, ok, entries, was, AgedAt(was, ids), Gone(entries, was[..|ids|], ok))
  {
    ListedMeans(was, bound);
    AllIdleClaims(was, idle, BATCH);
    AgedAtFront(was, ids);
    forall i: nat | i < |ids| ensures ClaimAt(ids, ok, entries, was, AgedAt(was, ids), Gone(entries, was[..|ids|], ok), i) {
      assert was[..|ids|][i] == was[i];
    }
  }

  /** The loop over ids began with rows and dlq, and has served the first n. */
  ghost predicate SoFar(
      known: bool, prefix: seq<Row>, was: seq<Row>, aged: seq<Row>, gone: seq<bool>,
      rows: seq<Row>, dlq: seq<Envelope>, now: seq<Row>, dead: seq<Envelope>,
      entries: seq<Option<Envelope>>, ids: seq<nat>, ok: seq<bool>, max: int, n: nat)
  {
    && (known ==> n <= |was| == |aged| && n <= |gone| && now == prefix + Left(was, aged, gone, max, n))
    && Served(rows, now, entries, ids, ok, max, n)
    && dead == dlq + Deaths(rows, entries, ids, ok, max, n)
  }

  lemma NothingServed(
      known: bool, prefix: seq<Row>, was: seq<Row>, aged: seq<Row>, gone: seq<bool>,
      rows: seq<Row>, dlq: seq<Envelope>, entries: seq<Option<Envelope>>, ids: seq<nat>, ok: seq<bool>, max: int)
    requires |ids| <= |ok| && (known ==> |was| == |aged| && rows == prefix + aged)
    ensures SoFar(known, prefix, was, aged, gone, rows, dlq, rows, dlq, entries, ids, ok, max, 0)
  {
  }

  lemma SoFarNext(
      known: bool, prefix: seq<Row>, was: seq<Row>, aged: seq<Row>, gone: seq<bool>,
      rows: seq<Row>, dlq: seq<Envelope>, now: seq<Row>, dead: seq<Envelope>,
      entries: seq<Option<Envelope>>, ids: seq<nat>, ok: seq<bool>, max: int, n: nat, bound: nat)
    requires SoFar(known, prefix, was, aged, gone, rows, dlq, now, dead, entries, ids, ok, max, n)
    requires n < |ids| && Ascending(ids) && ids[n] < |entries| && Listed(now, bound)
    requires known ==> Claims(ids, ok, entries, was, aged, gone)
    ensures SoFar(known, prefix, was, aged, gone, rows, dlq,
                  Outcome(now, ids[n], entries[ids[n]].None? || ok[n], max), dead + Death(now, entries, ids[n], ok[n], max),
                  entries, ids, ok, max, n + 1)
  {
    if known {
      assert ClaimAt(ids, ok, entries, was, aged, gone, n);
      ServedOne(prefix, was, n, gone, max, aged, now, bound);
    }
    ServedNext(rows, now, entries, ids, ok, max, n);
  }

  /** Which claimed entries leave the list whatever their count is. */
  function Gone(entries: seq<Option<Envelope>>, rows: seq<Row>, ok: seq<bool>): (gone: seq<bool>)
    ensures |gone| == |ok|
  {
    seq(|ok|, (i: nat) requires i < |ok| =>
      ok[i] || (i < |rows| && rows[i].id < |entries| && entries[rows[i].id].None?))
  }

  lemma {:induction false} ScanOneMore(rows: seq<Row>, i: nat, gone: seq<bool>, max: int)
    requires i < |rows| && i < |gone|
    ensures Scan(rows[..i + 1], gone[..i + 1], max)
            == Scan(rows[..i], gone[..i], max)
               + if gone[i] || rows[i].count + 1 >= max then [] else [Row(rows[i].id, rows[i].count + 1)]
  {
    ScanSplits(rows[..i + 1], i, gone[..i + 1], max);
    assert rows[..i + 1][..i] == rows[..i];
    assert rows[..i + 1][i..] == [rows[i]];
    ScanIgnoresRest(rows[..i], gone[..i + 1], max);
    assert gone[..i + 1][..i] == gone[..i];
    assert [rows[i]][1..] == [];
  }

  /** The i-th claimed entry sits right behind what is left of the earlier ones. */
  lemma ServedOne(
      prefix: seq<Row>, was: seq<Row>, i: nat, gone: seq<bool>, max: int, aged: seq<Row>, rows: seq<Row>, bound: nat)
    requires i < |was| == |aged| && i < |gone| && Listed(rows, bound)
    requires aged[i] == Row(was[i].id, was[i].count + 1)
    requires rows == prefix + Left(was, aged, gone, max, i)
    ensures Outcome(rows, was[i].id, gone[i], max) == prefix + Left(was, aged, gone, max, i + 1)
  {
    var scanned := Scan(was[..i], gone[..i], max);
    assert aged[i..] == [aged[i]] + aged[i + 1..];
    Regroup(prefix, scanned, [aged[i]], aged[i + 1..]);
    OutcomeInside(prefix + scanned, aged[i], aged[i + 1..], bound, gone[i], max);
    ScanOneMore(was, i, gone, max);
    var rest := if gone[i] || aged[i].count >= max then [] else [aged[i]];
    Regroup(prefix, scanned, rest, aged[i + 1..]);
  }

  lemma Regroup(a: seq<Row>, b: seq<Row>, c: seq<Row>, d: seq<Row>)
    ensures (a + b) + c + d == a + (b + (c + d)) == a + ((b + c) + d)
  {
  }

  lemma OutcomeInside(before: seq<Row>, row: Row, after: seq<Row>, bound: nat, settled: bool, max: int)
    requires Listed(before + [row] + after, bound)
    ensures Outcome(before + [row] + after, row.id, settled, max)
            == before + (if settled || row.count >= max then [] else [row]) + after
  {
    ListedMeans(before + [row] + after, bound);
    MiddleRow(before, row, after);
  }

  lemma {:induction false} ScanIgnoresRest(rows: seq<Row>, gone: seq<bool>, max: int)
    requires |rows| <= |gone|
    ensures Scan(rows, gone, max) == Scan(rows, gone[..|rows|], max)
  {
    if rows != [] {
      ScanIgnoresRest(rows[1..], gone[1..], max);
      assert gone[1..][..|rows[1..]|] == gone[..|rows|][1..];
    }
  }

  /** One worker whose only pending entry, if any, is entry 0, delivered n times. */
  ghost predicate Alone(broker: Broker, e: Envelope, n: nat)
    reads broker, broker.server
  {
    var s := broker.server;
    && broker.Valid() && s.At([], Idle) && broker.pending == map[] && s.entries == [Some(e)] && s.last == 1
    && (s.rows == [] || s.rows == [Row(0, n)])
  }

  /** Entry 0 is reclaimed for its next delivery and dispatched. */
  method ServeAgain(broker: Broker, e: Envelope, n: nat, ok: bool)
    requires Alone(broker, e, n) && broker.server.rows != []
    modifies broker, broker.server
    ensures Alone(broker, e, n + 1)
    ensures var s, goes := broker.server, ok || n + 1 >= broker.maxRetries;
            && (s.rows == [] <==> goes)
            && s.dlq == old(s.dlq) + if goes && !ok then [e] else []
  {
    ClaimAgain(broker, e, n);
    OnlyRow(Row(0, n + 1));
    broker.Serve(0, ok, []);
  }

  method ClaimAgain(broker: Broker, e: Envelope, n: nat)
    requires Alone(broker, e, n) && broker.server.rows != []
    modifies broker.server
    ensures broker.Valid() && broker.server.At([0] + [], Idle)
    ensures var s := broker.server;
            s.entries == [Some(e)] && s.last == 1 && s.rows == [Row(0, n + 1)] && s.dlq == old(s.dlq)
  {
    assert broker.server.rows == [Row(0, n)];
    OneIdle(n);
    var ids := broker.server.XAutoClaim({0});
    assert ids == [0];
  }

  /** Entry 0 is read for its first delivery. */
  method ReadFirst(broker: Broker, e: Envelope)
    requires broker.Valid() && broker.server.At([], Idle)
    requires broker.server.entries == [Some(e)] && broker.server.last == 0 && broker.server.rows == []
    modifies broker.server
    ensures broker.Valid() && broker.server.At([0] + [], Idle)
    ensures var s := broker.server;
            s.entries == [Some(e)] && s.last == 1 && s.rows == [Row(0, 1)] && s.dlq == old(s.dlq)
  {
    var ids := broker.server.XReadGroup();
    OneNew(ids);
  }

  lemma OneIdle(n: nat)
    ensures FirstIdle([Row(0, n)], {0}, BATCH) == [0] && [0] + [] == [0]
    ensures AgedAt([Row(0, n)], [0]) == [Row(0, n + 1)]
  {
    var rows := [Row(0, n)];
    assert rows[1..] == [] && FirstIdle(rows[1..], {0}, 9) == [];
    assert FirstIdle(rows, {0}, BATCH) == [0] + FirstIdle(rows[1..], {0}, 9);
    assert AgedAt(rows, [0]) == [Row(0, n + 1)];
  }

  lemma OneNew(ids: seq<nat>)
    requires |ids| == 1 && ids[0] == 0
    ensures ids == [0] + [] && FirstDelivery(ids) == [Row(0, 1)]
    ensures [] + FirstDelivery(ids) == [Row(0, 1)]
  {
  }

  method ServeFirst(broker: Broker, e: Envelope, ok: bool)
    requires broker.Valid() && broker.server.At([], Idle) && broker.pending == map[]
    requires broker.server.entries == [Some(e)] && broker.server.last == 0 && broker.server.rows == []
    modifies broker, broker.server
    ensures Alone(broker, e, 1)
    ensures var s, goes := broker.server, ok || 1 >= broker.maxRetries;
            && (s.rows == [] <==> goes)
            && s.dlq == old(s.dlq) + if goes && !ok then [e] else []
  {
    ReadFirst(broker, e);
    OnlyRow(Row(0, 1));
    broker.Serve(0, ok, []);
  }

  /** One worker, one group, no crash, every pending entry idle at each round: an
      event whose handlers fail the first j times, until nothing is left of it. */
  method Drive(broker: Broker, e: Envelope, j: nat) returns (attempts: nat)
    requires broker.Valid() && broker.server.At([], Idle) && broker.pending == map[]
    requires broker.server.entries == [] && broker.server.last == 0
    requires broker.server.rows == [] && broker.server.dlq == []
    modifies broker, broker.server
    ensures var max := broker.maxRetries;
            && attempts == (if j < max then j + 1 else if max < 1 then 1 else max) == Dispatched(j, max)
            && |broker.server.dlq| == (if j < max || j == 0 then 0 else 1) == DeadLettered(j, max)
    ensures broker.server.rows == [] && broker.server.last == |broker.server.entries| == 1
  {
    var s := broker.server;
    var none: set<nat> := {};
    var published, k := broker.Publish(e, none, none);
    assert 0 !in none;
    ServeFirst(broker, e, j == 0);
    attempts := 1;
    while s.rows != []
      invariant Alone(broker, e, attempts)
      invariant s.rows != [] ==> s.dlq == [] && attempts < Dispatched(j, broker.maxRetries)
      invariant s.rows == [] ==>
                  attempts == Dispatched(j, broker.maxRetries) && |s.dlq| == DeadLettered(j, broker.maxRetries)
      decreases Dispatched(j, broker.maxRetries) - attempts + |s.rows|
    {
      ServeAgain(broker, e, attempts, j <= attempts);
      attempts := attempts + 1;
    }
  }
}
