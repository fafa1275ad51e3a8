/** The code of the Kafka broker, run against a cluster that keeps, beside the real
    logs and offsets, the machine state they stand for. Every method keeps
    Cluster.Valid(), that is, whatever the code does is a run of the machine. */
module KafkaBroker {
  import opened Wrappers
  import opened Events
  import opened KafkaMachine
  import opened KafkaConservation
  import opened Counters

  const RETRY_HEADER := "x-retry-count"

  /** number is None for bytes that are no decimal integer. */
  datatype HeaderValue = Null | Text(text: string) | Bytes(number: Option<int>)

  datatype Header = Header(key: string, value: HeaderValue)

  datatype Wire = Wire(body: Option<Envelope>, headers: seq<Header>)

  datatype Message = Message(part: nat, off: nat, wire: Wire)

  datatype Error = BufferFull | NotDelivered | BadHeader

  /** The first retry header that carries bytes decides; without one the count is 0. */
  function CountIn(headers: seq<Header>): Result<int, Error> {
    if headers == [] then Ok(0)
    else if headers[0].key == RETRY_HEADER && headers[0].value.Bytes? then
      (match headers[0].value.number case Some(n) => Ok(n) case None => Raised(BadHeader))
    else CountIn(headers[1..])
  }

  method RetryCount(headers: seq<Header>) returns (r: Result<int, Error>)
    ensures r == CountIn(headers)
    ensures (forall h | h in headers :: h.key != RETRY_HEADER || !h.value.Bytes?) ==> r == Ok(0)
    ensures forall i | 0 <= i < |headers| && headers[i].key == RETRY_HEADER && headers[i].value.Bytes?
                       && (forall j | 0 <= j < i :: headers[j].key != RETRY_HEADER || !headers[j].value.Bytes?) ::
              r == match headers[i].value.number case Some(n) => Ok(n) case None => Raised(BadHeader)
  {
    for i := 0 to |headers|
      invariant CountIn(headers) == CountIn(headers[i..])
      invariant forall j | 0 <= j < i :: headers[j].key != RETRY_HEADER || !headers[j].value.Bytes?
    {
      assert headers[i..][1..] == headers[i + 1..];
      var h := headers[i];
      if h.key == RETRY_HEADER && h.value.Bytes? {
        match h.value.number {
          case Some(n) => return Ok(n);
          case None => return Raised(BadHeader);
        }
      }
    }
    r := Ok(0);
  }

  function Stamped(body: Option<Envelope>, n: int): Wire { Wire(body, [Header(RETRY_HEADER, Bytes(Some(n)))]) }

  /** What produce() writes is what the next consumer reads. */
  lemma {:induction false} StampRoundTrip(body: Option<Envelope>, n: int, before: seq<Header>)
    requires forall h | h in before :: !(h.key == RETRY_HEADER && h.value.Bytes?)
    ensures CountIn(before + Stamped(body, n).headers) == Ok(n)
  {
    var all := before + Stamped(body, n).headers;
    if before != [] {
      assert all[1..] == before[1..] + Stamped(body, n).headers && all[0] == before[0];
      assert forall h | h in before[1..] :: h in before;
      StampRoundTrip(body, n, before[1..]);
    }
  }

  function RecOf(w: Wire): Rec {
    Rec(w.body, match CountIn(w.headers) case Ok(n) => n case Raised(_) => 0)
  }

  /** The log on the server is the log of the machine. A readable message whose retry header
      is no number counts 0 there. */
  ghost predicate Agree(log: seq<Wire>, recs: seq<Rec>) {
    |log| == |recs| && forall o: nat | o < |log| :: recs[o] == RecOf(log[o])
  }

  /** Nothing is ever taken out of a log. */
  ghost predicate Grew(before: seq<seq<Wire>>, after: seq<seq<Wire>>) {
    |before| == |after| && forall p: nat | p < |before| :: before[p] <= after[p]
  }

  lemma GrewOn(a: seq<seq<Wire>>, b: seq<seq<Wire>>, c: seq<seq<Wire>>)
    requires Grew(a, b) && Grew(b, c)
    ensures Grew(a, c)
  {
    forall p: nat | p < |a| ensures a[p] <= c[p] { assert a[p] <= b[p] && b[p] <= c[p]; }
  }

  /** Steps of the publishers, of other groups, and of other workers of this one. */
  ghost predicate ForeignTo(g: nat, mine: set<nat>, x: Step) {
    x.Publish? || x.Garbage? || x.g != g || x.p !in mine
  }

  /** One step of somebody else, and what the server looks like after it. */
  datatype Foreign = Foreign(x: Step, logs: seq<seq<Wire>>, committed: seq<nat>)

  ghost predicate Happens(cfg: Cfg, g: nat, mine: set<nat>, s: State, logs: seq<seq<Wire>>, f: Foreign) {
    && g < |cfg.groups| && Can(cfg, s, f.x) && ForeignTo(g, mine, f.x)
    && Grew(logs, f.logs) && |f.committed| == |f.logs| == |cfg.topicOf|
    && forall p: nat | p < |f.logs| ::
         && Agree(f.logs[p], Do(cfg, s, f.x).logs[p])
         && f.committed[p] == Do(cfg, s, f.x).cells[g][p].committed
  }

  ghost predicate Known(c: Cell, committed: nat, position: nat, mine: bool) {
    c.committed == committed && (mine ==> c.owned && c.pos == position)
  }

  /** The server, and the consumer of one worker of group g. mine are the partitions it
      was given; other workers of the group may own the rest. */
  class Cluster {
    const cfg: Cfg
    const g: nat
    var logs: seq<seq<Wire>>
    var committed: seq<nat>
    var position: seq<nat>
    var mine: set<nat>

    ghost var steps: seq<Step>
    ghost var trail: seq<State>
    ghost var model: State

    /** What was recorded is a run that ends in this state. */
    ghost predicate Logged(s: State)
      reads this`steps, this`trail
    {
      Trail(cfg, trail, steps) && s == trail[|steps|]
    }

    ghost predicate Valid()
      reads this
    {
      && Logged(model) && Inv(cfg, model)
      && g < |cfg.groups|
      && |logs| == |committed| == |position| == |cfg.topicOf|
      && (forall p | p in mine :: p < |logs|)
      && forall p: nat | p < |logs| ::
           && Agree(logs[p], model.logs[p])
           && Known(model.cells[g][p], committed[p], position[p], p in mine)
    }

    /** Nothing was published, and no partition was given to anybody yet. */
    constructor (cfg: Cfg, g: nat, ghost s: State)
      requires Init(cfg, s) && g < |cfg.groups|
      requires forall p: nat | p < |cfg.topicOf| :: s.cells[g][p].committed == 0
      ensures Valid() && this.cfg == cfg && this.g == g && model == s && mine == {}
      ensures logs == seq(|cfg.topicOf|, _ => [])
      ensures committed == seq(|cfg.topicOf|, _ => 0) && position == committed
    {
      this.cfg, this.g := cfg, g;
      logs := seq(|cfg.topicOf|, _ => []);
      committed, position := seq(|cfg.topicOf|, _ => 0), seq(|cfg.topicOf|, _ => 0);
      steps, trail, model, mine := [], [s], s, {};
      new;
      RunKeepsInv(cfg, s, []);
      forall p: nat | p < |logs| ensures Agree(logs[p], model.logs[p]) && Known(model.cells[g][p], 0, 0, false) {
        assert HasCell(cfg, s, g, p);
      }
    }

    ghost predicate At(p: nat, phase: Phase)
      reads this
    {
      HasCell(cfg, model, g, p) && p in mine && model.cells[g][p].owned && model.cells[g][p].phase == phase
    }

    /** No worker of the group has this partition. */
    ghost predicate Free(p: nat)
      reads this
    {
      HasCell(cfg, model, g, p) && !model.cells[g][p].owned
    }

    /** The message msg is in this worker's hands. */
    ghost predicate Has(msg: Message)
      reads this
    {
      && msg.part < |logs| && msg.off < |logs[msg.part]| && logs[msg.part][msg.off] == msg.wire
      && At(msg.part, Held(msg.off))
    }

    /** Of what this worker owns, at most partition but has a message in hand. */
    ghost predicate Resting(but: Option<nat>)
      reads this
    {
      forall p | p in mine && but != Some(p) :: At(p, Idle)
    }

    ghost method Advance(step: Step)
      requires Logged(model) && Inv(cfg, model)
      requires Can(cfg, model, step)
      modifies this`model, this`steps, this`trail
      ensures Logged(model) && Inv(cfg, model)
      ensures model == Do(cfg, old(model), step)
    {
      TrailExtends(cfg, trail, steps, step);
      StepKeepsInv(cfg, model, step);
      steps, trail, model := steps + [step], trail + [Do(cfg, model, step)], Do(cfg, model, step);
    }

    /** ack() or fail() starts on the message in hand: from here on its commands are planned. */
    ghost method Plan(p: nat, off: nat, ok: bool, q: nat)
      requires Valid() && At(p, Held(off)) && off < |logs[p]| && logs[p][off].body.Some?
      requires !ok ==>
                 && cfg.Subscribes(g, logs[p][off].body.value.eventType)
                 && q < |logs| && cfg.topicOf[q] == FailTopic(cfg, g, RecOf(logs[p][off]))
      modifies this`model, this`steps, this`trail
      ensures Valid() && HasCell(cfg, model, g, p)
      ensures At(p, Settling(off, if ok then AckCmds(p, off) else FailCmds(RecOf(logs[p][off]), p, off, q)))
      ensures ok ==> (g, logs[p][off].body.value) in model.done
      ensures old(Resting(Some(p))) ==> Resting(Some(p))
    {
      assert Agree(logs[p], model.logs[p]);
      Advance(Dispatch(g, p, ok, q));
    }

    /** A readable message arrives, with headers that hold no count. */
    method Arrive(p: nat, e: Envelope, headers: seq<Header>)
      requires Valid() && cfg.IsMain(p, e.eventType) && RecOf(Wire(Some(e), headers)).retry == 0
      modifies this
      ensures Valid() && logs == old(logs)[p := old(logs)[p] + [Wire(Some(e), headers)]]
      ensures committed == old(committed) && position == old(position) && mine == old(mine)
      ensures model == Do(cfg, old(model), Step.Publish(p, e))
    {
      logs := logs[p := logs[p] + [Wire(Some(e), headers)]];
      Advance(Step.Publish(p, e));
    }

    /** publish() of some service took effect in partition p. */
    method Publish(p: nat, e: Envelope)
      requires Valid() && cfg.IsMain(p, e.eventType)
      modifies this
      ensures Valid() && logs == old(logs)[p := old(logs)[p] + [Stamped(Some(e), 0)]]
      ensures committed == old(committed) && position == old(position) && mine == old(mine)
      ensures model == Do(cfg, old(model), Step.Publish(p, e))
    {
      assert CountIn(Stamped(Some(e), 0).headers) == Ok(0);
      Arrive(p, e, Stamped(Some(e), 0).headers);
    }

    /** Bytes nobody can read arrive from elsewhere. */
    method Garbage(p: nat, headers: seq<Header>)
      requires Valid() && p < |logs|
      modifies this
      ensures Valid() && logs == old(logs)[p := old(logs)[p] + [Wire(None, headers)]]
      ensures committed == old(committed) && position == old(position) && mine == old(mine)
    {
      logs := logs[p := logs[p] + [Wire(None, headers)]];
      Advance(Step.Garbage(p, RecOf(Wire(None, headers)).retry));
    }

    /** This worker is given partition p. */
    method Assign(p: nat)
      requires Valid() && Can(cfg, model, Step.Assign(g, p))
      modifies this
      ensures Valid() && logs == old(logs) && committed == old(committed)
      ensures position == old(position)[p := committed[p]] && mine == old(mine) + {p}
      ensures model == Do(cfg, old(model), Step.Assign(g, p))
      ensures old(Resting(None)) ==> Resting(None)
    {
      position := position[p := committed[p]];
      mine := mine + {p};
      Advance(Step.Assign(g, p));
    }

    /** This worker stops, crashes or loses partition p in a rebalance, whatever it is
        doing with it. */
    method Lose(p: nat)
      requires Valid() && p in mine
      modifies this
      ensures Valid() && mine == old(mine) - {p}
      ensures logs == old(logs) && committed == old(committed)
      ensures model == Do(cfg, old(model), Step.Lose(g, p))
      ensures forall r :: r == p || old(Free(r)) ==> Free(r)
    {
      mine := mine - {p};
      assert HasCell(cfg, model, g, p);
      Advance(Step.Lose(g, p));
    }

    /** The worker stops or crashes. */
    method Stop()
      requires Valid()
      modifies this
      ensures Valid() && mine == {} && logs == old(logs) && committed == old(committed)
      ensures Resting(None) && forall p | p in old(mine) :: Free(p)
    {
      while mine != {}
        invariant Valid() && logs == old(logs) && committed == old(committed) && mine <= old(mine)
        invariant forall p | p in old(mine) - mine :: Free(p)
        decreases |mine|
      {
        var p :| p in mine;
        Lose(p);
      }
    }

    /** Anything the others do, at any moment; logs and offsets are then as given. What this
        worker has in hand stays what it is. */
    method Elsewhere(f: Foreign)
      requires Valid() && Happens(cfg, g, mine, model, logs, f)
      modifies this
      ensures Valid() && logs == f.logs && committed == f.committed
      ensures position == old(position) && mine == old(mine) && model == Do(cfg, old(model), f.x)
      ensures Grew(old(logs), logs)
      ensures forall p | p in mine :: committed[p] == old(committed)[p]
      ensures forall p, phase :: old(At(p, phase)) ==> At(p, phase)
      ensures forall msg :: old(Has(msg)) ==> Has(msg)
      ensures old(Resting(None)) ==> Resting(None)
      ensures forall p: nat :: old(Resting(Some(p))) ==> Resting(Some(p))
    {
      ForeignKeepsCells(f.x);
      logs, committed := f.logs, f.committed;
      Advance(f.x);
    }

    lemma ForeignKeepsCells(x: Step)
      requires Inv(cfg, model) && g < |cfg.groups| && Can(cfg, model, x) && ForeignTo(g, mine, x)
      ensures forall p | p in mine && p < |cfg.topicOf| ::
                HasCell(cfg, model, g, p) && Do(cfg, model, x).cells[g][p] == model.cells[g][p]
    {
    }

    /** poll() looking at partition p. */
    method Poll(p: nat) returns (r: Option<Message>)
      requires Valid() && At(p, Idle)
      modifies this
      ensures Valid() && logs == old(logs) && committed == old(committed) && mine == old(mine)
      ensures old(Resting(None)) ==> Resting(Some(p))
      ensures r.None? ==> position == old(position) && model == old(model) && position[p] == |logs[p]|
      ensures r.Some? ==>
                && old(position)[p] < |logs[p]|
                && r == Some(Message(p, old(position)[p], logs[p][old(position)[p]]))
                && position == old(position)[p := old(position)[p] + 1]
                && model == Do(cfg, old(model), Fetch(g, p))
                && old(position)[p] == committed[p]
    {
      assert CellOk(cfg, model, g, p) && Agree(logs[p], model.logs[p]);
      if position[p] == |logs[p]| {
        return None;
      }
      var off := position[p];
      r := Some(Message(p, off, logs[p][off]));
      position := position[p := off + 1];
      Advance(Fetch(g, p));
    }

    /** A record reached the server; it has to be the command planned next for (g, p). */
    method Write(p: nat, q: nat, w: Wire)
      requires Valid() && Can(cfg, model, Exec(g, p))
      requires model.cells[g][p].phase.todo[0] == Produce(q, RecOf(w))
      modifies this
      ensures Valid() && logs == old(logs)[q := old(logs)[q] + [w]]
      ensures committed == old(committed) && position == old(position) && mine == old(mine)
      ensures model == Do(cfg, old(model), Exec(g, p))
    {
      logs := logs[q := logs[q] + [w]];
      Advance(Exec(g, p));
    }

    /** commit(message=msg): the group's offset becomes the one after msg. */
    method Commit(msg: Message)
      requires Valid() && Can(cfg, model, Exec(g, msg.part))
      requires model.cells[g][msg.part].phase.todo[0] == KafkaMachine.Commit(msg.part, msg.off + 1)
      modifies this
      ensures Valid() && logs == old(logs) && position == old(position)
      ensures committed == old(committed)[msg.part := msg.off + 1] && mine == old(mine)
      ensures model == Do(cfg, old(model), Exec(g, msg.part))
    {
      committed := committed[msg.part := msg.off + 1];
      Advance(Exec(g, msg.part));
    }
  }

  class Broker {
    const cluster: Cluster
    const publishRetries: nat
    var pending: map<string, Message>

    constructor (cluster: Cluster, publishRetries: nat)
      ensures this.cluster == cluster && this.publishRetries == publishRetries && pending == map[]
    {
      this.cluster, this.publishRetries := cluster, publishRetries;
      pending := map[];
    }

    /** produce() with its retries on a full local queue, then flush(): full[i] says
        that attempt i finds the queue full, lost that the delivery callback reports
        an error. It returns normally only if the record is in the log. */
    method Produce(p: nat, q: nat, w: Wire, full: nat -> bool, lost: bool) returns (r: Result<(), Error>)
      requires cluster.Valid() && Can(cluster.cfg, cluster.model, Exec(cluster.g, p))
      requires cluster.model.cells[cluster.g][p].phase.todo[0] == KafkaMachine.Produce(q, RecOf(w))
      modifies cluster
      ensures cluster.Valid() && cluster.committed == old(cluster.committed) && cluster.position == old(cluster.position)
      ensures cluster.mine == old(cluster.mine)
      ensures r == Raised(BufferFull) <==> forall i: nat | i <= publishRetries :: full(i)
      ensures r == Raised(NotDelivered) <==> lost && exists i: nat :: i <= publishRetries && !full(i)
      ensures r != Raised(BadHeader)
      ensures !lost && !full(0) ==> r.Ok?
      ensures r.Raised? ==> cluster.logs == old(cluster.logs) && cluster.model == old(cluster.model)
      ensures r.Ok? ==>
                && cluster.logs == old(cluster.logs)[q := old(cluster.logs)[q] + [w]]
                && cluster.model == Do(cluster.cfg, old(cluster.model), Exec(cluster.g, p))
    {
      r := Send(full, lost);
      if r.Ok? { cluster.Write(p, q, w); }
    }

    /** The attempts of produce() and the flush() after it, up to what the server does. */
    method Send(full: nat -> bool, lost: bool) returns (r: Result<(), Error>)
      ensures r == Raised(BufferFull) <==> forall i: nat | i <= publishRetries :: full(i)
      ensures r == Raised(NotDelivered) <==> lost && exists i: nat :: i <= publishRetries && !full(i)
      ensures r != Raised(BadHeader) && (!lost && !full(0) ==> r.Ok?)
    {
      var attempts := publishRetries + 1;
      var attempt := 1;
      while attempt <= attempts && full(attempt - 1)
        invariant 1 <= attempt <= attempts
        invariant forall i: nat | i < attempt - 1 :: full(i)
      {
        if attempt == attempts {
          return Raised(BufferFull);
        }
        attempt := attempt + 1;
      }
      assert !full(attempt - 1);
      r := if lost then Raised(NotDelivered) else Ok(());
    }

    /** publish(): it returns only if the event is in the log of partition q, which the
        producer picked of the event's topic, with a count of 0. */
    method Publish(e: Envelope, q: nat, full: nat -> bool, lost: bool) returns (r: Result<(), Error>)
      requires cluster.Valid() && cluster.cfg.IsMain(q, e.eventType)
      modifies cluster
      ensures cluster.Valid() && cluster.committed == old(cluster.committed) && cluster.position == old(cluster.position)
      ensures cluster.mine == old(cluster.mine)
      ensures r == Raised(BufferFull) <==> forall i: nat | i <= publishRetries :: full(i)
      ensures r == Raised(NotDelivered) <==> lost && exists i: nat :: i <= publishRetries && !full(i)
      ensures r != Raised(BadHeader) && (!lost && !full(0) ==> r.Ok?)
      ensures r.Raised? ==> cluster.logs == old(cluster.logs) && cluster.model == old(cluster.model)
      ensures r.Ok? ==>
                var w := Wire(Some(e), [Header(RETRY_HEADER, Bytes(Some(0)))]);
                && cluster.logs == old(cluster.logs)[q := old(cluster.logs)[q] + [w]]
                && e in cluster.model.published
                && cluster.model == Do(cluster.cfg, old(cluster.model), Step.Publish(q, e))
    {
      r := Send(full, lost);
      if r.Ok? { cluster.Publish(q, e); }
    }

    /** An unreadable message is committed and not yielded. */
    method ToEnvelope(msg: Message) returns (r: Option<Envelope>)
      requires cluster.Valid()
      requires if msg.wire.body.Some? then cluster.Has(msg)
               else cluster.At(msg.part, Settling(msg.off, AckCmds(msg.part, msg.off)))
      modifies this, cluster
      ensures cluster.Valid() && r == msg.wire.body && cluster.logs == old(cluster.logs)
      ensures cluster.position == old(cluster.position) && cluster.mine == old(cluster.mine)
      ensures old(cluster.Resting(Some(msg.part))) ==> cluster.Resting(if r.Some? then Some(msg.part) else None)
      ensures r.Some? ==>
                && pending == old(pending)[r.value.eventId := msg] && cluster.model == old(cluster.model)
                && cluster.committed == old(cluster.committed)
      ensures r.None? ==>
                && pending == old(pending) && cluster.At(msg.part, Idle)
                && cluster.committed == old(cluster.committed)[msg.part := msg.off + 1]
    {
      if msg.wire.body.None? {
        cluster.Commit(msg);
        return None;
      }
      pending := pending[msg.wire.body.value.eventId := msg];
      r := msg.wire.body;
    }

    method Ack(e: Envelope)
      requires cluster.Valid()
      requires e.eventId in pending ==> cluster.Has(pending[e.eventId]) && pending[e.eventId].wire.body.Some?
      modifies this, cluster
      ensures cluster.Valid() && pending == old(pending) - {e.eventId}
      ensures cluster.logs == old(cluster.logs) && cluster.position == old(cluster.position)
      ensures cluster.mine == old(cluster.mine)
      ensures e.eventId in old(pending) && old(cluster.Resting(Some(pending[e.eventId].part))) ==> cluster.Resting(None)
      ensures e.eventId !in old(pending) ==>
                cluster.committed == old(cluster.committed) && cluster.model == old(cluster.model)
      ensures e.eventId in old(pending) ==>
                var msg := old(pending)[e.eventId];
                && cluster.committed == old(cluster.committed)[msg.part := msg.off + 1]
                && (cluster.g, msg.wire.body.value) in cluster.model.done
                && cluster.At(msg.part, Idle)
    {
      if e.eventId !in pending {
        return;
      }
      var msg := pending[e.eventId];
      pending := pending - {e.eventId};
      cluster.Plan(msg.part, msg.off, true, 0);
      cluster.Commit(msg);
    }

    /** Both branches of fail(): the copy is written and confirmed before the offset moves. */
    method ProduceThenCommit(msg: Message, q: nat, w: Wire, full: nat -> bool, lost: bool) returns (r: Result<(), Error>)
      requires cluster.Valid() && q < |cluster.logs| && w.body.Some?
      requires cluster.At(msg.part, Settling(msg.off,
                 [KafkaMachine.Produce(q, RecOf(w)), KafkaMachine.Commit(msg.part, msg.off + 1)]))
      modifies cluster
      ensures cluster.Valid() && cluster.position == old(cluster.position) && cluster.mine == old(cluster.mine)
      ensures r.Ok? && old(cluster.Resting(Some(msg.part))) ==> cluster.Resting(None)
      ensures r.Raised? ==> cluster.committed == old(cluster.committed) && cluster.logs == old(cluster.logs)
      ensures r.Ok? ==>
                && cluster.logs == old(cluster.logs)[q := old(cluster.logs)[q] + [w]]
                && cluster.committed == old(cluster.committed)[msg.part := msg.off + 1]
                && cluster.At(msg.part, Idle)
      ensures r != Raised(BadHeader) && (!lost && !full(0) ==> r.Ok?)
    {
      r := Produce(msg.part, q, w, full, lost);
      if r.Ok? {
        cluster.Commit(msg);
      }
    }

    /** Is this failure the last one allowed? */
    ghost predicate Exhausted(msg: Message)
      requires cluster.g < |cluster.cfg.groups|
    {
      !Retries(cluster.cfg, cluster.g, RecOf(msg.wire))
    }

    /** The copy is written, then the offset moves. */
    method PassOn(msg: Message, e: Envelope, count: int, q: nat, full: nat -> bool, lost: bool) returns (r: Result<bool, Error>)
      requires cluster.Valid() && cluster.Has(msg) && msg.wire.body == Some(e) && CountIn(msg.wire.headers) == Ok(count)
      requires cluster.cfg.Subscribes(cluster.g, e.eventType)
      requires q < |cluster.logs| && cluster.cfg.topicOf[q] == FailTopic(cluster.cfg, cluster.g, RecOf(msg.wire))
      modifies cluster
      ensures cluster.Valid() && cluster.position == old(cluster.position) && cluster.mine == old(cluster.mine)
      ensures r.Ok? && old(cluster.Resting(Some(msg.part))) ==> cluster.Resting(None)
      ensures r != Raised(BadHeader) && (!lost && !full(0) ==> r.Ok?)
      ensures r.Raised? ==> cluster.committed == old(cluster.committed) && cluster.logs == old(cluster.logs)
      ensures r.Ok? ==>
                && r.value == Exhausted(msg)
                && cluster.logs == old(cluster.logs)[q := old(cluster.logs)[q] + [Stamped(Some(e), count + 1)]]
                && cluster.committed == old(cluster.committed)[msg.part := msg.off + 1]
                && cluster.At(msg.part, Idle)
    {
      cluster.Plan(msg.part, msg.off, false, q);
      var attempt := count + 1;
      var produced := ProduceThenCommit(msg, q, Stamped(Some(e), attempt), full, lost);
      if produced.Raised? { return Raised(produced.error); }
      r := Ok(attempt >= cluster.cfg.groups[cluster.g].maxRetries);
    }

    /** Returns True when the event is given up: either there is nothing to fail, or
        it went to the dead-letter topic. When the produce raises, nothing was
        committed, so the message is redelivered after a restart. A retry header that
        is no number raises at once; the delivery is forgotten all the same. Only an
        event with receivers, one the group subscribed to, ever fails. */
    method Fail(e: Envelope, q: nat, full: nat -> bool, lost: bool) returns (r: Result<bool, Error>)
      requires cluster.Valid()
      requires e.eventId in pending ==> Failing(pending[e.eventId], e, q)
      modifies this, cluster
      ensures cluster.Valid() && pending == old(pending) - {e.eventId}
      ensures cluster.position == old(cluster.position) && cluster.mine == old(cluster.mine)
      ensures e.eventId !in old(pending) ==>
                r == Ok(true) && cluster.model == old(cluster.model) && cluster.committed == old(cluster.committed)
                && cluster.logs == old(cluster.logs)
      ensures r == Raised(BadHeader) <==>
                e.eventId in old(pending) && CountIn(old(pending)[e.eventId].wire.headers).Raised?
      ensures r.Raised? ==> cluster.committed == old(cluster.committed) && cluster.logs == old(cluster.logs)
      ensures r.Ok? && e.eventId in old(pending) ==>
                var msg := old(pending)[e.eventId];
                var attempt, max := CountIn(msg.wire.headers).value + 1, cluster.cfg.groups[cluster.g].maxRetries;
                && r.value == (attempt >= max)
                && cluster.cfg.topicOf[q] == (if attempt < max then cluster.cfg.Main(e.eventType) else cluster.cfg.Dlq(e.eventType))
                && cluster.logs == old(cluster.logs)[q := old(cluster.logs)[q] + [Stamped(Some(e), attempt)]]
                && cluster.committed == old(cluster.committed)[msg.part := msg.off + 1]
                && cluster.At(msg.part, Idle)
                && (old(cluster.Resting(Some(pending[e.eventId].part))) ==> cluster.Resting(None))
      ensures !lost && !full(0) && r != Raised(BadHeader) ==> r.Ok?
    {
      if e.eventId !in pending {
        return Ok(true);
      }
      var msg := pending[e.eventId];
      pending := pending - {e.eventId};
      var count := RetryCount(msg.wire.headers);
      if count.Raised? { return Raised(BadHeader); }
      r := PassOn(msg, e, count.value, q, full, lost);
    }

    /** msg is in hand and is e; q is the partition the producer will pick. */
    ghost predicate Failing(msg: Message, e: Envelope, q: nat)
      reads cluster
    {
      && cluster.Has(msg) && msg.wire.body == Some(e) && cluster.cfg.Subscribes(cluster.g, e.eventType)
      && (CountIn(msg.wire.headers).Ok? ==>
            q < |cluster.logs| && q < |cluster.cfg.topicOf|
            && cluster.cfg.topicOf[q] == FailTopic(cluster.cfg, cluster.g, RecOf(msg.wire)))
    }
  }

  ghost predicate Waiting(c: Cluster, e: Envelope, p: nat, o: nat)
    reads c
  {
    && p < |c.logs| == |c.committed| && c.cfg.IsMain(p, e.eventType)
    && c.committed[p] <= o < |c.logs[p]| && c.logs[p][o].body == Some(e)
  }

  ghost predicate Buried(c: Cluster, e: Envelope, p: nat, o: nat)
    reads c
  {
    p < |c.logs| && c.cfg.IsDlq(p, e.eventType) && o < |c.logs[p]| && c.logs[p][o].body == Some(e)
  }

  /** What conservation means for the code: in every state its methods can reach, an
      event published for a type this group subscribes to was dispatched with success,
      lies in the dead-letter topic, or has a copy at or above the committed offset. */
  lemma CodeConserves(c: Cluster, e: Envelope)
    requires c.Valid() && e in c.model.published && c.cfg.Subscribes(c.g, e.eventType)
    ensures || (c.g, e) in c.model.done
            || (exists p: nat, o: nat :: Buried(c, e, p, o))
            || (exists p: nat, o: nat :: Waiting(c, e, p, o))
  {
    if Live(c.cfg, c.model, c.g, e) {
      var p: nat, o: nat :| LiveAt(c.cfg, c.model, c.g, e, p, o);
      assert Agree(c.logs[p], c.model.logs[p]) && Known(c.model.cells[c.g][p], c.committed[p], c.position[p], p in c.mine);
      assert Waiting(c, e, p, o);
    } else if (c.g, e) in c.model.dead {
      assert InDlq(c.cfg, c.model, e);
      var p: nat, o: nat :| c.cfg.IsDlq(p, e.eventType) && p < |c.model.logs| && o < |c.model.logs[p]| && c.model.logs[p][o].body == Some(e);
      assert Agree(c.logs[p], c.model.logs[p]);
      assert Buried(c, e, p, o);
    }
  }

  // ----- the worker's loop

  /** Between two turns of the loop: nothing is pending and no partition has a message in hand. */
  ghost predicate BetweenTurns(broker: Broker)
    reads broker, broker.cluster
  {
    broker.cluster.Valid() && broker.cluster.Resting(None) && broker.pending == map[]
  }

  /** What happens while the receivers of one event run: events they publish, each to a main
      partition of its type, and steps of everybody else in between. */
  datatype Act = Publishes(p: nat, e: Envelope) | Others(f: Foreign)

  ghost predicate CanAct(cfg: Cfg, g: nat, mine: set<nat>, s: State, logs: seq<seq<Wire>>, acts: seq<Act>)
    decreases |acts|
  {
    acts == [] ||
    match acts[0]
    case Publishes(p, e) =>
      && Can(cfg, s, Step.Publish(p, e)) && p < |logs|
      && CanAct(cfg, g, mine, Do(cfg, s, Step.Publish(p, e)), logs[p := logs[p] + [Stamped(Some(e), 0)]], acts[1..])
    case Others(f) =>
      Happens(cfg, g, mine, s, logs, f) && CanAct(cfg, g, mine, Do(cfg, s, f.x), f.logs, acts[1..])
  }

  /** A new record of the partition is e, with a count of 0. */
  ghost predicate Landed(before: seq<seq<Wire>>, after: seq<seq<Wire>>, p: nat, e: Envelope) {
    p < |before| && p < |after| && exists o :: |before[p]| <= o < |after[p]| && after[p][o] == Stamped(Some(e), 0)
  }

  ghost predicate AllLanded(before: seq<seq<Wire>>, after: seq<seq<Wire>>, acts: seq<Act>) {
    forall i | 0 <= i < |acts| && acts[i].Publishes? :: Landed(before, after, acts[i].p, acts[i].e)
  }

  lemma LandedEarlier(was: seq<seq<Wire>>, before: seq<seq<Wire>>, after: seq<seq<Wire>>, p: nat, e: Envelope)
    requires Grew(was, before) && Landed(before, after, p, e)
    ensures Landed(was, after, p, e)
  {
    var o :| |before[p]| <= o < |after[p]| && after[p][o] == Stamped(Some(e), 0);
    assert was[p] <= before[p];
  }

  lemma LandedLater(before: seq<seq<Wire>>, after: seq<seq<Wire>>, later: seq<seq<Wire>>, p: nat, e: Envelope)
    requires Grew(after, later) && Landed(before, after, p, e)
    ensures Landed(before, later, p, e)
  {
    var o :| |before[p]| <= o < |after[p]| && after[p][o] == Stamped(Some(e), 0);
    assert after[p] <= later[p] && later[p][o] == after[p][o];
  }

  lemma AllLandedLater(before: seq<seq<Wire>>, after: seq<seq<Wire>>, later: seq<seq<Wire>>, acts: seq<Act>)
    requires Grew(after, later) && AllLanded(before, after, acts)
    ensures AllLanded(before, later, acts)
  {
    forall i | 0 <= i < |acts| && acts[i].Publishes? ensures Landed(before, later, acts[i].p, acts[i].e) {
      LandedLater(before, after, later, acts[i].p, acts[i].e);
    }
  }

  lemma OneMoreLanded(was: seq<seq<Wire>>, between: seq<seq<Wire>>, now: seq<seq<Wire>>, acts: seq<Act>)
    requires acts != [] && Grew(was, between) && Grew(between, now) && AllLanded(between, now, acts[1..])
    requires acts[0].Publishes? ==> Landed(was, between, acts[0].p, acts[0].e)
    ensures AllLanded(was, now, acts)
  {
    forall i | 0 <= i < |acts| && acts[i].Publishes? ensures Landed(was, now, acts[i].p, acts[i].e) {
      if i == 0 {
        LandedLater(was, between, now, acts[0].p, acts[0].e);
      } else {
        assert acts[1..][i - 1] == acts[i];
        LandedEarlier(was, between, now, acts[i].p, acts[i].e);
      }
    }
  }

  /** What landed in a log was published. */
  lemma LandedIsPublished(before: seq<seq<Wire>>, c: Cluster, p: nat, e: Envelope)
    requires c.Valid() && Landed(before, c.logs, p, e)
    ensures e in c.model.published
  {
    var o: nat :| |before[p]| <= o < |c.logs[p]| && c.logs[p][o] == Stamped(Some(e), 0);
    assert Agree(c.logs[p], c.model.logs[p]);
    assert RecOk(c.cfg, c.model, p, o);
  }

  method RunAct(c: Cluster, msg: Message, act: Act, ghost rest: seq<Act>)
    requires c.Valid() && c.Has(msg) && c.Resting(Some(msg.part)) && msg.part in c.mine
    requires CanAct(c.cfg, c.g, c.mine, c.model, c.logs, [act] + rest)
    modifies c
    ensures c.Valid() && c.Has(msg) && c.Resting(Some(msg.part)) && c.mine == old(c.mine)
    ensures Grew(old(c.logs), c.logs) && forall r | r in c.mine :: c.committed[r] == old(c.committed)[r]
    ensures CanAct(c.cfg, c.g, c.mine, c.model, c.logs, rest)
    ensures act.Publishes? ==> Landed(old(c.logs), c.logs, act.p, act.e)
  {
    assert ([act] + rest)[1..] == rest;
    match act
    case Publishes(p, e) =>
      ghost var o := |c.logs[p]|;
      c.Publish(p, e);
      assert c.logs[p][o] == Stamped(Some(e), 0);
    case Others(f) => c.Elsewhere(f);
  }

  /** The receivers are run while everybody else goes on; the delivery in hand stays what
      it is, and so do the offsets of this worker's partitions. */
  method RunReceivers(c: Cluster, msg: Message, acts: seq<Act>)
    requires c.Valid() && c.Has(msg) && c.Resting(Some(msg.part)) && msg.part in c.mine
    requires CanAct(c.cfg, c.g, c.mine, c.model, c.logs, acts)
    modifies c
    ensures c.Valid() && c.Has(msg) && c.Resting(Some(msg.part)) && c.mine == old(c.mine)
    ensures Grew(old(c.logs), c.logs) && forall r | r in c.mine :: c.committed[r] == old(c.committed)[r]
    ensures AllLanded(old(c.logs), c.logs, acts) && (acts == [] ==> c.logs == old(c.logs))
    decreases |acts|
  {
    if acts != [] {
      assert acts == [acts[0]] + acts[1..];
      RunAct(c, msg, acts[0], acts[1..]);
      ghost var between := c.logs;
      RunReceivers(c, msg, acts[1..]);
      GrewOn(old(c.logs), between, c.logs);
      OneMoreLanded(old(c.logs), between, c.logs, acts);
    }
  }

  /** The producer picks partition q, should this message fail. */
  ghost predicate Picks(c: Cluster, w: Wire, q: nat)
    reads c
  {
    w.body.Some? && CountIn(w.headers).Ok? ==>
      q < |c.cfg.topicOf| && c.g < |c.cfg.groups| && c.cfg.topicOf[q] == FailTopic(c.cfg, c.g, RecOf(w))
  }

  /** The dispatcher: the receivers are run, then the event is settled. An event raises only
      if it has receivers. */
  method DispatchOne(
      broker: Broker, e: Envelope, msg: Message, acts: seq<Act>, raises: bool, q: nat, full: nat -> bool, lost: bool)
    returns (r: Result<(), Error>)
    requires broker.cluster.Valid() && broker.cluster.Resting(Some(msg.part)) && broker.pending == map[e.eventId := msg]
    requires broker.cluster.Has(msg) && msg.part in broker.cluster.mine && msg.wire.body == Some(e)
    requires var c := broker.cluster;
             && CanAct(c.cfg, c.g, c.mine, c.model, c.logs, acts) && Picks(c, msg.wire, q)
             && (raises ==> c.cfg.Subscribes(c.g, e.eventType))
    modifies broker, broker.cluster
    ensures broker.cluster.Valid() && broker.pending == map[] && broker.cluster.mine == old(broker.cluster.mine)
    ensures TurnSettles(old(broker.cluster.logs), old(broker.cluster.committed), broker.cluster, msg, r)
    ensures EventSettles(broker.cluster, e, CountIn(msg.wire.headers), raises, q, r)
    ensures AllLanded(old(broker.cluster.logs), broker.cluster.logs, acts)
    ensures acts == [] && (!raises || r.Raised?) ==> broker.cluster.logs == old(broker.cluster.logs)
    ensures r == Raised(BadHeader) <==> raises && CountIn(msg.wire.headers).Raised?
    ensures !lost && !full(0) && r != Raised(BadHeader) ==> r.Ok?
  {
    var c := broker.cluster;
    RunReceivers(c, msg, acts);
    ghost var logs, committed := c.logs, c.committed;
    r := Settle(broker, e, msg, raises, q, full, lost);
    GrewOn(old(c.logs), logs, c.logs);
    AllLandedLater(old(c.logs), logs, c.logs, acts);
    SettledSince(old(c.logs), old(c.committed), logs, committed, c, msg, r);
  }

  /** ack() or fail(), depending on the receivers. */
  method Settle(broker: Broker, e: Envelope, msg: Message, raises: bool, q: nat, full: nat -> bool, lost: bool)
    returns (r: Result<(), Error>)
    requires broker.cluster.Valid() && broker.cluster.Resting(Some(msg.part)) && broker.pending == map[e.eventId := msg]
    requires broker.cluster.Has(msg) && msg.part in broker.cluster.mine && msg.wire.body == Some(e)
    requires Picks(broker.cluster, msg.wire, q)
    requires raises ==> broker.cluster.cfg.Subscribes(broker.cluster.g, e.eventType)
    modifies broker, broker.cluster
    ensures broker.cluster.Valid() && broker.pending == map[] && broker.cluster.mine == old(broker.cluster.mine)
    ensures TurnSettles(old(broker.cluster.logs), old(broker.cluster.committed), broker.cluster, msg, r)
    ensures EventSettles(broker.cluster, e, CountIn(msg.wire.headers), raises, q, r)
    ensures !raises || r.Raised? ==> broker.cluster.logs == old(broker.cluster.logs)
    ensures r == Raised(BadHeader) <==> raises && CountIn(msg.wire.headers).Raised?
    ensures !lost && !full(0) && r != Raised(BadHeader) ==> r.Ok?
  {
    if !raises {
      broker.Ack(e);
      r := Ok(());
    } else {
      var failed := broker.Fail(e, q, full, lost);
      r := if failed.Ok? then Ok(()) else Raised(failed.error);
    }
  }

  lemma SettledSince(
      was: seq<seq<Wire>>, offsets: seq<nat>, logs: seq<seq<Wire>>, committed: seq<nat>, c: Cluster, msg: Message,
      r: Result<(), Error>)
    requires Grew(was, logs) && TurnSettles(logs, committed, c, msg, r) && |offsets| == |committed|
    requires forall p: nat | p in c.mine && p < |offsets| :: committed[p] == offsets[p]
    ensures TurnSettles(was, offsets, c, msg, r)
  {
    GrewOn(was, logs, c.logs);
  }

  /** Without a raising receiver the event is done; with one its copy, counted once more, is
      the last record of a partition of the topic, or at the limit of the dead letters. */
  ghost predicate EventSettles(c: Cluster, e: Envelope, count: Result<int, Error>, raises: bool, q: nat, r: Result<(), Error>)
    reads c
  {
    r.Ok? ==>
      if !raises then (c.g, e) in c.model.done
      else
        && count.Ok? && c.g < |c.cfg.groups| && q < |c.cfg.topicOf| && q < |c.logs| && c.logs[q] != []
        && c.logs[q][|c.logs[q]| - 1] == Wire(Some(e), [Header(RETRY_HEADER, Bytes(Some(count.value + 1)))])
        && c.cfg.topicOf[q] == if count.value + 1 < c.cfg.groups[c.g].maxRetries then c.cfg.Main(e.eventType)
                               else c.cfg.Dlq(e.eventType)
  }

  /** The turn moved the offset behind the message, or raised and left it where it was. */
  ghost predicate TurnSettles(
      logs: seq<seq<Wire>>, committed: seq<nat>, c: Cluster, msg: Message, r: Result<(), Error>)
    reads c
  {
    && Grew(logs, c.logs) && |committed| == |c.committed| && (r.Ok? ==> c.Resting(None))
    && forall p: nat | p in c.mine && p < |committed| ::
         c.committed[p] == if r.Ok? && p == msg.part then msg.off + 1 else committed[p]
  }

  /** The machine right after poll() looked at partition p. */
  ghost function Polled(c: Cluster, p: nat): State
    reads c
  {
    if Can(c.cfg, c.model, Fetch(c.g, p)) then Do(c.cfg, c.model, Fetch(c.g, p)) else c.model
  }

  /** What Turn needs of its surroundings: receivers do what they can while others act, only
      an event with receivers raises, and the producer finds a partition. */
  ghost predicate TurnCan(c: Cluster, p: nat, acts: seq<Act>, raises: bool, q: nat)
    reads c
  {
    p < |c.position| && p < |c.logs| &&
    var o := c.position[p];
    o < |c.logs[p]| && c.logs[p][o].body.Some? ==>
      && CanAct(c.cfg, c.g, c.mine, Polled(c, p), c.logs, acts) && Picks(c, c.logs[p][o], q)
      && (raises ==> c.cfg.Subscribes(c.g, c.logs[p][o].body.value.eventType))
  }

  /** One turn on partition p: poll, run the receivers, settle. It starts from any state
      between turns, whatever the logs hold, copies of one event included, and ends
      between turns again unless fail() raised. q is the partition the producer picks for
      that. Fetching one at a time is not assumed. */
  method Turn(broker: Broker, p: nat, acts: seq<Act>, raises: bool, q: nat, full: nat -> bool, lost: bool)
    returns (r: Result<(), Error>)
    requires BetweenTurns(broker) && p in broker.cluster.mine && TurnCan(broker.cluster, p, acts, raises, q)
    modifies broker, broker.cluster
    ensures broker.cluster.Valid() && broker.pending == map[] && broker.cluster.mine == old(broker.cluster.mine)
    ensures r.Ok? ==> BetweenTurns(broker)
    ensures var o := old(broker.cluster.position[p]);
            if o == |old(broker.cluster.logs[p])| then
              && r == Ok(()) && broker.cluster.logs == old(broker.cluster.logs)
              && broker.cluster.committed == old(broker.cluster.committed)
            else
              var msg := Message(p, o, old(broker.cluster.logs[p])[o]);
              && TurnSettles(old(broker.cluster.logs), old(broker.cluster.committed), broker.cluster, msg, r)
              && (msg.wire.body.Some? ==>
                    && EventSettles(broker.cluster, msg.wire.body.value, CountIn(msg.wire.headers), raises, q, r)
                    && forall i | 0 <= i < |acts| && acts[i].Publishes? ::
                         && Landed(old(broker.cluster.logs), broker.cluster.logs, acts[i].p, acts[i].e)
                         && acts[i].e in broker.cluster.model.published)
              && (acts == [] && (!raises || r.Raised? || msg.wire.body.None?) ==>
                    broker.cluster.logs == old(broker.cluster.logs))
              && (r == Raised(BadHeader) <==> msg.wire.body.Some? && raises && CountIn(msg.wire.headers).Raised?)
    ensures !lost && !full(0) && r != Raised(BadHeader) ==> r.Ok?
  {
    var c := broker.cluster;
    var polled := c.Poll(p);
    if polled.None? { return Ok(()); }
    var msg := polled.value;
    AtMessage(c, msg);
    var got := broker.ToEnvelope(msg);
    if got.None? { return Ok(()); }
    r := DispatchOne(broker, got.value, msg, acts, raises, q, full, lost);
    forall i | 0 <= i < |acts| && acts[i].Publishes? ensures acts[i].e in c.model.published {
      LandedIsPublished(old(c.logs), c, acts[i].p, acts[i].e);
    }
  }

  lemma AtMessage(c: Cluster, msg: Message)
    requires c.Valid() && msg.part in c.mine && msg.off < |c.logs[msg.part]| && c.logs[msg.part][msg.off] == msg.wire
    requires var phase := c.model.cells[c.g][msg.part].phase;
             phase == if c.model.logs[msg.part][msg.off].body.Some? then Held(msg.off)
                      else Settling(msg.off, AckCmds(msg.part, msg.off))
    ensures if msg.wire.body.Some? then c.At(msg.part, Held(msg.off))
            else c.At(msg.part, Settling(msg.off, AckCmds(msg.part, msg.off)))
  {
    assert Agree(c.logs[msg.part], c.model.logs[msg.part]);
    assert HasCell(c.cfg, c.model, c.g, msg.part);
  }

  /** A worker that raised or was killed, whatever it was doing, is gone: what it held is
      at or above the committed offsets, from which the next one starts. */
  method Restart(broker: Broker)
    requires broker.cluster.Valid()
    modifies broker, broker.cluster
    ensures BetweenTurns(broker) && broker.cluster.mine == {}
    ensures forall p | p in old(broker.cluster.mine) :: broker.cluster.Free(p)
    ensures broker.cluster.logs == old(broker.cluster.logs) && broker.cluster.committed == old(broker.cluster.committed)
  {
    broker.pending := map[];
    broker.cluster.Stop();
  }

  /** At the committed offset of partition p, which nobody reads now, lies a message of a
      subscribed type whose retry header is no number. */
  ghost predicate Stuck(c: Cluster, msg: Message)
    reads c
  {
    && c.Free(msg.part) && c.cfg.Assignable(c.g, msg.part)
    && msg.part < |c.logs| && msg.part < |c.committed| && c.committed[msg.part] == msg.off < |c.logs[msg.part]|
    && c.logs[msg.part][msg.off] == msg.wire && CountIn(msg.wire.headers).Raised?
    && msg.wire.body.Some? && c.cfg.Subscribes(c.g, msg.wire.body.value.eventType)
  }

  /** Such a message, if its receivers raise, is dispatched by every worker started on the
      partition and stops each of them: nothing is written, and the offset never moves. */
  method Blocked(broker: Broker, msg: Message, q: nat, full: nat -> bool, lost: bool, workers: nat)
    returns (outcomes: seq<Result<(), Error>>)
    requires BetweenTurns(broker) && broker.cluster.mine == {} && Stuck(broker.cluster, msg)
    modifies broker, broker.cluster
    ensures BetweenTurns(broker) && broker.cluster.mine == {} && Stuck(broker.cluster, msg)
    ensures outcomes == seq(workers, _ => Raised(BadHeader))
  {
    var c := broker.cluster;
    outcomes := [];
    for i := 0 to workers
      invariant BetweenTurns(broker) && c.mine == {} && Stuck(c, msg)
      invariant |outcomes| == i && forall k | 0 <= k < i :: outcomes[k] == Raised(BadHeader)
    {
      var outcome := BlockedOnce(broker, msg, q, full, lost);
      outcomes := outcomes + [outcome];
    }
  }

  method BlockedOnce(broker: Broker, msg: Message, q: nat, full: nat -> bool, lost: bool) returns (r: Result<(), Error>)
    requires BetweenTurns(broker) && broker.cluster.mine == {} && Stuck(broker.cluster, msg)
    modifies broker, broker.cluster
    ensures BetweenTurns(broker) && broker.cluster.mine == {} && Stuck(broker.cluster, msg)
    ensures r == Raised(BadHeader)
  {
    var c, p := broker.cluster, msg.part;
    c.Assign(p);
    r := Turn(broker, p, [], true, q, full, lost);
    Restart(broker);
  }

  /** One group, one main and one dead-letter partition, as listen() creates them. */
  ghost predicate Alone(broker: Broker, eventType: string)
    reads broker, broker.cluster
  {
    var c := broker.cluster;
    && c.Valid() && broker.pending == map[] && c.g == 0 && |c.cfg.groups| == 1
    && c.cfg.topicOf == [c.cfg.Main(eventType), c.cfg.Dlq(eventType)]
    && c.At(0, Idle)
  }

  /** The generator is resumed: poll the next copy of e and yield it. */
  method TakeNext(broker: Broker, e: Envelope, n: nat) returns (msg: Message)
    requires Alone(broker, e.eventType)
    requires var c := broker.cluster;
             c.position[0] == |c.logs[0]| - 1 && c.logs[0][c.position[0]] == Stamped(Some(e), n)
    modifies broker, broker.cluster
    ensures var c := broker.cluster;
            && c.Valid() && broker.pending == map[e.eventId := msg] && broker.cluster.Has(msg)
            && msg == Message(0, old(c.position[0]), Stamped(Some(e), n))
            && c.position[0] == old(c.position[0]) + 1
            && c.logs == old(c.logs)
  {
    var c := broker.cluster;
    var r := c.Poll(0);
    msg := r.value;
    assert CountIn(Stamped(Some(e), n).headers) == Ok(n);
    assert Agree(c.logs[0], c.model.logs[0]);
    var yielded := broker.ToEnvelope(msg);
  }

  lemma OwnerSubscribes(c: Cluster, eventType: string)
    requires c.Valid() && c.cfg.IsMain(0, eventType) && HasCell(c.cfg, c.model, c.g, 0) && c.model.cells[c.g][0].owned
    ensures c.cfg.Subscribes(c.g, eventType)
  {
    assert CellOk(c.cfg, c.model, c.g, 0);
    var u: string :| c.cfg.Subscribes(c.g, u) && c.cfg.IsMain(0, u);
    DlqTopicIsMainTopicIff(c.cfg, u, eventType);
  }

  /** The dispatch of the copy in hand failed. */
  method FailOne(broker: Broker, e: Envelope, n: nat, msg: Message)
    requires var c := broker.cluster;
             && c.Valid() && broker.pending == map[e.eventId := msg] && broker.cluster.Has(msg)
             && c.g == 0 && |c.cfg.groups| == 1
             && c.cfg.topicOf == [c.cfg.Main(e.eventType), c.cfg.Dlq(e.eventType)]
             && msg == Message(0, msg.off, Stamped(Some(e), n)) && c.position[0] == msg.off + 1
    modifies broker, broker.cluster
    ensures Alone(broker, e.eventType)
    ensures var c := broker.cluster;
            var retried := n + 1 < c.cfg.groups[0].maxRetries;
            && c.position[0] == old(c.position[0]) == c.committed[0]
            && c.logs[0] == old(c.logs[0]) + (if retried then [Stamped(Some(e), n + 1)] else [])
            && c.logs[1] == old(c.logs[1]) + (if retried then [] else [Stamped(Some(e), n + 1)])
  {
    var c := broker.cluster;
    assert CountIn(msg.wire.headers) == Ok(n);
    OwnerSubscribes(c, e.eventType);
    var q := if n + 1 < c.cfg.groups[0].maxRetries then 0 else 1;
    var failed := broker.Fail(e, q, _ => false, false);
  }

  /** Poll the next copy of e, dispatch it, and settle it. */
  method ServeOne(broker: Broker, e: Envelope, n: nat, ok: bool)
    requires Alone(broker, e.eventType)
    requires var c := broker.cluster;
             c.position[0] == |c.logs[0]| - 1 && c.logs[0][c.position[0]] == Stamped(Some(e), n)
    modifies broker, broker.cluster
    ensures Alone(broker, e.eventType)
    ensures var c := broker.cluster;
            var retried := !ok && n + 1 < c.cfg.groups[0].maxRetries;
            && c.position[0] == old(c.position[0]) + 1 == c.committed[0]
            && c.logs[0] == old(c.logs[0]) + (if retried then [Stamped(Some(e), n + 1)] else [])
            && c.logs[1] == old(c.logs[1]) + (if ok || retried then [] else [Stamped(Some(e), n + 1)])
  {
    var c := broker.cluster;
    var msg := TakeNext(broker, e, n);
    if ok {
      broker.Ack(e);
    } else {
      FailOne(broker, e, n, msg);
    }
  }

  /** One worker, one subscribed group, no crash: an event whose handlers fail the
      first j times, from its publication until nothing is left of it. */
  method Drive(broker: Broker, e: Envelope, j: nat) returns (attempts: nat)
    requires Alone(broker, e.eventType)
    requires broker.cluster.logs[0] == [] && broker.cluster.logs[1] == [] && broker.cluster.position[0] == 0
    modifies broker, broker.cluster
    ensures Alone(broker, e.eventType)
    ensures var c, max := broker.cluster, broker.cluster.cfg.groups[0].maxRetries;
            && attempts == (if j < max then j + 1 else if max < 1 then 1 else max) == Dispatched(j, max)
            && |c.logs[1]| == (if j < max || j == 0 then 0 else 1) == DeadLettered(j, max)
            && c.committed[0] == |c.logs[0]| == attempts
  {
    var c := broker.cluster;
    var max := c.cfg.groups[0].maxRetries;
    attempts := 0;
    var published := broker.Publish(e, 0, _ => false, false);
    while c.position[0] < |c.logs[0]|
      invariant Alone(broker, e.eventType)
      invariant attempts == c.position[0] <= |c.logs[0]|
      invariant attempts > 0 ==> c.committed[0] == attempts
      invariant attempts < |c.logs[0]| ==>
                  && |c.logs[0]| == attempts + 1 && c.logs[0][attempts] == Stamped(Some(e), attempts)
                  && |c.logs[1]| == 0 && attempts < Dispatched(j, max)
      invariant attempts == |c.logs[0]| ==>
                  attempts == Dispatched(j, max) && |c.logs[1]| == DeadLettered(j, max)
      decreases Dispatched(j, max) - attempts
    {
      ServeOne(broker, e, attempts, j <= attempts);
      attempts := attempts + 1;
    }
  }
}
