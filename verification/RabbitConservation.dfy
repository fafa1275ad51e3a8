/** Nothing published to a declared RabbitMQ service is lost, and every run is, for
    each service, a run of the abstract at-least-once bus. */
module RabbitConservation {
  import opened Wrappers
  import opened Events
  import opened Counters
  import opened Sums
  import opened RabbitMachine
  import Alo = AtLeastOnce

  ghost predicate InQueue(copies: seq<Copy>, e: Envelope) {
    exists i: nat :: i < |copies| && copies[i].body == Some(e)
  }

  ghost predicate InFlight(flights: seq<Flight>, e: Envelope) {
    exists i: nat :: i < |flights| && flights[i].copy.body == Some(e)
  }

  ghost predicate Retrying(svcs: seq<Svc>, t: nat, e: Envelope) {
    t < |svcs| && InQueue(svcs[t].retry, e)
  }

  /** Service svc will still see e: in its main queue, unacked, or in some retry queue. */
  ghost predicate Live(svcs: seq<Svc>, svc: nat, e: Envelope) {
    && svc < |svcs|
    && (InQueue(svcs[svc].ready, e) || InFlight(svcs[svc].flights, e) || exists t: nat :: Retrying(svcs, t, e))
  }

  ghost predicate Settled(s: State, svc: nat, e: Envelope) {
    (svc, e) in s.done || (svc, e) in s.dead
  }

  /** Rejections of a copy by any service stay below that service's MAX_RETRIES. */
  ghost predicate Budgeted(cfg: Cfg, c: Copy) {
    forall t: nat | t < |cfg.maxRetries| :: Rejections(c, t) < Tries(cfg.maxRetries[t])
  }

  /** A copy in a queue of svc: within budget, and known to have reached svc. */
  ghost predicate CopyOk(cfg: Cfg, s: State, svc: nat, c: Copy) {
    Budgeted(cfg, c) && (c.body.Some? ==> (svc, c.body.value) in s.reached)
  }

  ghost predicate FlightOk(cfg: Cfg, s: State, svc: nat, f: Flight)
    requires svc < |cfg.maxRetries|
  {
    && CopyOk(cfg, s, svc, f.copy)
    && match f.phase
       case Prefetched => true
       case Held => f.copy.body.Some?
       case Settling(todo) =>
         || (todo == [Ack] && (f.copy.body.Some? ==> Settled(s, svc, f.copy.body.value)))
         || (todo == FailCmds(cfg, svc, f.copy) && f.copy.body.Some? && (svc, f.copy.body.value) in s.failed)
  }

  ghost predicate SvcOk(cfg: Cfg, s: State, svc: nat)
    requires svc < |s.svcs| == |cfg.maxRetries|
  {
    var v := s.svcs[svc];
    && (!v.declared ==> v == Svc(false, [], [], [], []))
    && (forall c | c in v.ready :: CopyOk(cfg, s, svc, c))
    && (forall c | c in v.retry :: CopyOk(cfg, s, svc, c))
    && (forall f | f in v.flights :: FlightOk(cfg, s, svc, f))
  }

  ghost predicate Inv(cfg: Cfg, s: State) {
    && |s.svcs| == |cfg.maxRetries|
    && (forall svc: nat | svc < |s.svcs| :: SvcOk(cfg, s, svc))
    && (forall svc: nat, e | (svc, e) in s.reached ::
          svc < |s.svcs| && s.svcs[svc].declared && (Settled(s, svc, e) || Live(s.svcs, svc, e)))
    && (forall svc: nat, e | (svc, e) in s.dead ::
          svc < |s.svcs| && s.svcs[svc].declared && e in s.svcs[svc].dlq)
    && (forall svc: nat, e | Settled(s, svc, e) || (svc, e) in s.failed :: (svc, e) in s.reached)
    && (forall o | o in s.orphans :: o.0 < |s.svcs| && FlightOk(cfg, s, o.0, o.1))
  }

  // ----- copies under the elementary moves of a service

  /** Nothing of b is missing in a, as far as e is concerned. */
  ghost predicate Keeps(a: Svc, b: Svc, e: Envelope) {
    && (InQueue(b.ready, e) || InFlight(b.flights, e) ==> InQueue(a.ready, e) || InFlight(a.flights, e))
    && (InQueue(b.retry, e) ==> InQueue(a.retry, e))
  }

  lemma KeepsLive(a: seq<Svc>, b: seq<Svc>, svc: nat, e: Envelope)
    requires |a| == |b| && forall j: nat | j < |b| :: Keeps(a[j], b[j], e)
    requires Live(b, svc, e)
    ensures Live(a, svc, e)
  {
    if exists t: nat :: Retrying(b, t, e) {
      var t: nat :| Retrying(b, t, e);
      assert Keeps(a[t], b[t], e);
      assert Retrying(a, t, e);
    } else {
      assert Keeps(a[svc], b[svc], e);
    }
  }

  lemma InQueueAppend(copies: seq<Copy>, c: Copy, e: Envelope)
    ensures InQueue(copies + [c], e) <==> InQueue(copies, e) || c.body == Some(e)
  {
    if InQueue(copies, e) {
      var i: nat :| i < |copies| && copies[i].body == Some(e);
      assert (copies + [c])[i].body == Some(e);
    }
    if c.body == Some(e) { assert (copies + [c])[|copies|].body == Some(e); }
  }

  lemma InQueueWithout(copies: seq<Copy>, i: nat, e: Envelope)
    requires i < |copies|
    ensures InQueue(copies, e) <==> InQueue(Without(copies, i), e) || copies[i].body == Some(e)
  {
    var rest := Without(copies, i);
    if InQueue(copies, e) {
      var k: nat :| k < |copies| && copies[k].body == Some(e);
      if k != i { assert rest[if k < i then k else k - 1] == copies[k]; }
    }
    if InQueue(rest, e) {
      var k: nat :| k < |rest| && rest[k].body == Some(e);
      assert rest[k] == copies[if k < i then k else k + 1];
    }
  }

  lemma InFlightWithout(flights: seq<Flight>, i: nat, e: Envelope)
    requires i < |flights|
    ensures InFlight(flights, e) <==> InFlight(Without(flights, i), e) || flights[i].copy.body == Some(e)
  {
    var rest := Without(flights, i);
    if InFlight(flights, e) {
      var k: nat :| k < |flights| && flights[k].copy.body == Some(e);
      if k != i { assert rest[if k < i then k else k - 1] == flights[k]; }
    }
    if InFlight(rest, e) {
      var k: nat :| k < |rest| && rest[k].copy.body == Some(e);
      assert rest[k] == flights[if k < i then k else k + 1];
    }
  }

  lemma InFlightAppend(flights: seq<Flight>, f: Flight, e: Envelope)
    ensures InFlight(flights + [f], e) <==> InFlight(flights, e) || f.copy.body == Some(e)
  {
    if InFlight(flights, e) {
      var i: nat :| i < |flights| && flights[i].copy.body == Some(e);
      assert (flights + [f])[i].copy.body == Some(e);
    }
    if f.copy.body == Some(e) { assert (flights + [f])[|flights|].copy.body == Some(e); }
  }

  lemma InFlightPhase(flights: seq<Flight>, i: nat, phase: Phase, e: Envelope)
    requires i < |flights|
    ensures InFlight(flights[i := flights[i].(phase := phase)], e) <==> InFlight(flights, e)
  {
    var g := flights[i := flights[i].(phase := phase)];
    assert forall k: nat | k < |flights| :: g[k].copy == flights[k].copy;
    if InFlight(flights, e) {
      var k: nat :| k < |flights| && flights[k].copy.body == Some(e);
      assert g[k].copy.body == Some(e);
    }
  }

  // ----- what each step does to the live copies of e

  /** The event whose flight the step removes, if it removes one for good. */
  ghost predicate Removes(s: State, step: Step, svc: nat, e: Envelope) {
    && step.Exec? && step.svc == svc && HasFlight(s, svc, step.i)
    && var f := s.svcs[svc].flights[step.i];
       f.phase == Settling([Ack]) && f.copy.body == Some(e)
  }

  ghost predicate Spreads(s: State, step: Step, e: Envelope) {
    || (step.Publish? && step.e == e)
    || (step.Exec? && HasFlight(s, step.svc, step.i)
        && var f := s.svcs[step.svc].flights[step.i];
           f.phase.Settling? && f.phase.todo != [] && f.phase.todo[0] == Nack && f.copy.body == Some(e))
  }

  lemma LiveKept(cfg: Cfg, s: State, step: Step, svc: nat, e: Envelope)
    requires Inv(cfg, s) && Can(cfg, s, step) && Live(s.svcs, svc, e) && s.svcs[svc].declared
    requires !Removes(s, step, svc, e)
    ensures Live(Do(cfg, s, step).svcs, svc, e)
  {
    var t := Do(cfg, s, step).svcs;
    match step
    case Declare(k) => assert t[k].ready == s.svcs[k].ready; KeepsLive(t, s.svcs, svc, e);
    case Publish(e2) => MainKeeps(s.svcs, Copy(Some(e2), []), e); KeepsLive(t, s.svcs, svc, e);
    case Garbage => MainKeeps(s.svcs, Copy(None, []), e); KeepsLive(t, s.svcs, svc, e);
    case Deliver(k, i) =>
      InQueueWithout(s.svcs[k].ready, i, e);
      InFlightAppend(s.svcs[k].flights, Flight(s.svcs[k].ready[i], Prefetched), e);
      KeepsLive(t, s.svcs, svc, e);
    case Take(k, i) => InFlightPhase(s.svcs[k].flights, i, t[k].flights[i].phase, e); KeepsLive(t, s.svcs, svc, e);
    case Dispatch(k, i, ok) =>
      InFlightPhase(s.svcs[k].flights, i, t[k].flights[i].phase, e);
      KeepsLive(t, s.svcs, svc, e);
    case Exec(k, i) => ExecKeepsLive(cfg, s, k, i, svc, e);
    case Requeue(k, i) =>
      InFlightWithout(s.svcs[k].flights, i, e);
      InQueueAppend(s.svcs[k].ready, s.svcs[k].flights[i].copy, e);
      KeepsLive(t, s.svcs, svc, e);
    case LateDispatch(_, _, _) =>
    case LateBury(_, _) => KeepsLive(t, s.svcs, svc, e);
    case Expire(k, i) => ExpireKeepsLive(cfg, s, k, i, svc, e);
  }

  lemma ExpireKeepsLive(cfg: Cfg, s: State, k: nat, i: nat, svc: nat, e: Envelope)
    requires Inv(cfg, s) && Can(cfg, s, Expire(k, i)) && Live(s.svcs, svc, e) && s.svcs[svc].declared
    ensures Live(Do(cfg, s, Expire(k, i)).svcs, svc, e)
  {
    var t, v := Do(cfg, s, Expire(k, i)).svcs, s.svcs[k];
    var mid := s.svcs[k := v.(retry := Without(v.retry, i))];
    MainKeeps(mid, Bump(v.retry[i], RetryQ(k), Expired), e);
    if v.retry[i].body == Some(e) {
      InQueueAppend(mid[svc].ready, Bump(v.retry[i], RetryQ(k), Expired), e);
    } else {
      InQueueWithout(v.retry, i, e);
      KeepsLive(mid, s.svcs, svc, e);
      KeepsLive(t, mid, svc, e);
    }
  }

  lemma ExecKeepsLive(cfg: Cfg, s: State, k: nat, i: nat, svc: nat, e: Envelope)
    requires Inv(cfg, s) && Can(cfg, s, Exec(k, i)) && Live(s.svcs, svc, e) && s.svcs[svc].declared
    requires !Removes(s, Exec(k, i), svc, e)
    ensures Live(Do(cfg, s, Exec(k, i)).svcs, svc, e)
  {
    var f, t := s.svcs[k].flights[i], Do(cfg, s, Exec(k, i)).svcs;
    assert SvcOk(cfg, s, k) && FlightOk(cfg, s, k, f);
    InFlightWithout(s.svcs[k].flights, i, e);
    match f.phase.todo[0]
    case Ack => DropKeeps(s.svcs, k, i, svc, e);
    case Nack =>
      var mid := DropFlight(s.svcs, k, i);
      var c := Bump(f.copy, MainQ(k), Rejected);
      RetryKeeps(mid, c, e);
      if f.copy.body == Some(e) {
        InQueueAppend(mid[svc].retry, c, e);
        assert Retrying(t, svc, e);
      } else {
        DropKeeps(s.svcs, k, i, svc, e);
        KeepsLive(t, mid, svc, e);
      }
    case Bury =>
      InFlightPhase(s.svcs[k].flights, i, Settling(f.phase.todo[1..]), e);
      KeepsLive(t, s.svcs, svc, e);
  }

  lemma DropKeeps(svcs: seq<Svc>, k: nat, i: nat, svc: nat, e: Envelope)
    requires k < |svcs| && i < |svcs[k].flights| && Live(svcs, svc, e)
    requires k == svc ==> svcs[k].flights[i].copy.body != Some(e)
    ensures Live(DropFlight(svcs, k, i), svc, e)
  {
    InFlightWithout(svcs[k].flights, i, e);
    if exists t: nat :: Retrying(svcs, t, e) {
      var t: nat :| Retrying(svcs, t, e);
      assert Retrying(DropFlight(svcs, k, i), t, e);
    }
  }

  lemma MainKeeps(svcs: seq<Svc>, c: Copy, e: Envelope)
    ensures forall j: nat | j < |svcs| :: Keeps(ToMain(svcs, c)[j], svcs[j], e)
  {
    forall j: nat | j < |svcs| ensures Keeps(ToMain(svcs, c)[j], svcs[j], e) {
      InQueueAppend(svcs[j].ready, c, e);
    }
  }

  lemma RetryKeeps(svcs: seq<Svc>, c: Copy, e: Envelope)
    ensures forall j: nat | j < |svcs| :: Keeps(ToRetry(svcs, c)[j], svcs[j], e)
  {
    forall j: nat | j < |svcs| ensures Keeps(ToRetry(svcs, c)[j], svcs[j], e) {
      InQueueAppend(svcs[j].retry, c, e);
    }
  }

  // ----- the invariant

  lemma BumpBudgeted(cfg: Cfg, c: Copy, q: Queue, r: Reason)
    requires Budgeted(cfg, c)
    requires q.MainQ? && r == Rejected ==> q.svc < |cfg.maxRetries| && Retries(cfg, q.svc, c)
    ensures Budgeted(cfg, Bump(c, q, r))
  {
    forall t: nat | t < |cfg.maxRetries| ensures Rejections(Bump(c, q, r), t) < Tries(cfg.maxRetries[t]) {
      BumpCounts(c, q, r, MainQ(t), Rejected);
      assert Rejections(c, t) < Tries(cfg.maxRetries[t]);
    }
  }

  lemma FreshBudgeted(cfg: Cfg, body: Option<Envelope>)
    ensures Budgeted(cfg, Copy(body, []))
  {
    assert forall t: nat :: Rejections(Copy(body, []), t) == 0;
  }

  /** Growing reached, done and dead keeps what was said about a copy or a flight. */
  ghost predicate Grows(s: State, t: State) {
    s.reached <= t.reached && s.done <= t.done && s.failed <= t.failed && s.dead <= t.dead
  }

  /** The service list of t differs from that of s in nothing but what is listed. */
  lemma SvcGrows(cfg: Cfg, s: State, t: State, svc: nat)
    requires svc < |s.svcs| == |cfg.maxRetries| == |t.svcs| && SvcOk(cfg, s, svc) && Grows(s, t)
    requires var v, w := s.svcs[svc], t.svcs[svc];
             && (!w.declared ==> w == v)
             && (forall c | c in w.ready :: c in v.ready || CopyOk(cfg, t, svc, c))
             && (forall c | c in w.retry :: c in v.retry || CopyOk(cfg, t, svc, c))
             && (forall f | f in w.flights :: f in v.flights || FlightOk(cfg, t, svc, f))
    ensures SvcOk(cfg, t, svc)
  {
    var v, w := s.svcs[svc], t.svcs[svc];
    forall f | f in w.flights ensures FlightOk(cfg, t, svc, f) {
      if f in v.flights { assert FlightOk(cfg, s, svc, f); }
    }
  }

  lemma SvcKept(cfg: Cfg, s: State, step: Step, svc: nat)
    requires Inv(cfg, s) && Can(cfg, s, step) && svc < |s.svcs|
    ensures |Do(cfg, s, step).svcs| == |cfg.maxRetries| && SvcOk(cfg, Do(cfg, s, step), svc)
  {
    var t := Do(cfg, s, step);
    assert SvcOk(cfg, s, svc);
    match step
    case Declare(k) => SvcGrows(cfg, s, t, svc);
    case Publish(e) => FreshBudgeted(cfg, Some(e)); SvcGrows(cfg, s, t, svc);
    case Garbage => FreshBudgeted(cfg, None); SvcGrows(cfg, s, t, svc);
    case Exec(k, i) => SvcKeptExec(cfg, s, k, i, svc);
    case Expire(k, i) => SvcKeptExpire(cfg, s, k, i, svc);
    case Deliver(k, i) =>
      assert SvcOk(cfg, s, k) && CopyOk(cfg, s, k, s.svcs[k].ready[i]);
      SvcGrows(cfg, s, t, svc);
    case Requeue(k, i) =>
      assert SvcOk(cfg, s, k) && FlightOk(cfg, s, k, s.svcs[k].flights[i]);
      SvcGrows(cfg, s, t, svc);
    case LateDispatch(_, _, _) => SvcGrows(cfg, s, t, svc);
    case LateBury(_, _) => SvcGrows(cfg, s, t, svc);
    case _ =>
      assert SvcOk(cfg, s, step.svc) && FlightOk(cfg, s, step.svc, s.svcs[step.svc].flights[step.i]);
      SvcGrows(cfg, s, t, svc);
  }

  lemma SvcKeptExpire(cfg: Cfg, s: State, k: nat, i: nat, svc: nat)
    requires Inv(cfg, s) && Can(cfg, s, Expire(k, i)) && svc < |s.svcs|
    ensures |Do(cfg, s, Expire(k, i)).svcs| == |cfg.maxRetries| && SvcOk(cfg, Do(cfg, s, Expire(k, i)), svc)
  {
    assert SvcOk(cfg, s, svc) && SvcOk(cfg, s, k) && CopyOk(cfg, s, k, s.svcs[k].retry[i]);
    BumpBudgeted(cfg, s.svcs[k].retry[i], RetryQ(k), Expired);
    SvcGrows(cfg, s, Do(cfg, s, Expire(k, i)), svc);
  }

  lemma SvcKeptExec(cfg: Cfg, s: State, k: nat, i: nat, svc: nat)
    requires Inv(cfg, s) && Can(cfg, s, Exec(k, i)) && svc < |s.svcs|
    ensures |Do(cfg, s, Exec(k, i)).svcs| == |cfg.maxRetries| && SvcOk(cfg, Do(cfg, s, Exec(k, i)), svc)
  {
    var t, f := Do(cfg, s, Exec(k, i)), s.svcs[k].flights[i];
    assert SvcOk(cfg, s, k) && SvcOk(cfg, s, svc) && FlightOk(cfg, s, k, f);
    if f.phase.todo[0] == Nack { BumpBudgeted(cfg, f.copy, MainQ(k), Rejected); }
    SvcGrows(cfg, s, t, svc);
  }

  lemma NewlyReached(cfg: Cfg, s: State, step: Step, svc: nat, e: Envelope)
    requires Inv(cfg, s) && Can(cfg, s, step) && (svc, e) !in s.reached && (svc, e) in Do(cfg, s, step).reached
    ensures var t := Do(cfg, s, step);
            svc < |t.svcs| && t.svcs[svc].declared && Live(t.svcs, svc, e)
  {
    var t := Do(cfg, s, step);
    match step
    case Publish(_) => InQueueAppend(s.svcs[svc].ready, Copy(Some(e), []), e);
    case Exec(k, i) =>
      var mid := DropFlight(s.svcs, k, i);
      InQueueAppend(mid[svc].retry, Bump(s.svcs[k].flights[i].copy, MainQ(k), Rejected), e);
      assert Retrying(t.svcs, svc, e);
    case Expire(k, i) =>
      InQueueAppend(s.svcs[svc].ready, Bump(s.svcs[k].retry[i], RetryQ(k), Expired), e);
    case _ =>
  }

  lemma AccountedKept(cfg: Cfg, s: State, step: Step, svc: nat, e: Envelope)
    requires Inv(cfg, s) && Can(cfg, s, step) && (svc, e) in Do(cfg, s, step).reached
    ensures var t := Do(cfg, s, step);
            svc < |t.svcs| && t.svcs[svc].declared && (Settled(t, svc, e) || Live(t.svcs, svc, e))
  {
    var t := Do(cfg, s, step);
    if (svc, e) !in s.reached {
      NewlyReached(cfg, s, step, svc, e);
    } else if Removes(s, step, svc, e) {
      var f := s.svcs[svc].flights[step.i];
      assert SvcOk(cfg, s, svc) && FlightOk(cfg, s, svc, f);
    } else if !Settled(s, svc, e) {
      LiveKept(cfg, s, step, svc, e);
    }
  }

  lemma OrphansKept(cfg: Cfg, s: State, step: Step, o: (nat, Flight))
    requires Inv(cfg, s) && Can(cfg, s, step) && o in Do(cfg, s, step).orphans
    ensures o.0 < |s.svcs| && FlightOk(cfg, Do(cfg, s, step), o.0, o.1)
  {
    if o !in s.orphans && step.Requeue? {
      assert SvcOk(cfg, s, step.svc) && FlightOk(cfg, s, step.svc, s.svcs[step.svc].flights[step.i]);
    } else if o !in s.orphans {
      assert FlightOk(cfg, s, step.svc, step.f);
    } else {
      assert FlightOk(cfg, s, o.0, o.1);
    }
  }

  lemma StepKeepsInv(cfg: Cfg, s: State, step: Step)
    requires Inv(cfg, s) && Can(cfg, s, step)
    ensures Inv(cfg, Do(cfg, s, step))
  {
    var t := Do(cfg, s, step);
    assert |t.svcs| == |s.svcs|;
    forall svc: nat | svc < |t.svcs| ensures SvcOk(cfg, t, svc) { SvcKept(cfg, s, step, svc); }
    forall svc: nat, e | (svc, e) in t.reached
      ensures svc < |t.svcs| && t.svcs[svc].declared && (Settled(t, svc, e) || Live(t.svcs, svc, e))
    {
      AccountedKept(cfg, s, step, svc, e);
    }
    forall svc: nat, e | (svc, e) in t.dead
      ensures svc < |t.svcs| && t.svcs[svc].declared && e in t.svcs[svc].dlq
    {
      if (svc, e) !in s.dead {
        assert SvcOk(cfg, s, svc);
        if step.LateBury? { assert FlightOk(cfg, s, svc, step.f); }
      }
    }
    forall o | o in t.orphans ensures o.0 < |t.svcs| && FlightOk(cfg, t, o.0, o.1) { OrphansKept(cfg, s, step, o); }
    forall svc: nat, e | Settled(t, svc, e) || (svc, e) in t.failed ensures (svc, e) in t.reached {
      SettledReached(cfg, s, step, svc, e);
    }
  }

  lemma SettledReached(cfg: Cfg, s: State, step: Step, svc: nat, e: Envelope)
    requires Inv(cfg, s) && Can(cfg, s, step)
    requires Settled(Do(cfg, s, step), svc, e) || (svc, e) in Do(cfg, s, step).failed
    ensures (svc, e) in Do(cfg, s, step).reached
  {
    if step.LateBury? || step.LateDispatch? {
      assert FlightOk(cfg, s, step.svc, step.f);
    } else if !Settled(s, svc, e) && (svc, e) !in s.failed {
      var f := s.svcs[svc].flights[step.i];
      assert SvcOk(cfg, s, svc) && f in s.svcs[svc].flights && FlightOk(cfg, s, svc, f);
    }
  }

  lemma {:induction false} RunKeepsInv(cfg: Cfg, s: State, steps: seq<Step>)
    requires Init(cfg, s) && Run(cfg, s, steps)
    ensures Inv(cfg, Final(cfg, s, steps))
  {
    if steps != [] {
      var n := |steps| - 1;
      RunKeepsInv(cfg, s, steps[..n]);
      StepKeepsInv(cfg, Final(cfg, s, steps[..n]), steps[n]);
    }
  }

  /** RabbitMQ conservation over whole runs: an event of which any copy was ever
      routed to svc is handled by svc, dead-lettered by svc into its own dead-letter
      queue, in its main queue, unacked, or in some retry queue. */
  lemma Conservation(cfg: Cfg, s: State, steps: seq<Step>, svc: nat, e: Envelope)
    requires Init(cfg, s) && Run(cfg, s, steps) && (svc, e) in Final(cfg, s, steps).reached
    ensures var t := Final(cfg, s, steps);
            && svc < |t.svcs|
            && (|| (svc, e) in t.done
                || ((svc, e) in t.dead && e in t.svcs[svc].dlq)
                || InQueue(t.svcs[svc].ready, e)
                || InFlight(t.svcs[svc].flights, e)
                || exists k: nat :: Retrying(t.svcs, k, e))
  {
    RunKeepsInv(cfg, s, steps);
  }

  /** No copy anywhere was rejected max(1, MAX_RETRIES) times by any service. */
  lemma RejectionsBelowLimit(cfg: Cfg, s: State, steps: seq<Step>, svc: nat, c: Copy, who: nat)
    requires Init(cfg, s) && Run(cfg, s, steps) && who < |cfg.maxRetries| && svc < |Final(cfg, s, steps).svcs|
    requires var v := Final(cfg, s, steps).svcs[svc];
             c in v.ready || c in v.retry || exists f :: f in v.flights && f.copy == c
    ensures Rejections(c, who) < Tries(cfg.maxRetries[who])
  {
    RunKeepsInv(cfg, s, steps);
    assert SvcOk(cfg, Final(cfg, s, steps), svc);
  }

  /** The dead-letter branch is taken exactly when this rejection would be number M. */
  lemma DeadLetterExactlyAtLimit(cfg: Cfg, s: State, steps: seq<Step>, svc: nat, i: nat)
    requires Init(cfg, s) && Run(cfg, s, steps)
    requires Can(cfg, Final(cfg, s, steps), Dispatch(svc, i, false))
    ensures var t := Final(cfg, s, steps);
            var n := Rejections(t.svcs[svc].flights[i].copy, svc);
            var todo := Do(cfg, t, Dispatch(svc, i, false)).svcs[svc].flights[i].phase;
            && n < Tries(cfg.maxRetries[svc])
            && (todo == Settling([Bury, Ack]) <==> n + 1 == Tries(cfg.maxRetries[svc]))
            && (todo == Settling([Nack]) <==> n + 1 < Tries(cfg.maxRetries[svc]))
  {
    RunKeepsInv(cfg, s, steps);
    var t := Final(cfg, s, steps);
    assert SvcOk(cfg, t, svc) && FlightOk(cfg, t, svc, t.svcs[svc].flights[i]);
  }

  // ----- refinement of the abstract bus

  ghost function Abs(s: State, svc: nat): Alo.Bus<Envelope> {
    var known := set p | p in s.reached && p.0 == svc :: p.1;
    Alo.Bus(known,
            set e | e in known && Live(s.svcs, svc, e),
            set e | e in known && (svc, e) in s.done,
            set e | e in known && (svc, e) in s.failed,
            set e | e in known && (svc, e) in s.dead)
  }

  /** A copy of e is routed to svc, if the queues of svc exist. */
  ghost function Arrival(s: State, svc: nat, e: Envelope, again: bool): Alo.Move<Envelope> {
    if svc >= |s.svcs| || !s.svcs[svc].declared then Alo.Stutter
    else if (svc, e) !in s.reached then Alo.Publish(e)
    else if again then Alo.Duplicate(e)
    else Alo.Stutter
  }

  ghost function DispatchMove(own: bool, e: Envelope, ok: bool): Alo.Move<Envelope> {
    if !own then Alo.Stutter else if ok then Alo.Succeed(e) else Alo.Fail(e)
  }

  ghost function MoveOf(cfg: Cfg, s: State, step: Step, svc: nat): Alo.Move<Envelope>
    requires Can(cfg, s, step)
  {
    match step
    case Publish(e) => Arrival(s, svc, e, true)
    case Dispatch(k, i, ok) =>
      DispatchMove(k == svc, s.svcs[k].flights[i].copy.body.value, ok)
    case Exec(k, i) =>
      var f := s.svcs[k].flights[i];
      if f.copy.body.None? then Alo.Stutter
      else
        (match f.phase.todo[0]
         case Ack =>
           if k == svc && !Live(Do(cfg, s, step).svcs, svc, f.copy.body.value)
           then Alo.Retire(f.copy.body.value) else Alo.Stutter
         case Nack => Arrival(s, svc, f.copy.body.value, true)
         case Bury => if k == svc then Alo.Bury(f.copy.body.value) else Alo.Stutter)
    case LateDispatch(k, f, ok) => DispatchMove(k == svc, f.copy.body.value, ok)
    case LateBury(k, f) => if k == svc then Alo.Bury(f.copy.body.value) else Alo.Stutter
    case Expire(k, i) =>
      var c := s.svcs[k].retry[i];
      if c.body.None? then Alo.Stutter else Arrival(s, svc, c.body.value, false)
    case _ => Alo.Stutter
  }

  /** No step but a publish or a nack of e makes e live for a service that lacked it. */
  lemma NoNewLife(cfg: Cfg, s: State, step: Step, svc: nat, e: Envelope)
    requires Inv(cfg, s) && Can(cfg, s, step) && !Spreads(s, step, e)
    requires Live(Do(cfg, s, step).svcs, svc, e)
    ensures Live(s.svcs, svc, e)
  {
    var t := Do(cfg, s, step).svcs;
    match step
    case Declare(k) => assert t[k].ready == s.svcs[k].ready; KeepsLive(s.svcs, t, svc, e);
    case Publish(e2) => MainAdds(s.svcs, Copy(Some(e2), []), e); KeepsLive(s.svcs, t, svc, e);
    case Garbage => MainAdds(s.svcs, Copy(None, []), e); KeepsLive(s.svcs, t, svc, e);
    case Deliver(k, i) =>
      InQueueWithout(s.svcs[k].ready, i, e);
      InFlightAppend(s.svcs[k].flights, Flight(s.svcs[k].ready[i], Prefetched), e);
      KeepsLive(s.svcs, t, svc, e);
    case Exec(k, i) => NoNewLifeByExec(cfg, s, k, i, svc, e);
    case Requeue(k, i) =>
      InFlightWithout(s.svcs[k].flights, i, e);
      InQueueAppend(s.svcs[k].ready, s.svcs[k].flights[i].copy, e);
      KeepsLive(s.svcs, t, svc, e);
    case LateDispatch(_, _, _) =>
    case LateBury(_, _) => KeepsLive(s.svcs, t, svc, e);
    case Expire(k, i) =>
      var v := s.svcs[k];
      InQueueWithout(v.retry, i, e);
      if v.retry[i].body == Some(e) {
        assert Retrying(s.svcs, k, e);
      } else {
        MainAdds(s.svcs[k := v.(retry := Without(v.retry, i))], Bump(v.retry[i], RetryQ(k), Expired), e);
        KeepsLive(s.svcs, t, svc, e);
      }
    case _ =>
      InFlightPhase(s.svcs[step.svc].flights, step.i, t[step.svc].flights[step.i].phase, e);
      KeepsLive(s.svcs, t, svc, e);
  }

  lemma NoNewLifeByExec(cfg: Cfg, s: State, k: nat, i: nat, svc: nat, e: Envelope)
    requires Inv(cfg, s) && Can(cfg, s, Exec(k, i)) && !Spreads(s, Exec(k, i), e)
    requires Live(Do(cfg, s, Exec(k, i)).svcs, svc, e)
    ensures Live(s.svcs, svc, e)
  {
    var t, f := Do(cfg, s, Exec(k, i)).svcs, s.svcs[k].flights[i];
    match f.phase.todo[0]
    case Ack =>
      InFlightWithout(s.svcs[k].flights, i, e);
      KeepsLive(s.svcs, t, svc, e);
    case Bury =>
      InFlightPhase(s.svcs[k].flights, i, Settling(f.phase.todo[1..]), e);
      KeepsLive(s.svcs, t, svc, e);
    case Nack =>
      InFlightWithout(s.svcs[k].flights, i, e);
      RetryAdds(DropFlight(s.svcs, k, i), Bump(f.copy, MainQ(k), Rejected), e);
    KeepsLive(s.svcs, t, svc, e);
  }

  lemma MainAdds(svcs: seq<Svc>, c: Copy, e: Envelope)
    requires c.body != Some(e)
    ensures forall j: nat | j < |svcs| :: Keeps(svcs[j], ToMain(svcs, c)[j], e)
  {
    forall j: nat | j < |svcs| ensures Keeps(svcs[j], ToMain(svcs, c)[j], e) {
      InQueueAppend(svcs[j].ready, c, e);
    }
  }

  lemma RetryAdds(svcs: seq<Svc>, c: Copy, e: Envelope)
    requires c.body != Some(e)
    ensures forall j: nat | j < |svcs| :: Keeps(svcs[j], ToRetry(svcs, c)[j], e)
  {
    forall j: nat | j < |svcs| ensures Keeps(svcs[j], ToRetry(svcs, c)[j], e) {
      InQueueAppend(svcs[j].retry, c, e);
    }
  }

  lemma LiveChange(cfg: Cfg, s: State, step: Step, svc: nat, e: Envelope)
    requires Inv(cfg, s) && Can(cfg, s, step) && (svc, e) in Do(cfg, s, step).reached
    ensures var t, m := Do(cfg, s, step), MoveOf(cfg, s, step, svc);
            Live(t.svcs, svc, e) <==>
            (Live(s.svcs, svc, e) || m == Alo.Publish(e) || m == Alo.Duplicate(e)) && m != Alo.Retire(e)
  {
    var t, m := Do(cfg, s, step), MoveOf(cfg, s, step, svc);
    if (svc, e) !in s.reached {
      NewlyReached(cfg, s, step, svc, e);
    } else if Spreads(s, step, e) {
      SpreadReaches(cfg, s, step, svc, e);
    } else {
      if Live(t.svcs, svc, e) { NoNewLife(cfg, s, step, svc, e); }
      if Live(s.svcs, svc, e) && !Removes(s, step, svc, e) { LiveKept(cfg, s, step, svc, e); }
      if step.Exec? {
        var f := s.svcs[step.svc].flights[step.i];
        assert SvcOk(cfg, s, step.svc) && FlightOk(cfg, s, step.svc, f);
      }
    }
  }

  lemma SpreadReaches(cfg: Cfg, s: State, step: Step, svc: nat, e: Envelope)
    requires Inv(cfg, s) && Can(cfg, s, step) && Spreads(s, step, e) && (svc, e) in s.reached
    ensures Live(Do(cfg, s, step).svcs, svc, e)
  {
    if step.Publish? {
      InQueueAppend(s.svcs[svc].ready, Copy(Some(e), []), e);
    } else {
      var k, i := step.svc, step.i;
      InQueueAppend(DropFlight(s.svcs, k, i)[svc].retry, Bump(s.svcs[k].flights[i].copy, MainQ(k), Rejected), e);
      assert Retrying(Do(cfg, s, step).svcs, svc, e);
    }
  }

  /** One step of the machine is one move of the abstract bus. */
  lemma StepRefines(cfg: Cfg, s: State, step: Step, svc: nat)
    requires Inv(cfg, s) && Can(cfg, s, step) && svc < |s.svcs|
    ensures Alo.Can(Abs(s, svc), MoveOf(cfg, s, step, svc))
    ensures Abs(Do(cfg, s, step), svc) == Alo.Do(Abs(s, svc), MoveOf(cfg, s, step, svc))
  {
    var a, a' := Abs(s, svc), Abs(Do(cfg, s, step), svc);
    MoveAllowed(cfg, s, step, svc);
    var b := Alo.Do(a, MoveOf(cfg, s, step, svc));
    forall e ensures e in a'.published <==> e in b.published
             ensures e in a'.outstanding <==> e in b.outstanding
    {
      PublishedAndOutstanding(cfg, s, step, svc, e);
    }
    forall e ensures e in a'.done <==> e in b.done
             ensures e in a'.failed <==> e in b.failed
             ensures e in a'.dead <==> e in b.dead
    {
      DoneAndDead(cfg, s, step, svc, e);
    }
  }

  lemma PublishedAndOutstanding(cfg: Cfg, s: State, step: Step, svc: nat, e: Envelope)
    requires Inv(cfg, s) && Can(cfg, s, step) && svc < |s.svcs|
    ensures var a', b := Abs(Do(cfg, s, step), svc), Alo.Do(Abs(s, svc), MoveOf(cfg, s, step, svc));
            && (e in a'.published <==> e in b.published)
            && (e in a'.outstanding <==> e in b.outstanding)
  {
    Known(s, svc);
    Known(Do(cfg, s, step), svc);
    MoveAllowed(cfg, s, step, svc);
    if (svc, e) in Do(cfg, s, step).reached { LiveChange(cfg, s, step, svc, e); }
  }

  lemma DoneAndDead(cfg: Cfg, s: State, step: Step, svc: nat, e: Envelope)
    requires Inv(cfg, s) && Can(cfg, s, step) && svc < |s.svcs|
    ensures var a', b := Abs(Do(cfg, s, step), svc), Alo.Do(Abs(s, svc), MoveOf(cfg, s, step, svc));
            && (e in a'.done <==> e in b.done)
            && (e in a'.failed <==> e in b.failed)
            && (e in a'.dead <==> e in b.dead)
  {
    SettledChange(cfg, s, step, svc, e);
    SettledMembers(s, Do(cfg, s, step), svc, MoveOf(cfg, s, step, svc), e);
  }

  lemma SettledChange(cfg: Cfg, s: State, step: Step, svc: nat, e: Envelope)
    requires Inv(cfg, s) && Can(cfg, s, step) && svc < |s.svcs|
    ensures var t, m := Do(cfg, s, step), MoveOf(cfg, s, step, svc);
            && ((svc, e) in t.reached ==>
                  && ((svc, e) in t.done <==> (svc, e) in s.done || m == Alo.Succeed(e))
                  && ((svc, e) in t.failed <==> (svc, e) in s.failed || m == Alo.Fail(e))
                  && ((svc, e) in t.dead <==> (svc, e) in s.dead || m == Alo.Bury(e)))
            && (!m.Stutter? ==> (svc, m.e) in t.reached) && s.reached <= t.reached
            && ((svc, e) in s.done || (svc, e) in s.failed || (svc, e) in s.dead ==> (svc, e) in s.reached)
  {
    MoveAllowed(cfg, s, step, svc);
    assert Settled(s, svc, e) || (svc, e) in s.failed ==> (svc, e) in s.reached;
  }

  lemma SettledMembers(s: State, t: State, svc: nat, m: Alo.Move<Envelope>, e: Envelope)
    requires s.reached <= t.reached && (!m.Stutter? ==> (svc, m.e) in t.reached)
    requires (svc, e) in s.done || (svc, e) in s.failed || (svc, e) in s.dead ==> (svc, e) in s.reached
    requires (svc, e) in t.reached ==>
               && ((svc, e) in t.done <==> (svc, e) in s.done || m == Alo.Succeed(e))
               && ((svc, e) in t.failed <==> (svc, e) in s.failed || m == Alo.Fail(e))
               && ((svc, e) in t.dead <==> (svc, e) in s.dead || m == Alo.Bury(e))
    ensures var a', b := Abs(t, svc), Alo.Do(Abs(s, svc), m);
            && (e in a'.done <==> e in b.done)
            && (e in a'.failed <==> e in b.failed)
            && (e in a'.dead <==> e in b.dead)
  {
    Known(s, svc);
    Known(t, svc);
  }

  lemma Known(s: State, svc: nat)
    ensures forall e :: e in Abs(s, svc).published <==> (svc, e) in s.reached
  {
    forall e ensures e in Abs(s, svc).published <==> (svc, e) in s.reached {
      if (svc, e) in s.reached { assert (svc, e).0 == svc && (svc, e).1 == e; }
    }
  }

  lemma MoveAllowed(cfg: Cfg, s: State, step: Step, svc: nat)
    requires Inv(cfg, s) && Can(cfg, s, step) && svc < |s.svcs|
    ensures Alo.Can(Abs(s, svc), MoveOf(cfg, s, step, svc))
    ensures var m := MoveOf(cfg, s, step, svc); !m.Stutter? ==> (svc, m.e) in Do(cfg, s, step).reached
  {
    Known(s, svc);
    if step.Exec? || step.Dispatch? {
      var f := s.svcs[step.svc].flights[step.i];
      assert SvcOk(cfg, s, step.svc) && FlightOk(cfg, s, step.svc, f);
      if f.copy.body.Some? && step.svc == svc { assert InFlight(s.svcs[svc].flights, f.copy.body.value); }
    } else if step.LateDispatch? || step.LateBury? {
      assert FlightOk(cfg, s, step.svc, step.f);
    }
  }

  ghost function Moves(cfg: Cfg, s: State, steps: seq<Step>, svc: nat): (r: seq<Alo.Move<Envelope>>)
    requires Run(cfg, s, steps)
    ensures |r| == |steps|
  {
    if steps == [] then [] else
      var n := |steps| - 1;
      Moves(cfg, s, steps[..n], svc) + [MoveOf(cfg, Final(cfg, s, steps[..n]), steps[n], svc)]
  }

  /** The common refinement for RabbitMQ. */
  lemma {:induction false} RunRefines(cfg: Cfg, s: State, steps: seq<Step>, svc: nat)
    requires Init(cfg, s) && Run(cfg, s, steps) && svc < |cfg.maxRetries|
    ensures Alo.Fresh(Abs(s, svc)) && Alo.Legal(Abs(s, svc), Moves(cfg, s, steps, svc))
    ensures Alo.After(Abs(s, svc), Moves(cfg, s, steps, svc)) == Abs(Final(cfg, s, steps), svc)
  {
    if steps != [] {
      var n := |steps| - 1;
      var t := Final(cfg, s, steps[..n]);
      RunRefines(cfg, s, steps[..n], svc);
      RunKeepsInv(cfg, s, steps[..n]);
      StepRefines(cfg, t, steps[n], svc);
      Alo.JoinsOne(Abs(s, svc), Moves(cfg, s, steps[..n], svc), MoveOf(cfg, t, steps[n], svc));
    }
  }
}
