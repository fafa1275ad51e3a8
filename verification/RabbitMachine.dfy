/** The RabbitMQ backend for one event type as a step machine. Every service has a
    main, a retry and a dead-letter queue; the three exchanges are direct ones keyed
    by the event type alone, so whatever enters an exchange reaches the queue of
    every declared service. A retried message goes through the dead-letter exchange
    of the main queue into the retry queues, and, once its TTL is over, through the
    main exchange back into the main queues. */
module RabbitMachine {
  import opened Wrappers
  import opened Events
  import opened Sums

  datatype Queue = MainQ(svc: nat) | RetryQ(svc: nat)

  datatype Reason = Rejected | Expired

  /** One entry of the x-death header, kept by the server. */
  datatype Death = Death(queue: Queue, reason: Reason, count: nat)

  datatype Copy = Copy(body: Option<Envelope>, deaths: seq<Death>)

  /** Count of the first entry for this queue and reason. */
  function CountOf(deaths: seq<Death>, queue: Queue, reason: Reason): nat {
    if deaths == [] then 0
    else if deaths[0].queue == queue && deaths[0].reason == reason then deaths[0].count
    else CountOf(deaths[1..], queue, reason)
  }

  function Drop(deaths: seq<Death>, queue: Queue, reason: Reason): seq<Death> {
    if deaths == [] then []
    else if deaths[0].queue == queue && deaths[0].reason == reason then deaths[1..]
    else [deaths[0]] + Drop(deaths[1..], queue, reason)
  }

  /** What the server does to x-death when it dead-letters a message. */
  function Bump(c: Copy, queue: Queue, reason: Reason): Copy {
    c.(deaths := [Death(queue, reason, CountOf(c.deaths, queue, reason) + 1)] + Drop(c.deaths, queue, reason))
  }

  lemma {:induction false} DropKeepsOthers(deaths: seq<Death>, queue: Queue, reason: Reason, q: Queue, r: Reason)
    requires q != queue || r != reason
    ensures CountOf(Drop(deaths, queue, reason), q, r) == CountOf(deaths, q, r)
  {
    if deaths != [] && !(deaths[0].queue == queue && deaths[0].reason == reason) {
      DropKeepsOthers(deaths[1..], queue, reason, q, r);
      assert ([deaths[0]] + Drop(deaths[1..], queue, reason))[1..] == Drop(deaths[1..], queue, reason);
    }
  }

  /** Dead-lettering raises exactly the counter of the queue and reason it happened for. */
  lemma BumpCounts(c: Copy, queue: Queue, reason: Reason, q: Queue, r: Reason)
    ensures CountOf(Bump(c, queue, reason).deaths, q, r)
            == CountOf(c.deaths, q, r) + (if q == queue && r == reason then 1 else 0)
  {
    var rest := Drop(c.deaths, queue, reason);
    assert Bump(c, queue, reason).deaths[1..] == rest;
    if q != queue || r != reason { DropKeepsOthers(c.deaths, queue, reason, q, r); }
  }

  datatype Cmd = Ack | Nack | Bury

  datatype Phase = Prefetched | Held | Settling(todo: seq<Cmd>)

  /** A message handed to a channel and not yet acknowledged. */
  datatype Flight = Flight(copy: Copy, phase: Phase)

  datatype Svc = Svc(
    declared: bool, ready: seq<Copy>, flights: seq<Flight>, retry: seq<Copy>, dlq: seq<Envelope>)

  /** maxRetries[s] is the MAX_RETRIES of service s. */
  datatype Cfg = Cfg(maxRetries: seq<int>)

  /** reached: (s, e) once the server routed a copy of e to a queue of s. failed: (s, e)
      once the receivers of s were run for e and one raised. orphans: what workers had in
      hand when the channel of the message was lost; they go on with it all the same. */
  datatype State = State(
    svcs: seq<Svc>,
    reached: set<(nat, Envelope)>,
    done: set<(nat, Envelope)>,
    failed: set<(nat, Envelope)>,
    dead: set<(nat, Envelope)>,
    orphans: set<(nat, Flight)>)

  function Rejections(c: Copy, svc: nat): nat { CountOf(c.deaths, MainQ(svc), Rejected) }

  predicate Retries(cfg: Cfg, svc: nat, c: Copy)
    requires svc < |cfg.maxRetries|
  {
    Rejections(c, svc) + 1 < cfg.maxRetries[svc]
  }

  /** The commands fail() issues. */
  function FailCmds(cfg: Cfg, svc: nat, c: Copy): seq<Cmd>
    requires svc < |cfg.maxRetries|
  {
    if Retries(cfg, svc, c) then [Nack] else [Bury, Ack]
  }

  datatype Step =
    | Declare(svc: nat)
    | Publish(e: Envelope)
    | Garbage
    | Deliver(svc: nat, i: nat)
    | Take(svc: nat, i: nat)
    | Dispatch(svc: nat, i: nat, ok: bool)
    | Exec(svc: nat, i: nat)
    | Requeue(svc: nat, i: nat)   // the channel that held the message is gone
    | LateDispatch(svc: nat, f: Flight, ok: bool)   // a dispatch ends after its channel was lost
    | LateBury(svc: nat, f: Flight)                 // a dead letter is written after that
    | Expire(svc: nat, i: nat)    // the TTL of a message in the retry queue is over

  ghost predicate HasFlight(s: State, svc: nat, i: nat) {
    svc < |s.svcs| && i < |s.svcs[svc].flights|
  }

  ghost predicate Can(cfg: Cfg, s: State, step: Step) {
    |s.svcs| == |cfg.maxRetries| &&
    match step
    case Declare(svc) => svc < |s.svcs|
    case Publish(_) => true
    case Garbage => true
    case Deliver(svc, i) => svc < |s.svcs| && i < |s.svcs[svc].ready|
    case Take(svc, i) => HasFlight(s, svc, i) && s.svcs[svc].flights[i].phase.Prefetched?
    case Dispatch(svc, i, _) =>
      HasFlight(s, svc, i) && s.svcs[svc].flights[i].phase.Held? && s.svcs[svc].flights[i].copy.body.Some?
    case Exec(svc, i) =>
      HasFlight(s, svc, i) &&
      var f := s.svcs[svc].flights[i];
      f.phase.Settling? && f.phase.todo != [] && (f.phase.todo[0].Bury? ==> f.copy.body.Some? && |f.phase.todo| > 1)
    case Requeue(svc, i) => HasFlight(s, svc, i)
    case LateDispatch(svc, f, _) =>
      (svc, f) in s.orphans && f.phase.Held? && f.copy.body.Some? && svc < |cfg.maxRetries|
    case LateBury(svc, f) => (svc, f) in s.orphans && Burying(f.phase) && f.copy.body.Some?
    case Expire(svc, i) => svc < |s.svcs| && i < |s.svcs[svc].retry|
  }

  function Put(v: Svc, q: Queue, c: Copy): Svc {
    if !v.declared then v
    else if q.MainQ? then v.(ready := v.ready + [c]) else v.(retry := v.retry + [c])
  }

  /** The main exchange. */
  function ToMain(svcs: seq<Svc>, c: Copy): (r: seq<Svc>) {
    seq(|svcs|, (j: nat) requires j < |svcs| => Put(svcs[j], MainQ(j), c))
  }

  /** The retry exchange. */
  function ToRetry(svcs: seq<Svc>, c: Copy): (r: seq<Svc>) {
    seq(|svcs|, (j: nat) requires j < |svcs| => Put(svcs[j], RetryQ(j), c))
  }

  /** The dead-letter exchange. */
  function ToDlq(svcs: seq<Svc>, e: Envelope): (r: seq<Svc>) {
    seq(|svcs|, (j: nat) requires j < |svcs| =>
          if svcs[j].declared then svcs[j].(dlq := svcs[j].dlq + [e]) else svcs[j])
  }

  function SetFlight(svcs: seq<Svc>, svc: nat, i: nat, phase: Phase): seq<Svc>
    requires svc < |svcs| && i < |svcs[svc].flights|
  {
    var v := svcs[svc];
    svcs[svc := v.(flights := v.flights[i := v.flights[i].(phase := phase)])]
  }

  function DropFlight(svcs: seq<Svc>, svc: nat, i: nat): seq<Svc>
    requires svc < |svcs| && i < |svcs[svc].flights|
  {
    var v := svcs[svc];
    svcs[svc := v.(flights := Without(v.flights, i))]
  }

  /** Every declared service, paired with what the copy carries. */
  ghost function Reached(s: State, body: Option<Envelope>): set<(nat, Envelope)> {
    if body.None? then {} else set j: nat | j < |s.svcs| && s.svcs[j].declared :: (j, body.value)
  }

  predicate Burying(phase: Phase) {
    phase.Settling? && phase.todo != [] && phase.todo[0] == Bury
  }

  /** What a worker goes on with although the channel of its message is gone: the
      receivers it is running, and the dead-letter publish it is trying. A pending ack or
      nack raises, which ends the worker. */
  function Orphaned(svc: nat, f: Flight): set<(nat, Flight)> {
    if f.phase.Held? || Burying(f.phase) then {(svc, f)} else {}
  }

  ghost function Do(cfg: Cfg, s: State, step: Step): State
    requires Can(cfg, s, step)
  {
    match step
    case Declare(svc) => s.(svcs := s.svcs[svc := s.svcs[svc].(declared := true)])
    case Publish(e) => s.(svcs := ToMain(s.svcs, Copy(Some(e), [])), reached := s.reached + Reached(s, Some(e)))
    case Garbage => s.(svcs := ToMain(s.svcs, Copy(None, [])))
    case Deliver(svc, i) =>
      var v := s.svcs[svc];
      s.(svcs := s.svcs[svc := v.(ready := Without(v.ready, i),
                                  flights := v.flights + [Flight(v.ready[i], Prefetched)])])
    case Take(svc, i) =>
      var phase := if s.svcs[svc].flights[i].copy.body.Some? then Held else Settling([Ack]);
      s.(svcs := SetFlight(s.svcs, svc, i, phase))
    case Dispatch(svc, i, ok) =>
      var c := s.svcs[svc].flights[i].copy;
      if ok then s.(svcs := SetFlight(s.svcs, svc, i, Settling([Ack])), done := s.done + {(svc, c.body.value)})
      else s.(svcs := SetFlight(s.svcs, svc, i, Settling(FailCmds(cfg, svc, c))),
              failed := s.failed + {(svc, c.body.value)})
    case Exec(svc, i) =>
      var f := s.svcs[svc].flights[i];
      (match f.phase.todo[0]
       case Ack => s.(svcs := DropFlight(s.svcs, svc, i))
       case Nack =>
         s.(svcs := ToRetry(DropFlight(s.svcs, svc, i), Bump(f.copy, MainQ(svc), Rejected)),
            reached := s.reached + Reached(s, f.copy.body))
       case Bury =>
         s.(svcs := ToDlq(SetFlight(s.svcs, svc, i, Settling(f.phase.todo[1..])), f.copy.body.value),
            dead := s.dead + {(svc, f.copy.body.value)}))
    case Requeue(svc, i) =>
      var v := s.svcs[svc];
      s.(svcs := s.svcs[svc := v.(ready := v.ready + [v.flights[i].copy], flights := Without(v.flights, i))],
         orphans := s.orphans + Orphaned(svc, v.flights[i]))
    case LateDispatch(svc, f, ok) =>
      (var e := f.copy.body.value;
       if ok then s.(done := s.done + {(svc, e)})
       else s.(failed := s.failed + {(svc, e)},
               orphans := s.orphans + Orphaned(svc, f.(phase := Settling(FailCmds(cfg, svc, f.copy))))))
    case LateBury(svc, f) =>
      s.(svcs := ToDlq(s.svcs, f.copy.body.value), dead := s.dead + {(svc, f.copy.body.value)})
    case Expire(svc, i) =>
      var v := s.svcs[svc];
      s.(svcs := ToMain(s.svcs[svc := v.(retry := Without(v.retry, i))], Bump(v.retry[i], RetryQ(svc), Expired)),
         reached := s.reached + Reached(s, v.retry[i].body))
  }

  ghost predicate Init(cfg: Cfg, s: State) {
    && |s.svcs| == |cfg.maxRetries|
    && (forall j: nat | j < |s.svcs| :: s.svcs[j] == Svc(false, [], [], [], []))
    && s.reached == {} && s.done == {} && s.failed == {} && s.dead == {} && s.orphans == {}
  }

  ghost predicate Run(cfg: Cfg, s: State, steps: seq<Step>)
    decreases |steps|, 0
  {
    steps == [] ||
    var n := |steps| - 1;
    Run(cfg, s, steps[..n]) && Can(cfg, Final(cfg, s, steps[..n]), steps[n])
  }

  ghost function Final(cfg: Cfg, s: State, steps: seq<Step>): State
    requires Run(cfg, s, steps)
    decreases |steps|, 1
  {
    if steps == [] then s else
      var n := |steps| - 1;
      Do(cfg, Final(cfg, s, steps[..n]), steps[n])
  }

  lemma RunExtends(cfg: Cfg, s: State, steps: seq<Step>, step: Step)
    requires Run(cfg, s, steps) && Can(cfg, Final(cfg, s, steps), step)
    ensures Run(cfg, s, steps + [step])
    ensures Final(cfg, s, steps + [step]) == Do(cfg, Final(cfg, s, steps), step)
  {
    assert (steps + [step])[..|steps|] == steps;
  }

  // ----- a run with its states, as the code records it

  ghost predicate StepAt(cfg: Cfg, trail: seq<State>, steps: seq<Step>, i: nat) {
    && i < |steps| && i + 1 < |trail|
    && Can(cfg, trail[i], steps[i]) && trail[i + 1] == Do(cfg, trail[i], steps[i])
  }

  ghost predicate Trail(cfg: Cfg, trail: seq<State>, steps: seq<Step>) {
    && |trail| == |steps| + 1
    && Init(cfg, trail[0])
    && forall i: nat | i < |steps| :: StepAt(cfg, trail, steps, i)
  }

  lemma TrailExtends(cfg: Cfg, trail: seq<State>, steps: seq<Step>, step: Step)
    requires Trail(cfg, trail, steps) && Can(cfg, trail[|steps|], step)
    ensures Trail(cfg, trail + [Do(cfg, trail[|steps|], step)], steps + [step])
  {
    var t, xs := trail + [Do(cfg, trail[|steps|], step)], steps + [step];
    forall i: nat | i < |xs| ensures StepAt(cfg, t, xs, i) {
      if i < |steps| { assert StepAt(cfg, trail, steps, i); }
    }
  }

  lemma {:induction false} TrailIsRun(cfg: Cfg, trail: seq<State>, steps: seq<Step>)
    requires Trail(cfg, trail, steps)
    ensures Run(cfg, trail[0], steps) && Final(cfg, trail[0], steps) == trail[|steps|]
  {
    if steps != [] {
      var n := |steps| - 1;
      var t, xs := trail[..n + 1], steps[..n];
      forall i: nat | i < n ensures StepAt(cfg, t, xs, i) { assert StepAt(cfg, trail, steps, i); }
      TrailIsRun(cfg, t, xs);
      assert StepAt(cfg, trail, steps, n);
    }
  }
}
