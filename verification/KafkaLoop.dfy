/** When a Kafka backend comes to rest on its own: exactly when no service reads its own
    dead letters. One that does can fail an event, and its dead letters, without end. */
module KafkaLoop {
  import opened Wrappers
  import opened Events
  import opened Counters
  import opened Sums
  import opened KafkaMachine
  import opened KafkaBudget
  import opened KafkaQuiescence

  ghost predicate AllProtocol(steps: seq<Step>) {
    forall i | 0 <= i < |steps| :: IsProtocol(steps[i])
  }

  ghost predicate Reachable(cfg: Cfg, s: State) {
    exists start, steps :: Init(cfg, start) && Run(cfg, start, steps) && s == Final(cfg, start, steps)
  }

  /** At most k protocol steps can follow. */
  ghost predicate RestsAfter(cfg: Cfg, s: State, k: nat) {
    forall steps | Run(cfg, s, steps) && AllProtocol(steps) :: |steps| <= k
  }

  /** Without new messages and without workers stopping, everything settles, from every
      reachable state, exactly when no service reads its own dead letters. */
  lemma QuiescesIff(cfg: Cfg)
    ensures cfg.LoopFree() <==> forall s | Reachable(cfg, s) :: exists k: nat :: RestsAfter(cfg, s, k)
  {
    if cfg.LoopFree() {
      forall s | Reachable(cfg, s) ensures exists k: nat :: RestsAfter(cfg, s, k) { Rests(cfg, s); }
    } else {
      var g: nat, u: string, p: nat, q: nat :| cfg.Loops(g, u, p, q);
      var start, steps := Spinning(cfg, g, p, q, Envelope("", u, map[]));
      var s := Final(cfg, start, steps);
      assert Reachable(cfg, s);
      forall k: nat ensures !RestsAfter(cfg, s, k) {
        var laps := Laps(cfg, s, [], g, p, q, Envelope("", u, map[]), k + 1);
      }
    }
  }

  ghost predicate WithinBudget(cfg: Cfg, s: State, steps: seq<Step>, max: int, e: Envelope)
    requires Run(cfg, s, steps)
  {
    Attempted(cfg, s, steps, e, None) <= Upto(Tries(max), BoundAt(|cfg.groups|, Budget(cfg, s, steps, e)))
  }

  /** The dispatch budget of KafkaBudget holds in every run exactly under the same condition. */
  lemma BudgetIff(cfg: Cfg, max: int)
    requires LimitsUpTo(cfg, max)
    ensures cfg.LoopFree() <==>
            forall s, steps, e | Init(cfg, s) && Run(cfg, s, steps) :: WithinBudget(cfg, s, steps, max, e)
  {
    if cfg.LoopFree() {
      forall s, steps, e | Init(cfg, s) && Run(cfg, s, steps) ensures WithinBudget(cfg, s, steps, max, e) {
        SharedTopicDispatches(cfg, s, steps, max, e);
      }
    } else {
      var g: nat, u: string, p: nat, q: nat :| cfg.Loops(g, u, p, q);
      var e, n := Envelope("", u, map[]), |cfg.groups|;
      var bound := Upto(Tries(max), BoundAt(n, Reads(n, 1, 0)));
      var s, steps := Overspend(cfg, g, p, q, e, if bound < 0 then 0 else bound + 1);
      assert !WithinBudget(cfg, s, steps, max, e);
    }
  }

  /** One publish, no stop, and k dispatches. */
  lemma Overspend(cfg: Cfg, g: nat, p: nat, q: nat, e: Envelope, k: nat) returns (s: State, steps: seq<Step>)
    requires cfg.Loops(g, e.eventType, p, q)
    ensures Init(cfg, s) && Run(cfg, s, steps)
    ensures Publishes(steps, e) == 1 && Stopped(cfg, s, steps, e, None) == 0 && Attempted(cfg, s, steps, e, None) >= k
  {
    var before;
    s, before := Spinning(cfg, g, p, q, e);
    steps := Laps(cfg, s, before, g, p, q, e, k);
  }

  lemma CountsExtend(cfg: Cfg, s: State, steps: seq<Step>, x: Step, e: Envelope)
    requires Run(cfg, s, steps) && Can(cfg, Final(cfg, s, steps), x)
    ensures Run(cfg, s, steps + [x]) && Final(cfg, s, steps + [x]) == Do(cfg, Final(cfg, s, steps), x)
    ensures Attempted(cfg, s, steps + [x], e, None)
            == Attempted(cfg, s, steps, e, None) + One(Dispatches(cfg, Final(cfg, s, steps), x, e, None))
    ensures Stopped(cfg, s, steps + [x], e, None)
            == Stopped(cfg, s, steps, e, None) + One(Stops(cfg, Final(cfg, s, steps), x, e, None))
    ensures Publishes(steps + [x], e) == Publishes(steps, e) + One(x.Publish? && x.e == e)
  {
    RunExtends(cfg, s, steps, x);
    assert (steps + [x])[..|steps|] == steps;
  }

  lemma Rests(cfg: Cfg, s: State)
    requires Reachable(cfg, s) && cfg.LoopFree()
    ensures exists k: nat :: RestsAfter(cfg, s, k)
  {
    var start, steps :| Init(cfg, start) && Run(cfg, start, steps) && s == Final(cfg, start, steps);
    var max := SomeLimit(cfg, |cfg.groups|);
    RunKeepsRange(cfg, start, steps, max);
    WorkPositive(cfg, s, max);
    forall xs | Run(cfg, s, xs) && AllProtocol(xs) ensures |xs| <= Work(cfg, s, max) {
      Quiesces(cfg, s, xs, max);
    }
    assert RestsAfter(cfg, s, Work(cfg, s, max));
  }

  // ----- the endless run

  ghost predicate Full(s: State, p: nat, e: Envelope) {
    p < |s.logs| && forall o: nat | o < |s.logs[p]| :: s.logs[p][o].body == Some(e)
  }

  ghost predicate Waits(cfg: Cfg, s: State, g: nat, p: nat, e: Envelope) {
    && HasCell(cfg, s, g, p) && Full(s, p, e)
    && s.cells[g][p].owned && s.cells[g][p].phase.Idle? && s.cells[g][p].pos <= |s.logs[p]|
  }

  /** The worker owns both topics of the event and has a copy ahead of it. */
  ghost predicate Spins(cfg: Cfg, s: State, g: nat, p: nat, q: nat, e: Envelope) {
    && cfg.Loops(g, e.eventType, p, q)
    && Waits(cfg, s, g, p, e) && Waits(cfg, s, g, q, e)
    && (s.cells[g][p].pos < |s.logs[p]| || s.cells[g][q].pos < |s.logs[q]|)
  }

  /** The run goes on with n protocol steps, d of them or more dispatches of e. */
  ghost predicate GoesOn(cfg: Cfg, s: State, before: seq<Step>, steps: seq<Step>, n: nat, d: nat, e: Envelope) {
    && Run(cfg, s, before) && Run(cfg, s, steps) && |steps| == |before| + n
    && (AllProtocol(before) ==> AllProtocol(steps))
    && Attempted(cfg, s, steps, e, None) >= Attempted(cfg, s, before, e, None) + d
    && Stopped(cfg, s, steps, e, None) == Stopped(cfg, s, before, e, None)
    && Publishes(steps, e) == Publishes(before, e)
  }

  /** Poll, fail, republish on one topic or the other, commit: another copy is ahead. */
  lemma Lap(cfg: Cfg, s: State, before: seq<Step>, g: nat, p: nat, q: nat, e: Envelope) returns (steps: seq<Step>)
    requires Run(cfg, s, before) && Spins(cfg, Final(cfg, s, before), g, p, q, e)
    ensures GoesOn(cfg, s, before, steps, 4, 1, e) && Spins(cfg, Final(cfg, s, steps), g, p, q, e)
  {
    var t := Final(cfg, s, before);
    DlqTopicIsMainTopicIff(cfg, e.eventType, e.eventType);
    if t.cells[g][p].pos < |t.logs[p]| {
      steps := LapFrom(cfg, s, before, g, p, q, if Retries(cfg, g, t.logs[p][t.cells[g][p].pos]) then p else q, e);
    } else {
      steps := LapFrom(cfg, s, before, g, q, p, if Retries(cfg, g, t.logs[q][t.cells[g][q].pos]) then p else q, e);
    }
  }

  lemma LapFrom(cfg: Cfg, s: State, before: seq<Step>, g: nat, x: nat, y: nat, z: nat, e: Envelope) returns (steps: seq<Step>)
    requires Run(cfg, s, before)
    requires var t := Final(cfg, s, before);
             && x != y && Waits(cfg, t, g, x, e) && Waits(cfg, t, g, y, e) && t.cells[g][x].pos < |t.logs[x]|
             && cfg.Subscribes(g, e.eventType) && (z == x || z == y)
             && cfg.topicOf[z] == FailTopic(cfg, g, t.logs[x][t.cells[g][x].pos])
    ensures GoesOn(cfg, s, before, steps, 4, 1, e)
    ensures var u := Final(cfg, s, steps);
            Waits(cfg, u, g, x, e) && Waits(cfg, u, g, y, e) && u.cells[g][z].pos < |u.logs[z]|
  {
    var t := Final(cfg, s, before);
    var off := t.cells[g][x].pos;
    var s1, s2 := TakeAndFail(cfg, t, g, x, y, z, e);
    var s3, s4 := WriteAndCommit(cfg, s2, g, x, y, off, t.logs[x][off], z, e);
    var half := TwoSteps(cfg, s, before, Fetch(g, x), Dispatch(g, x, false, z), e);
    steps := TwoSteps(cfg, s, half, Exec(g, x), Exec(g, x), e);
  }

  lemma TakeAndFail(cfg: Cfg, s: State, g: nat, x: nat, y: nat, z: nat, e: Envelope) returns (s1: State, s2: State)
    requires x != y && Waits(cfg, s, g, x, e) && Waits(cfg, s, g, y, e) && s.cells[g][x].pos < |s.logs[x]|
    requires cfg.Subscribes(g, e.eventType) && (z == x || z == y)
    requires cfg.topicOf[z] == FailTopic(cfg, g, s.logs[x][s.cells[g][x].pos])
    ensures Can(cfg, s, Fetch(g, x)) && s1 == Do(cfg, s, Fetch(g, x))
    ensures Can(cfg, s1, Dispatch(g, x, false, z)) && s2 == Do(cfg, s1, Dispatch(g, x, false, z))
    ensures Shaped(cfg, s2) && s2.logs == s.logs && s2.cells[g][y] == s.cells[g][y]
    ensures var off := s.cells[g][x].pos;
            && Dispatches(cfg, s1, Dispatch(g, x, false, z), e, None)
            && s2.cells[g][x] == Cell(s.cells[g][x].committed, true, off + 1,
                                   Settling(off, FailCmds(s.logs[x][off], x, off, z)))
  {
    s1 := Do(cfg, s, Fetch(g, x));
    s2 := Do(cfg, s1, Dispatch(g, x, false, z));
  }

  lemma WriteAndCommit(cfg: Cfg, s2: State, g: nat, x: nat, y: nat, off: nat, rec: Rec, z: nat, e: Envelope)
    returns (s3: State, s4: State)
    requires x != y && HasCell(cfg, s2, g, x) && Full(s2, x, e) && Waits(cfg, s2, g, y, e)
    requires off < |s2.logs[x]| && rec.body == Some(e) && (z == x || z == y)
    requires s2.cells[g][x].owned && s2.cells[g][x].pos == off + 1
    requires s2.cells[g][x].phase == Settling(off, FailCmds(rec, x, off, z))
    ensures Can(cfg, s2, Exec(g, x)) && s3 == Do(cfg, s2, Exec(g, x))
    ensures Can(cfg, s3, Exec(g, x)) && s4 == Do(cfg, s3, Exec(g, x))
    ensures Waits(cfg, s4, g, x, e) && Waits(cfg, s4, g, y, e) && s4.cells[g][z].pos < |s4.logs[z]|
  {
    s3 := Do(cfg, s2, Exec(g, x));
    assert s3.cells[g][x].phase == Settling(off, AckCmds(x, off)) && s3.cells[g][y] == s2.cells[g][y];
    assert s3.logs == s2.logs[z := s2.logs[z] + [Rec(Some(e), rec.retry + 1)]];
    s4 := Do(cfg, s3, Exec(g, x));
  }

  lemma TwoSteps(cfg: Cfg, s: State, before: seq<Step>, x1: Step, x2: Step, e: Envelope) returns (steps: seq<Step>)
    requires Run(cfg, s, before) && Can(cfg, Final(cfg, s, before), x1)
    requires Can(cfg, Do(cfg, Final(cfg, s, before), x1), x2) && IsProtocol(x1) && IsProtocol(x2)
    ensures GoesOn(cfg, s, before, steps, 2, One(Dispatches(cfg, Do(cfg, Final(cfg, s, before), x1), x2, e, None)), e)
    ensures Final(cfg, s, steps) == Do(cfg, Do(cfg, Final(cfg, s, before), x1), x2)
  {
    CountsExtend(cfg, s, before, x1, e);
    CountsExtend(cfg, s, before + [x1], x2, e);
    steps := before + [x1] + [x2];
  }

  lemma {:induction false} Laps(cfg: Cfg, s: State, before: seq<Step>, g: nat, p: nat, q: nat, e: Envelope, k: nat)
    returns (steps: seq<Step>)
    requires Run(cfg, s, before) && Spins(cfg, Final(cfg, s, before), g, p, q, e)
    ensures GoesOn(cfg, s, before, steps, 4 * k, k, e)
    decreases k
  {
    steps := before;
    if k > 0 {
      var lap := Lap(cfg, s, before, g, p, q, e);
      steps := Laps(cfg, s, lap, g, p, q, e, k - 1);
    }
  }

  /** One publish and one worker that owns both topics are enough to start with. */
  lemma Spinning(cfg: Cfg, g: nat, p: nat, q: nat, e: Envelope) returns (start: State, steps: seq<Step>)
    requires cfg.Loops(g, e.eventType, p, q)
    ensures Init(cfg, start) && Run(cfg, start, steps) && Spins(cfg, Final(cfg, start, steps), g, p, q, e)
    ensures Publishes(steps, e) == 1 && Stopped(cfg, start, steps, e, None) == 0
  {
    start := Empty(cfg);
    var s1, s2 := Starting(cfg, g, p, q, e);
    var one := [] + [Publish(p, e)];
    var two := one + [Assign(g, p)];
    CountsExtend(cfg, start, [], Publish(p, e), e);
    CountsExtend(cfg, start, one, Assign(g, p), e);
    CountsExtend(cfg, start, two, Assign(g, q), e);
    steps := two + [Assign(g, q)];
  }

  lemma Starting(cfg: Cfg, g: nat, p: nat, q: nat, e: Envelope) returns (s1: State, s2: State)
    requires cfg.Loops(g, e.eventType, p, q)
    ensures Can(cfg, Empty(cfg), Publish(p, e)) && s1 == Do(cfg, Empty(cfg), Publish(p, e))
    ensures Can(cfg, s1, Assign(g, p)) && s2 == Do(cfg, s1, Assign(g, p))
    ensures Can(cfg, s2, Assign(g, q)) && Spins(cfg, Do(cfg, s2, Assign(g, q)), g, p, q, e)
  {
    DlqTopicIsMainTopicIff(cfg, e.eventType + ".dlq", e.eventType);
    DlqTopicIsMainTopicIff(cfg, e.eventType, e.eventType);
    assert cfg.Assignable(g, p) && cfg.Assignable(g, q);
    s1 := Do(cfg, Empty(cfg), Publish(p, e));
    s2 := Do(cfg, s1, Assign(g, p));
  }
}
