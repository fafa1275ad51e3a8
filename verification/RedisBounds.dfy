/** How often fail() can put an entry back, and how often it can bury it. */
module RedisBounds {
  import opened Wrappers
  import opened Events
  import opened Counters
  import opened Sums
  import opened RedisMachine
  import opened RedisConservation

  // ----- deliveries pay for failures

  /** Dispatch results of id this worker may still produce from what it was handed. */
  ghost function Slots(k: Worker, id: nat): nat {
    multiset(k.batch)[id] + (if k.phase == Held(id) || k.phase == Failing(id) then 1 else 0)
  }

  ghost function SlotAt(s: State, g: nat, id: nat): nat -> int {
    (w: nat) => if HasWorker(s, g, w) then Slots(s.groups[g].workers[w], id) else 0
  }

  ghost function AllSlots(s: State, g: nat, id: nat): int
    requires g < |s.groups|
  {
    Upto(|s.groups[g].workers|, SlotAt(s, g, id))
  }

  ghost predicate IsFail(s: State, step: Step, g: nat, id: nat) {
    && step.Decide? && step.g == g && HasWorker(s, g, step.w)
    && s.groups[g].workers[step.w].phase == Failing(id)
  }

  ghost predicate IsRefusal(cfg: Cfg, s: State, step: Step, g: nat, id: nat) {
    && IsFail(s, step, g, id) && |s.groups| == |cfg.maxRetries|
    && Retries(cfg, s, g, id)
  }

  /** Calls of fail() for id that read the delivery count. */
  ghost function Fails(cfg: Cfg, s: State, steps: seq<Step>, g: nat, id: nat): nat
    requires Run(cfg, s, steps)
  {
    if steps == [] then 0 else
      var n := |steps| - 1;
      Fails(cfg, s, steps[..n], g, id) + if IsFail(Final(cfg, s, steps[..n]), steps[n], g, id) then 1 else 0
  }

  /** Those of them that returned False. */
  ghost function Refusals(cfg: Cfg, s: State, steps: seq<Step>, g: nat, id: nat): nat
    requires Run(cfg, s, steps)
  {
    if steps == [] then 0 else
      var n := |steps| - 1;
      Refusals(cfg, s, steps[..n], g, id)
      + if IsRefusal(cfg, Final(cfg, s, steps[..n]), steps[n], g, id) then 1 else 0
  }

  lemma AscendingOnce(ids: seq<nat>, id: nat)
    requires Ascending(ids)
    ensures multiset(ids)[id] == if id in ids then 1 else 0
  {
    if ids != [] {
      var n := |ids| - 1;
      assert ids == ids[..n] + [ids[n]];
      AscendingOnce(ids[..n], id);
      assert id in ids <==> id in ids[..n] || id == ids[n];
    }
  }

  lemma OneWorker(s: State, t: State, g: nat, w: nat, id: nat)
    requires HasWorker(s, g, w) && g < |t.groups| && |t.groups[g].workers| == |s.groups[g].workers|
    requires forall v: nat | v < |s.groups[g].workers| && v != w :: t.groups[g].workers[v] == s.groups[g].workers[v]
    ensures AllSlots(t, g, id)
            == AllSlots(s, g, id) - Slots(s.groups[g].workers[w], id) + Slots(t.groups[g].workers[w], id)
  {
    UptoChange(|s.groups[g].workers|, SlotAt(s, g, id), SlotAt(t, g, id), w);
  }

  /** What is known about id in group g after n fail() calls, r of which returned False. */
  ghost predicate Paid(cfg: Cfg, s: State, g: nat, id: nat, n: nat, r: nat)
    requires g < |s.groups| == |cfg.maxRetries|
  {
    && r <= n
    && (id >= s.groups[g].last ==> n == 0 && AllSlots(s, g, id) == 0)
    && (id in s.groups[g].pel ==>
          && n + AllSlots(s, g, id) <= s.groups[g].pel[id].count
          && r <= Tries(cfg.maxRetries[g]) - 1)
  }

  lemma SlotsPositive(s: State, g: nat, id: nat, w: nat)
    requires HasWorker(s, g, w)
    ensures AllSlots(s, g, id) >= Slots(s.groups[g].workers[w], id)
  {
    UptoAtLeast(|s.groups[g].workers|, SlotAt(s, g, id), w);
  }

  lemma SlotsStep(cfg: Cfg, s: State, step: Step, g: nat, id: nat)
    requires Inv(cfg, s) && Can(cfg, s, step) && g < |s.groups|
    ensures var t := Do(cfg, s, step);
            AllSlots(t, g, id) <= AllSlots(s, g, id)
              + (if step.Reclaim? && step.g == g && id in step.ids then 1 else 0)
              + (if step.Read? && step.g == g && s.groups[g].last <= id < t.groups[g].last then 1 else 0)
              - (if IsFail(s, step, g, id) then 1 else 0)
  {
    var t := Do(cfg, s, step);
    if step.Add? || step.g != g {
      UptoSame(|s.groups[g].workers|, SlotAt(s, g, id), SlotAt(t, g, id));
    } else {
      OneWorker(s, t, g, step.w, id);
      WorkerAfterIs(cfg, s, step);
      WorkerSlots(cfg, s, step, id);
    }
  }

  /** The acting worker after the step. */
  ghost function WorkerAfter(cfg: Cfg, s: State, step: Step): Worker
    requires Can(cfg, s, step) && !step.Add?
  {
    var x, k := s.groups[step.g], s.groups[step.g].workers[step.w];
    match step
    case Read(_, _, n) => Worker(NewIds(x.last, n), Idle)
    case Reclaim(_, _, ids) => Worker(ids, Idle)
    case Next(_, _) =>
      Worker(k.batch[1..], if s.entries[k.batch[0]].Some? then Held(k.batch[0]) else Settling(k.batch[0], Ack))
    case Dispatch(_, _, ok) => k.(phase := if ok then Settling(k.phase.id, Ack) else Failing(k.phase.id))
    case Decide(g, _) => k.(phase := if Retries(cfg, s, g, k.phase.id) then Idle else Settling(k.phase.id, Bury))
    case Exec(_, _) => k.(phase := Idle)
    case Crash(_, _) => Worker([], Idle)
  }

  lemma WorkerAfterIs(cfg: Cfg, s: State, step: Step)
    requires Can(cfg, s, step) && !step.Add?
    ensures var t := Do(cfg, s, step);
            HasWorker(t, step.g, step.w) && t.groups[step.g].workers[step.w] == WorkerAfter(cfg, s, step)
    ensures Do(cfg, s, step).groups[step.g].last == s.groups[step.g].last + if step.Read? then step.k else 0
  {
  }

  lemma WorkerSlots(cfg: Cfg, s: State, step: Step, id: nat)
    requires Can(cfg, s, step) && !step.Add?
    ensures var last := s.groups[step.g].last;
            Slots(WorkerAfter(cfg, s, step), id) <= Slots(s.groups[step.g].workers[step.w], id)
              + (if step.Reclaim? && id in step.ids then 1 else 0)
              + (if step.Read? && last <= id < last + step.k then 1 else 0)
              - (if IsFail(s, step, step.g, id) then 1 else 0)
  {
    var k := s.groups[step.g].workers[step.w];
    if step.Reclaim? {
      AscendingOnce(step.ids, id);
    } else if step.Read? {
      AscendingOnce(NewIds(s.groups[step.g].last, step.k), id);
    } else if step.Next? {
      assert k.batch == [k.batch[0]] + k.batch[1..];
    }
  }

  lemma PaidStep(cfg: Cfg, s: State, step: Step, g: nat, id: nat, n: nat, r: nat)
    requires Inv(cfg, s) && Can(cfg, s, step) && g < |s.groups| && Paid(cfg, s, g, id, n, r)
    ensures Paid(cfg, Do(cfg, s, step), g, id,
                 n + (if IsFail(s, step, g, id) then 1 else 0),
                 r + (if IsRefusal(cfg, s, step, g, id) then 1 else 0))
  {
    var t := Do(cfg, s, step);
    SlotsStep(cfg, s, step, g, id);
    UptoNonNegative(|t.groups[g].workers|, SlotAt(t, g, id));
    if IsFail(s, step, g, id) {
      assert WorkerOk(s, g, step.w);
      SlotsPositive(s, g, id, step.w);
    }
  }

  lemma {:induction false} PaidRun(cfg: Cfg, s: State, steps: seq<Step>, g: nat, id: nat)
    requires Init(cfg, s) && Run(cfg, s, steps) && g < |cfg.maxRetries|
    ensures |Final(cfg, s, steps).groups| == |cfg.maxRetries|
    ensures Paid(cfg, Final(cfg, s, steps), g, id, Fails(cfg, s, steps, g, id), Refusals(cfg, s, steps, g, id))
  {
    if steps == [] {
      forall w: nat | w < |s.groups[g].workers| ensures SlotAt(s, g, id)(w) == 0 { assert HasWorker(s, g, w); }
      UptoConst(|s.groups[g].workers|, SlotAt(s, g, id), 0);
    } else {
      var n := |steps| - 1;
      PaidRun(cfg, s, steps[..n], g, id);
      RunKeepsInv(cfg, s, steps[..n]);
      PaidStep(cfg, Final(cfg, s, steps[..n]), steps[n], g, id,
               Fails(cfg, s, steps[..n], g, id), Refusals(cfg, s, steps[..n], g, id));
    }
  }

  /** While an entry is pending, all workers of the group together have called
      fail() for it no more often than it was delivered, and fail() returned False
      at most M - 1 times. */
  lemma RetriesBounded(cfg: Cfg, s: State, steps: seq<Step>, g: nat, id: nat)
    requires Init(cfg, s) && Run(cfg, s, steps) && g < |cfg.maxRetries|
    ensures var t := Final(cfg, s, steps);
            g < |t.groups| && (id in t.groups[g].pel ==>
              && Fails(cfg, s, steps, g, id) <= t.groups[g].pel[id].count
              && Refusals(cfg, s, steps, g, id) <= Tries(cfg.maxRetries[g]) - 1)
  {
    PaidRun(cfg, s, steps, g, id);
    var t := Final(cfg, s, steps);
    UptoNonNegative(|t.groups[g].workers|, SlotAt(t, g, id));
  }

  // ----- one worker at a time buries an entry at most once

  ghost predicate Tidy(s: State, g: nat) {
    && g < |s.groups| && |s.groups[g].workers| == 1
    && TidyWorker(s.groups[g].pel, s.groups[g].workers[0])
    && TidyDead(s.dlq, g, s.groups[g])
  }

  /** What the worker has in hand is pending and in order. */
  ghost predicate TidyWorker(pel: map<nat, Claim>, k: Worker) {
    && Ascending(k.batch)
    && (forall id | id in k.batch :: id in pel)
    && (!k.phase.Idle? ==> k.phase.id in pel && forall id | id in k.batch :: k.phase.id < id)
  }

  /** What was buried is known to the group, no longer pending, and buried once. */
  ghost predicate TidyDead(dlq: seq<DeadLetter>, g: nat, x: Group) {
    && (forall i: nat | i < |dlq| && dlq[i].group == g :: dlq[i].id < x.last && dlq[i].id !in x.pel)
    && (forall i: nat, j: nat | i < j < |dlq| && dlq[i].group == dlq[j].group == g :: dlq[i].id != dlq[j].id)
  }

  lemma TidyStep(cfg: Cfg, s: State, step: Step, g: nat)
    requires Inv(cfg, s) && Can(cfg, s, step) && Tidy(s, g)
    ensures Tidy(Do(cfg, s, step), g)
  {
    var t := Do(cfg, s, step);
    if step.Add? || step.g != g {
      assert t.groups[g] == s.groups[g];
      assert TidyDead(t.dlq, g, t.groups[g]);
    } else {
      TidyOwnStep(cfg, s, step);
      TidyDeadStep(cfg, s, step);
    }
  }

  lemma TidyOwnStep(cfg: Cfg, s: State, step: Step)
    requires Inv(cfg, s) && Can(cfg, s, step) && !step.Add? && Tidy(s, step.g)
    ensures TidyWorker(Do(cfg, s, step).groups[step.g].pel, WorkerAfter(cfg, s, step))
  {
    if step.Next? {
      var b := s.groups[step.g].workers[0].batch;
      assert b[0] in b;
      forall id | id in b[1..] ensures b[0] < id && id in s.groups[step.g].pel {
        var i :| 0 <= i < |b[1..]| && b[1..][i] == id;
        assert b[1 + i] == id;
      }
    }
  }

  lemma TidyDeadStep(cfg: Cfg, s: State, step: Step)
    requires Inv(cfg, s) && Can(cfg, s, step) && !step.Add? && Tidy(s, step.g)
    ensures var t := Do(cfg, s, step);
            && |t.groups[step.g].workers| == 1 && t.groups[step.g].workers[0] == WorkerAfter(cfg, s, step)
            && TidyDead(t.dlq, step.g, t.groups[step.g])
  {
    WorkerAfterIs(cfg, s, step);
    assert TidyWorker(s.groups[step.g].pel, s.groups[step.g].workers[0]);
    assert forall id | id in s.groups[step.g].pel :: id < s.groups[step.g].last;
  }

  /** With one worker at a time, crashes and restarts included, each entry of the
      stream is dead-lettered at most once by the group. */
  lemma {:induction false} BuriedAtMostOnce(cfg: Cfg, s: State, steps: seq<Step>, g: nat)
    requires Init(cfg, s) && Run(cfg, s, steps) && g < |cfg.maxRetries| && |s.groups[g].workers| == 1
    ensures Tidy(Final(cfg, s, steps), g)
    ensures var dlq := Final(cfg, s, steps).dlq;
            forall i: nat, j: nat | i < j < |dlq| && dlq[i].group == dlq[j].group == g :: dlq[i].id != dlq[j].id
  {
    if steps == [] {
      assert HasWorker(s, g, 0);
    } else {
      var n := |steps| - 1;
      BuriedAtMostOnce(cfg, s, steps[..n], g);
      RunKeepsInv(cfg, s, steps[..n]);
      TidyStep(cfg, Final(cfg, s, steps[..n]), steps[n], g);
    }
  }

  // ----- two workers can bury it twice

  ghost predicate BuriedTwice(s: State, g: nat) {
    exists i: nat, j: nat :: i < j < |s.dlq| && s.dlq[i].group == g && s.dlq[j].group == g && s.dlq[i].id == s.dlq[j].id
  }

  /** The stream holds e alone, the group has read it, c is its delivery count if it is
      pending, a and b are the first two workers, and it was buried d times. */
  ghost predicate Stage(cfg: Cfg, s: State, g: nat, e: Envelope, c: nat, a: Worker, b: Worker, d: nat) {
    && |s.groups| == |cfg.maxRetries| && g < |s.groups| && |s.groups[g].workers| >= 2
    && s.entries == [Some(e)] && s.groups[g].last == 1
    && (c > 0 ==> 0 in s.groups[g].pel && s.groups[g].pel[0].count == c)
    && s.groups[g].workers[0] == a && s.groups[g].workers[1] == b
    && |s.dlq| == d && forall i: nat | i < d :: s.dlq[i].group == g && s.dlq[i].id == 0
  }

  ghost predicate Reaches(cfg: Cfg, s: State, steps: seq<Step>, g: nat, e: Envelope, c: nat, a: Worker, b: Worker, d: nat) {
    Run(cfg, s, steps) && Stage(cfg, Final(cfg, s, steps), g, e, c, a, b, d)
  }

  /** The worker that acts, before and after. */
  function Acting(w: nat, a: Worker, b: Worker): Worker { if w == 0 then a else b }

  lemma StageStep(
      cfg: Cfg, s: State, steps: seq<Step>, g: nat, e: Envelope, c: nat, a: Worker, b: Worker, d: nat,
      x: Step, w: nat, c': nat, k: Worker, d': nat)
    requires Reaches(cfg, s, steps, g, e, c, a, b, d) && Can(cfg, Final(cfg, s, steps), x)
    requires Stage(cfg, Do(cfg, Final(cfg, s, steps), x), g, e, c', if w == 0 then k else a, if w == 1 then k else b, d')
    ensures Reaches(cfg, s, steps + [x], g, e, c', if w == 0 then k else a, if w == 1 then k else b, d')
  {
    RunExtends(cfg, s, steps, x);
  }

  const IDLE: Worker := Worker([], Idle)
  const CLAIMED: Worker := Worker([0], Idle)

  /** A free worker reclaims the entry. */
  lemma Reclaims(
      cfg: Cfg, s: State, steps: seq<Step>, g: nat, e: Envelope, c: nat, a: Worker, b: Worker, w: nat)
    requires Reaches(cfg, s, steps, g, e, c, a, b, 0) && w < 2 && c > 0 && Acting(w, a, b) == IDLE
    ensures Reaches(cfg, s, steps + [Reclaim(g, w, [0])], g, e, c + 1,
                    if w == 0 then CLAIMED else a, if w == 1 then CLAIMED else b, 0)
  {
    StageStep(cfg, s, steps, g, e, c, a, b, 0, Reclaim(g, w, [0]), w, c + 1, CLAIMED, 0);
  }

  lemma Crashes(cfg: Cfg, s: State, steps: seq<Step>, g: nat, e: Envelope, c: nat, a: Worker, b: Worker)
    requires Reaches(cfg, s, steps, g, e, c, a, b, 0)
    ensures Reaches(cfg, s, steps + [Crash(g, 0)], g, e, c, IDLE, b, 0)
  {
    StageStep(cfg, s, steps, g, e, c, a, b, 0, Crash(g, 0), 0, c, IDLE, 0);
  }

  /** It goes on with what it claimed, and the dispatch fails. */
  lemma FailsIt(
      cfg: Cfg, s: State, steps: seq<Step>, g: nat, e: Envelope, c: nat, a: Worker, b: Worker, w: nat)
    requires Reaches(cfg, s, steps, g, e, c, a, b, 0) && w < 2 && Acting(w, a, b) == CLAIMED
    ensures var k := Worker([], Failing(0));
            Reaches(cfg, s, steps + [Next(g, w)] + [Dispatch(g, w, false)], g, e, c,
                    if w == 0 then k else a, if w == 1 then k else b, 0)
  {
    var held := Worker([], Held(0));
    StageStep(cfg, s, steps, g, e, c, a, b, 0, Next(g, w), w, c, held, 0);
    StageStep(cfg, s, steps + [Next(g, w)], g, e, c, if w == 0 then held else a, if w == 1 then held else b, 0,
              Dispatch(g, w, false), w, c, Worker([], Failing(0)), 0);
  }

  /** fail() reads a delivery count that is high enough. */
  lemma Decides(
      cfg: Cfg, s: State, steps: seq<Step>, g: nat, e: Envelope, c: nat, a: Worker, b: Worker, w: nat)
    requires Reaches(cfg, s, steps, g, e, c, a, b, 0) && w < 2 && Acting(w, a, b) == Worker([], Failing(0))
    requires c > 0 && c >= cfg.maxRetries[g]
    ensures var k := Worker([], Settling(0, Bury));
            Reaches(cfg, s, steps + [Decide(g, w)], g, e, c, if w == 0 then k else a, if w == 1 then k else b, 0)
  {
    StageStep(cfg, s, steps, g, e, c, a, b, 0, Decide(g, w), w, c, Worker([], Settling(0, Bury)), 0);
  }

  lemma Buries(
      cfg: Cfg, s: State, steps: seq<Step>, g: nat, e: Envelope, c: nat, a: Worker, b: Worker, w: nat, d: nat)
    requires Reaches(cfg, s, steps, g, e, c, a, b, d) && w < 2 && Acting(w, a, b) == Worker([], Settling(0, Bury))
    ensures Reaches(cfg, s, steps + [Exec(g, w)], g, e, 0,
                    if w == 0 then IDLE else a, if w == 1 then IDLE else b, d + 1)
  {
    StageStep(cfg, s, steps, g, e, c, a, b, d, Exec(g, w), w, 0, IDLE, d + 1);
  }

  lemma DeliveredOnce(cfg: Cfg, s: State, g: nat, e: Envelope) returns (steps: seq<Step>)
    requires Init(cfg, s) && s.entries == [] && g < |s.groups| && |s.groups[g].workers| >= 2
    ensures Reaches(cfg, s, steps, g, e, 1, CLAIMED, IDLE, 0)
  {
    assert HasWorker(s, g, 0) && HasWorker(s, g, 1);
    var added := s.(entries := [Some(e)]);
    RunExtends(cfg, s, [], Add(Some(e)));
    steps := [] + [Add(Some(e))];
    assert Final(cfg, s, steps) == added;
    FirstRead(cfg, added, g, e);
    RunExtends(cfg, s, steps, Read(g, 0, 1));
    steps := steps + [Read(g, 0, 1)];
  }

  lemma FirstRead(cfg: Cfg, s: State, g: nat, e: Envelope)
    requires |s.groups| == |cfg.maxRetries| && g < |s.groups| && |s.groups[g].workers| >= 2
    requires s.entries == [Some(e)] && s.dlq == [] && s.groups[g].last == 0 && s.groups[g].pel == map[]
    requires s.groups[g].workers[0] == IDLE && s.groups[g].workers[1] == IDLE
    ensures Can(cfg, s, Read(g, 0, 1))
    ensures Stage(cfg, Do(cfg, s, Read(g, 0, 1)), g, e, 1, CLAIMED, IDLE, 0)
  {
    assert NewIds(0, 1) == NewIds(0, 0) + [0] == [0];
  }

  /** Read once and reclaimed by the first worker, which crashed each time. */
  lemma {:induction false} DeliveredTimes(cfg: Cfg, s: State, g: nat, e: Envelope, c: nat) returns (steps: seq<Step>)
    requires Init(cfg, s) && s.entries == [] && g < |s.groups| && |s.groups[g].workers| >= 2 && c >= 1
    ensures Reaches(cfg, s, steps, g, e, c, CLAIMED, IDLE, 0)
    decreases c
  {
    if c == 1 {
      steps := DeliveredOnce(cfg, s, g, e);
    } else {
      var before := DeliveredTimes(cfg, s, g, e, c - 1);
      Crashes(cfg, s, before, g, e, c - 1, CLAIMED, IDLE);
      var crashed := before + [Crash(g, 0)];
      Reclaims(cfg, s, crashed, g, e, c - 1, IDLE, IDLE, 0);
      steps := crashed + [Reclaim(g, 0, [0])];
    }
  }

  /** Both of the first two workers are failing the entry, with a count at the limit. */
  lemma BothFail(cfg: Cfg, s: State, g: nat, e: Envelope) returns (steps: seq<Step>, c: nat)
    requires Init(cfg, s) && s.entries == [] && g < |s.groups| && |s.groups[g].workers| >= 2
    ensures c > 0 && c >= cfg.maxRetries[g]
    ensures Reaches(cfg, s, steps, g, e, c, Worker([], Failing(0)), Worker([], Failing(0)), 0)
  {
    c := Tries(cfg.maxRetries[g]) + 1;
    var claimed := DeliveredTimes(cfg, s, g, e, c - 1);
    FailsIt(cfg, s, claimed, g, e, c - 1, CLAIMED, IDLE, 0);
    var first := claimed + [Next(g, 0)] + [Dispatch(g, 0, false)];
    Reclaims(cfg, s, first, g, e, c - 1, Worker([], Failing(0)), IDLE, 1);
    var both := first + [Reclaim(g, 1, [0])];
    FailsIt(cfg, s, both, g, e, c, Worker([], Failing(0)), CLAIMED, 1);
    steps := both + [Next(g, 1)] + [Dispatch(g, 1, false)];
  }

  lemma TwoWorkersBuryTwice(cfg: Cfg, s: State, g: nat, e: Envelope) returns (steps: seq<Step>)
    requires Init(cfg, s) && s.entries == [] && g < |s.groups| && |s.groups[g].workers| >= 2
    ensures Run(cfg, s, steps) && BuriedTwice(Final(cfg, s, steps), g)
  {
    var failing, burying, c := Worker([], Failing(0)), Worker([], Settling(0, Bury)), 0;
    steps, c := BothFail(cfg, s, g, e);
    Decides(cfg, s, steps, g, e, c, failing, failing, 0);
    steps := steps + [Decide(g, 0)];
    Decides(cfg, s, steps, g, e, c, burying, failing, 1);
    steps := steps + [Decide(g, 1)];
    Buries(cfg, s, steps, g, e, c, burying, burying, 0, 0);
    steps := steps + [Exec(g, 0)];
    Buries(cfg, s, steps, g, e, 0, IDLE, burying, 1, 1);
    steps := steps + [Exec(g, 1)];
    var t := Final(cfg, s, steps);
    assert t.dlq[0].group == g && t.dlq[1].group == g && t.dlq[0].id == t.dlq[1].id;
  }

  /** n idle workers of group g, none of any other group. */
  ghost function Starting(cfg: Cfg, g: nat, n: nat): State {
    State([], seq(|cfg.maxRetries|, i => Group(0, map[], if i == g then seq(n, _ => IDLE) else [])), [], {}, {})
  }

  ghost predicate SomeRunBuriesTwice(cfg: Cfg, g: nat, n: nat) {
    exists s, steps :: Init(cfg, s) && g < |s.groups| && |s.groups[g].workers| == n
                       && Run(cfg, s, steps) && BuriedTwice(Final(cfg, s, steps), g)
  }

  /** Whatever MAX_RETRIES is: n >= 1 workers of a group can dead-letter an entry twice
      exactly when there are at least two of them. */
  lemma BuriedTwiceIff(cfg: Cfg, g: nat, n: nat)
    requires g < |cfg.maxRetries| && n >= 1
    ensures SomeRunBuriesTwice(cfg, g, n) <==> n >= 2
  {
    if n >= 2 {
      var s := Starting(cfg, g, n);
      var steps := TwoWorkersBuryTwice(cfg, s, g, Envelope("", "", map[]));
    }
    if n == 1 && SomeRunBuriesTwice(cfg, g, n) {
      var s, steps :| Init(cfg, s) && g < |s.groups| && |s.groups[g].workers| == n
                      && Run(cfg, s, steps) && BuriedTwice(Final(cfg, s, steps), g);
      BuriedAtMostOnce(cfg, s, steps, g);
    }
  }
}
