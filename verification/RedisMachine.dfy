/** The Redis Streams backend for one stream as a step machine: entries get
    increasing ids, every consumer group has read up to some id and keeps a list of
    delivered but unacknowledged entries with a delivery count each, and the workers
    of a group each hold the batch of their last read or claim. Group state is never
    trimmed or deleted here. */
module RedisMachine {
  import opened Wrappers
  import opened Events

  /** XREADGROUP and XAUTOCLAIM are both called with count=10. */
  const BATCH: nat := 10

  /** One element of a group's pending list. */
  datatype Claim = Claim(owner: nat, count: nat)

  /** Ack is XACK; Bury is the MULTI/EXEC of XADD to the dead letters and XACK. */
  datatype Cmd = Ack | Bury

  /** What a worker does with the entry it last yielded. Failing: fail() was called
      and has not yet read the delivery count. */
  datatype Phase = Idle | Held(id: nat) | Failing(id: nat) | Settling(id: nat, cmd: Cmd)

  datatype Worker = Worker(batch: seq<nat>, phase: Phase)

  datatype Group = Group(last: nat, pel: map<nat, Claim>, workers: seq<Worker>)

  datatype DeadLetter = DeadLetter(group: nat, id: nat, e: Envelope)

  /** entries[id] is None for an entry without readable data. */
  datatype State = State(
    entries: seq<Option<Envelope>>,
    groups: seq<Group>,
    dlq: seq<DeadLetter>,
    done: set<(nat, nat)>,
    failed: set<(nat, nat)>)

  /** maxRetries[g] is the MAX_RETRIES of the service behind group g. */
  datatype Cfg = Cfg(maxRetries: seq<int>)

  datatype Step =
    | Add(body: Option<Envelope>)                  // XADD by publish(), or by somebody else
    | Read(g: nat, w: nat, k: nat)                 // XREADGROUP ">" returned k entries
    | Reclaim(g: nat, w: nat, ids: seq<nat>)       // XAUTOCLAIM returned these entries
    | Next(g: nat, w: nat)                         // the generator goes on to the next entry
    | Dispatch(g: nat, w: nat, ok: bool)
    | Decide(g: nat, w: nat)                       // fail() reads the delivery count
    | Exec(g: nat, w: nat)
    | Crash(g: nat, w: nat)

  predicate HasWorker(s: State, g: nat, w: nat) {
    g < |s.groups| && w < |s.groups[g].workers|
  }

  predicate Ascending(ids: seq<nat>) {
    forall i, j | 0 <= i < j < |ids| :: ids[i] < ids[j]
  }

  function NewIds(last: nat, k: nat): (ids: seq<nat>)
    ensures Ascending(ids)
    ensures forall id: nat :: id in ids <==> last <= id < last + k
  {
    if k == 0 then [] else
      var ids := NewIds(last, k - 1);
      assert forall i | 0 <= i < |ids| :: ids[i] in ids;
      ids + [last + k - 1]
  }

  predicate Free(s: State, g: nat, w: nat) {
    HasWorker(s, g, w) && s.groups[g].workers[w] == Worker([], Idle)
  }

  ghost predicate Can(cfg: Cfg, s: State, step: Step) {
    |s.groups| == |cfg.maxRetries| &&
    match step
    case Add(_) => true
    case Read(g, w, k) => Free(s, g, w) && 1 <= k <= BATCH && s.groups[g].last + k <= |s.entries|
    case Reclaim(g, w, ids) =>
      Free(s, g, w) && |ids| <= BATCH && Ascending(ids) && forall id | id in ids :: id in s.groups[g].pel
    case Next(g, w) =>
      HasWorker(s, g, w) && var k := s.groups[g].workers[w];
      k.batch != [] && k.phase.Idle? && k.batch[0] < |s.entries|
    case Dispatch(g, w, _) => HasWorker(s, g, w) && s.groups[g].workers[w].phase.Held?
    case Decide(g, w) => HasWorker(s, g, w) && s.groups[g].workers[w].phase.Failing?
    case Exec(g, w) =>
      HasWorker(s, g, w) && var p := s.groups[g].workers[w].phase;
      p.Settling? && (p.cmd.Bury? ==> p.id < |s.entries| && s.entries[p.id].Some?)
    case Crash(g, w) => HasWorker(s, g, w)
  }

  function SetGroup(s: State, g: nat, x: Group): State
    requires g < |s.groups|
  {
    s.(groups := s.groups[g := x])
  }

  function SetWorker(x: Group, w: nat, k: Worker): Group
    requires w < |x.workers|
  {
    x.(workers := x.workers[w := k])
  }

  function SetPhase(s: State, g: nat, w: nat, p: Phase): State
    requires HasWorker(s, g, w)
  {
    SetGroup(s, g, SetWorker(s.groups[g], w, s.groups[g].workers[w].(phase := p)))
  }

  /** XPENDING for one id; fail() takes 1 when the entry is no longer pending. */
  function DeliveryCount(x: Group, id: nat): nat {
    if id in x.pel then x.pel[id].count else 1
  }

  /** fail() returns False. */
  predicate Retries(cfg: Cfg, s: State, g: nat, id: nat)
    requires g < |s.groups| == |cfg.maxRetries|
  {
    DeliveryCount(s.groups[g], id) < cfg.maxRetries[g]
  }

  function Delivered(pel: map<nat, Claim>, last: nat, k: nat, w: nat): map<nat, Claim> {
    pel + map id | id in NewIds(last, k) :: Claim(w, 1)
  }

  function Reclaimed(pel: map<nat, Claim>, ids: seq<nat>, w: nat): map<nat, Claim> {
    map id | id in pel :: if id in ids then Claim(w, pel[id].count + 1) else pel[id]
  }

  ghost function Do(cfg: Cfg, s: State, step: Step): State
    requires Can(cfg, s, step)
  {
    match step
    case Add(body) => s.(entries := s.entries + [body])
    case Read(g, w, k) =>
      var x := s.groups[g];
      SetGroup(s, g, SetWorker(x, w, Worker(NewIds(x.last, k), Idle))
                       .(last := x.last + k, pel := Delivered(x.pel, x.last, k, w)))
    case Reclaim(g, w, ids) =>
      var x := s.groups[g];
      SetGroup(s, g, SetWorker(x, w, Worker(ids, Idle)).(pel := Reclaimed(x.pel, ids, w)))
    case Next(g, w) =>
      var x := s.groups[g];
      var id, rest := x.workers[w].batch[0], x.workers[w].batch[1..];
      SetGroup(s, g, SetWorker(x, w, Worker(rest, if s.entries[id].Some? then Held(id) else Settling(id, Ack))))
    case Dispatch(g, w, ok) =>
      var id := s.groups[g].workers[w].phase.id;
      if ok then SetPhase(s, g, w, Settling(id, Ack)).(done := s.done + {(g, id)})
      else SetPhase(s, g, w, Failing(id)).(failed := s.failed + {(g, id)})
    case Decide(g, w) =>
      var id := s.groups[g].workers[w].phase.id;
      SetPhase(s, g, w, if Retries(cfg, s, g, id) then Idle else Settling(id, Bury))
    case Exec(g, w) =>
      var x := s.groups[g];
      var p := x.workers[w].phase;
      var s1 := SetGroup(s, g, SetWorker(x, w, x.workers[w].(phase := Idle)).(pel := x.pel - {p.id}));
      if p.cmd.Ack? then s1 else s1.(dlq := s.dlq + [DeadLetter(g, p.id, s.entries[p.id].value)])
    case Crash(g, w) => SetGroup(s, g, SetWorker(s.groups[g], w, Worker([], Idle)))
  }

  /** Groups are created at id 0 by listen(), so they see the whole history. */
  ghost predicate Init(cfg: Cfg, s: State) {
    && |s.groups| == |cfg.maxRetries|
    && (forall g: nat | g < |s.groups| :: s.groups[g].last == 0 && s.groups[g].pel == map[])
    && (forall g: nat, w: nat | HasWorker(s, g, w) :: s.groups[g].workers[w] == Worker([], Idle))
    && s.dlq == [] && s.done == {} && s.failed == {}
  }

  ghost predicate Run(cfg: Cfg, s: State, steps: seq<Step>)
    decreases |steps|, 0
  {
    steps == [] ||
    var n := |steps| - 1;
    Run(cfg, s, steps[..n]) && Can(cfg, Final(cfg, s, steps[..n]), steps[n])
  }

  ghost function Final(cfg: Cfg, s: State, steps: seq<Step>): State
    requires Run(cfg, s, steps)
    decreases |steps|, 1
  {
    if steps == [] then s else
      var n := |steps| - 1;
      Do(cfg, Final(cfg, s, steps[..n]), steps[n])
  }

  lemma RunExtends(cfg: Cfg, s: State, steps: seq<Step>, step: Step)
    requires Run(cfg, s, steps) && Can(cfg, Final(cfg, s, steps), step)
    ensures Run(cfg, s, steps + [step])
    ensures Final(cfg, s, steps + [step]) == Do(cfg, Final(cfg, s, steps), step)
  {
    assert (steps + [step])[..|steps|] == steps;
  }

  // ----- a run with its states, as the code records it

  ghost predicate StepAt(cfg: Cfg, trail: seq<State>, steps: seq<Step>, i: nat) {
    && i < |steps| && i + 1 < |trail|
    && Can(cfg, trail[i], steps[i]) && trail[i + 1] == Do(cfg, trail[i], steps[i])
  }

  ghost predicate Trail(cfg: Cfg, trail: seq<State>, steps: seq<Step>) {
    && |trail| == |steps| + 1
    && Init(cfg, trail[0])
    && forall i: nat | i < |steps| :: StepAt(cfg, trail, steps, i)
  }

  lemma TrailExtends(cfg: Cfg, trail: seq<State>, steps: seq<Step>, step: Step)
    requires Trail(cfg, trail, steps) && Can(cfg, trail[|steps|], step)
    ensures Trail(cfg, trail + [Do(cfg, trail[|steps|], step)], steps + [step])
  {
    var t, xs := trail + [Do(cfg, trail[|steps|], step)], steps + [step];
    forall i: nat | i < |xs| ensures StepAt(cfg, t, xs, i) {
      if i < |steps| { assert StepAt(cfg, trail, steps, i); }
    }
  }

  lemma {:induction false} TrailIsRun(cfg: Cfg, trail: seq<State>, steps: seq<Step>)
    requires Trail(cfg, trail, steps)
    ensures Run(cfg, trail[0], steps) && Final(cfg, trail[0], steps) == trail[|steps|]
  {
    if steps != [] {
      var n := |steps| - 1;
      var t, xs := trail[..n + 1], steps[..n];
      forall i: nat | i < n ensures StepAt(cfg, t, xs, i) { assert StepAt(cfg, trail, steps, i); }
      TrailIsRun(cfg, t, xs);
      assert StepAt(cfg, trail, steps, n);
    }
  }
}
