/** The Kafka backend as a step machine: partition logs that only grow, one
    committed offset per consumer group and partition, and, for a partition that
    some worker currently owns, the position of that worker and what it is doing
    with the message it last polled. One step is one atomic action: a poll, a
    dispatch, a produce, a commit. A worker may stop between any two of them. */
module KafkaMachine {
  import opened Wrappers
  import opened Events

  /** One subscribed service: its consumer group, event types and MAX_RETRIES. */
  datatype GroupCfg = GroupCfg(types: set<string>, maxRetries: int)

  /** topicOf[p] is the topic partition p belongs to. */
  datatype Cfg = Cfg(prefix: string, topicOf: seq<string>, groups: seq<GroupCfg>) {

    function Main(eventType: string): string { prefix + "." + eventType }

    function Dlq(eventType: string): string { Main(eventType) + ".dlq" }

    ghost predicate Subscribes(g: nat, eventType: string) {
      g < |groups| && eventType in groups[g].types
    }

    ghost predicate IsMain(p: nat, eventType: string) {
      p < |topicOf| && topicOf[p] == Main(eventType)
    }

    ghost predicate IsDlq(p: nat, eventType: string) {
      p < |topicOf| && topicOf[p] == Dlq(eventType)
    }

    /** Service g reads events of type u and their dead letters too, each from a topic that exists. */
    ghost predicate Loops(g: nat, u: string, p: nat, q: nat) {
      Subscribes(g, u) && Subscribes(g, u + ".dlq") && IsMain(p, u) && IsDlq(q, u)
    }

    /** No service feeds its dead letters back to itself. */
    ghost predicate LoopFree() {
      forall g: nat, u: string, p: nat, q: nat :: !Loops(g, u, p, q)
    }

    ghost predicate Assignable(g: nat, p: nat) {
      exists t: string :: Subscribes(g, t) && IsMain(p, t)
    }
  }

  /** The dead-letter topic of u is the topic of an event type exactly when that
      type is spelled u + ".dlq". */
  lemma DlqTopicIsMainTopicIff(cfg: Cfg, t: string, u: string)
    ensures cfg.Dlq(u) == cfg.Main(t) <==> t == u + ".dlq"
    ensures cfg.Main(u) == cfg.Main(t) <==> u == t
  {
    var n := |cfg.prefix| + 1;
    assert cfg.Main(t)[n..] == t && cfg.Main(u)[n..] == u;
    assert cfg.Dlq(u)[n..] == u + ".dlq";
    if t == u + ".dlq" {
      assert cfg.Dlq(u) == cfg.Main(t);
    }
  }

  /** body is None for bytes the serializer cannot read. */
  datatype Rec = Rec(body: Option<Envelope>, retry: int)

  datatype Cmd = Produce(part: nat, rec: Rec) | Commit(part: nat, next: nat)

  datatype Phase = Idle | Held(off: nat) | Settling(off: nat, todo: seq<Cmd>)

  /** What group g knows about one partition. */
  datatype Cell = Cell(committed: nat, owned: bool, pos: nat, phase: Phase)

  datatype State = State(
    logs: seq<seq<Rec>>,
    cells: seq<seq<Cell>>,
    published: set<Envelope>,
    done: set<(nat, Envelope)>,
    failed: set<(nat, Envelope)>,
    dead: set<(nat, Envelope)>)

  /** The commands ack() issues. */
  function AckCmds(p: nat, off: nat): seq<Cmd> { [Commit(p, off + 1)] }

  predicate Retries(cfg: Cfg, g: nat, rec: Rec)
    requires g < |cfg.groups|
  {
    rec.retry + 1 < cfg.groups[g].maxRetries
  }

  function FailTopic(cfg: Cfg, g: nat, rec: Rec): string
    requires g < |cfg.groups| && rec.body.Some?
  {
    if Retries(cfg, g, rec) then cfg.Main(rec.body.value.eventType) else cfg.Dlq(rec.body.value.eventType)
  }

  /** The commands fail() issues; the producer picked partition q of the topic. */
  function FailCmds(rec: Rec, p: nat, off: nat, q: nat): seq<Cmd> {
    [Produce(q, Rec(rec.body, rec.retry + 1)), Commit(p, off + 1)]
  }

  datatype Step =
    | Publish(p: nat, e: Envelope)
    | Garbage(p: nat, retry: int)          // unreadable bytes arrive from elsewhere
    | Assign(g: nat, p: nat)               // a worker of g starts on p at the committed offset
    | Lose(g: nat, p: nat)                 // that worker crashed or stopped
    | Fetch(g: nat, p: nat)                // poll() returned the next message
    | Dispatch(g: nat, p: nat, ok: bool, q: nat)
    | Exec(g: nat, p: nat)                 // the next command of ack() or fail() took effect

  ghost predicate Shaped(cfg: Cfg, s: State) {
    && |s.logs| == |cfg.topicOf|
    && |s.cells| == |cfg.groups|
    && forall g: nat | g < |s.cells| :: |s.cells[g]| == |cfg.topicOf|
  }

  ghost predicate HasCell(cfg: Cfg, s: State, g: nat, p: nat) {
    Shaped(cfg, s) && g < |cfg.groups| && p < |cfg.topicOf|
  }

  ghost predicate Can(cfg: Cfg, s: State, step: Step) {
    Shaped(cfg, s) &&
    match step
    case Publish(p, e) => cfg.IsMain(p, e.eventType)
    case Garbage(p, _) => p < |s.logs|
    case Assign(g, p) => HasCell(cfg, s, g, p) && !s.cells[g][p].owned && cfg.Assignable(g, p)
    case Lose(g, p) => HasCell(cfg, s, g, p) && s.cells[g][p].owned
    case Fetch(g, p) =>
      HasCell(cfg, s, g, p) && var c := s.cells[g][p];
      c.owned && c.phase.Idle? && c.pos < |s.logs[p]|
    case Dispatch(g, p, ok, q) =>
      HasCell(cfg, s, g, p) && var c := s.cells[g][p];
      c.owned && c.phase.Held? && c.phase.off < |s.logs[p]| &&
      var rec := s.logs[p][c.phase.off];
      // only a receiver can raise, and a group has receivers for the types it subscribed to only
      rec.body.Some? &&
      (!ok ==> cfg.Subscribes(g, rec.body.value.eventType) && q < |s.logs| && cfg.topicOf[q] == FailTopic(cfg, g, rec))
    case Exec(g, p) =>
      HasCell(cfg, s, g, p) && var c := s.cells[g][p];
      c.owned && c.phase.Settling? && c.phase.todo != [] &&
      match c.phase.todo[0] {
        case Produce(q, rec) => q < |s.logs| && rec.body.Some?
        case Commit(q, next) => q == p
      }
  }

  function SetCell(s: State, g: nat, p: nat, c: Cell): State
    requires g < |s.cells| && p < |s.cells[g]|
  {
    s.(cells := s.cells[g := s.cells[g][p := c]])
  }

  function Append(s: State, p: nat, rec: Rec): State
    requires p < |s.logs|
  {
    s.(logs := s.logs[p := s.logs[p] + [rec]])
  }

  function AfterCmd(phase: Phase): Phase
    requires phase.Settling? && phase.todo != []
  {
    if |phase.todo| == 1 then Idle else Settling(phase.off, phase.todo[1..])
  }

  ghost function Do(cfg: Cfg, s: State, step: Step): State
    requires Can(cfg, s, step)
  {
    match step
    case Publish(p, e) => Append(s, p, Rec(Some(e), 0)).(published := s.published + {e})
    case Garbage(p, retry) => Append(s, p, Rec(None, retry))
    case Assign(g, p) =>
      var c := s.cells[g][p];
      SetCell(s, g, p, Cell(c.committed, true, c.committed, Idle))
    case Lose(g, p) =>
      var c := s.cells[g][p];
      SetCell(s, g, p, Cell(c.committed, false, 0, Idle))
    case Fetch(g, p) =>
      var c := s.cells[g][p];
      var phase := if s.logs[p][c.pos].body.Some? then Held(c.pos) else Settling(c.pos, AckCmds(p, c.pos));
      SetCell(s, g, p, c.(pos := c.pos + 1, phase := phase))
    case Dispatch(g, p, ok, q) =>
      var c := s.cells[g][p];
      var off := c.phase.off;
      var rec := s.logs[p][off];
      if ok then
        SetCell(s, g, p, c.(phase := Settling(off, AckCmds(p, off)))).(done := s.done + {(g, rec.body.value)})
      else
        SetCell(s, g, p, c.(phase := Settling(off, FailCmds(rec, p, off, q))))
          .(failed := s.failed + {(g, rec.body.value)})
    case Exec(g, p) =>
      var c := s.cells[g][p];
      match c.phase.todo[0]
      case Produce(q, rec) =>
        var s1 := Append(SetCell(s, g, p, c.(phase := AfterCmd(c.phase))), q, rec);
        if cfg.IsDlq(q, rec.body.value.eventType) then s1.(dead := s.dead + {(g, rec.body.value)}) else s1
      case Commit(_, next) =>
        SetCell(s, g, p, c.(committed := next, phase := AfterCmd(c.phase)))
  }

  ghost predicate Init(cfg: Cfg, s: State) {
    && Shaped(cfg, s)
    && (forall p: nat | p < |s.logs| :: s.logs[p] == [])
    && (forall g: nat, p: nat | HasCell(cfg, s, g, p) :: s.cells[g][p] == Cell(0, false, 0, Idle))
    && s.published == {} && s.done == {} && s.failed == {} && s.dead == {}
  }

  ghost function Empty(cfg: Cfg): State {
    State(seq(|cfg.topicOf|, _ => []), seq(|cfg.groups|, _ => seq(|cfg.topicOf|, _ => Cell(0, false, 0, Idle))),
          {}, {}, {}, {})
  }

  ghost predicate Run(cfg: Cfg, s: State, steps: seq<Step>)
    decreases |steps|, 0
  {
    steps == [] ||
    var n := |steps| - 1;
    Run(cfg, s, steps[..n]) && Can(cfg, Final(cfg, s, steps[..n]), steps[n])
  }

  ghost function Final(cfg: Cfg, s: State, steps: seq<Step>): State
    requires Run(cfg, s, steps)
    decreases |steps|, 1
  {
    if steps == [] then s else
      var n := |steps| - 1;
      Do(cfg, Final(cfg, s, steps[..n]), steps[n])
  }

  lemma RunExtends(cfg: Cfg, s: State, steps: seq<Step>, step: Step)
    requires Run(cfg, s, steps) && Can(cfg, Final(cfg, s, steps), step)
    ensures Run(cfg, s, steps + [step])
    ensures Final(cfg, s, steps + [step]) == Do(cfg, Final(cfg, s, steps), step)
  {
    assert (steps + [step])[..|steps|] == steps;
  }

  // ----- a run with its states, as the code records it

  ghost predicate StepAt(cfg: Cfg, trail: seq<State>, steps: seq<Step>, i: nat) {
    && i < |steps| && i + 1 < |trail|
    && Can(cfg, trail[i], steps[i]) && trail[i + 1] == Do(cfg, trail[i], steps[i])
  }

  ghost predicate Trail(cfg: Cfg, trail: seq<State>, steps: seq<Step>) {
    && |trail| == |steps| + 1
    && Init(cfg, trail[0])
    && forall i: nat | i < |steps| :: StepAt(cfg, trail, steps, i)
  }

  lemma TrailExtends(cfg: Cfg, trail: seq<State>, steps: seq<Step>, step: Step)
    requires Trail(cfg, trail, steps) && Can(cfg, trail[|steps|], step)
    ensures Trail(cfg, trail + [Do(cfg, trail[|steps|], step)], steps + [step])
  {
    var t, xs := trail + [Do(cfg, trail[|steps|], step)], steps + [step];
    forall i: nat | i < |xs| ensures StepAt(cfg, t, xs, i) {
      if i < |steps| { assert StepAt(cfg, trail, steps, i); }
    }
  }

  lemma {:induction false} TrailIsRun(cfg: Cfg, trail: seq<State>, steps: seq<Step>)
    requires Trail(cfg, trail, steps)
    ensures Run(cfg, trail[0], steps) && Final(cfg, trail[0], steps) == trail[|steps|]
  {
    if steps != [] {
      var n := |steps| - 1;
      var t, xs := trail[..n + 1], steps[..n];
      forall i: nat | i < n ensures StepAt(cfg, t, xs, i) { assert StepAt(cfg, trail, steps, i); }
      TrailIsRun(cfg, t, xs);
      assert StepAt(cfg, trail, steps, n);
    }
  }
}
