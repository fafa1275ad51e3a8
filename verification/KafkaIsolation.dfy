/** Groups of one topic are not isolated from each other's retries: a retry is
    republished on the topic all of them read. When that happens, and when it cannot. */
module KafkaIsolation {
  import opened Wrappers
  import opened Events
  import opened KafkaMachine
  import opened KafkaConservation
  import opened KafkaRefinement
  import Alo = AtLeastOnce

  /** The next command of (g, p) is a retry. */
  ghost predicate IsRetry(cfg: Cfg, s: State, g: nat, p: nat) {
    && Can(cfg, s, Exec(g, p)) && s.cells[g][p].phase.todo[0].Produce?
    && var todo := s.cells[g][p].phase.todo[0]; cfg.IsMain(todo.part, todo.rec.body.value.eventType)
  }

  ghost function Retried(cfg: Cfg, s: State, g: nat, p: nat): Envelope
    requires IsRetry(cfg, s, g, p)
  {
    s.cells[g][p].phase.todo[0].rec.body.value
  }

  /** A retry by one group leaves another one alone exactly when that one does not
      subscribe to the type, or has a copy of the event ahead of it anyway. */
  lemma RetryIgnoredIff(cfg: Cfg, s: State, g: nat, p: nat, h: nat)
    requires Inv(cfg, s) && IsRetry(cfg, s, g, p) && h < |cfg.groups| && h != g
    ensures var e := Retried(cfg, s, g, p);
            Abs(cfg, Do(cfg, s, Exec(g, p)), h) == Abs(cfg, s, h)
            <==> !cfg.Subscribes(h, e.eventType) || Live(cfg, s, h, e)
  {
    var e, t, todo := Retried(cfg, s, g, p), Do(cfg, s, Exec(g, p)), s.cells[g][p].phase.todo[0];
    StepRefines(cfg, s, Exec(g, p), h);
    assert CellOk(cfg, s, g, p);
    var q: nat :| IsFailPlan(cfg, s, g, p, s.cells[g][p].phase.off, s.cells[g][p].phase.todo, q);
    assert e in s.published by { assert RecOk(cfg, s, p, s.cells[g][p].phase.off); }
    if cfg.Subscribes(h, e.eventType) {
      assert MoveOf(cfg, s, Exec(g, p), h) == Alo.Duplicate(e);
      assert e in Abs(cfg, s, h).outstanding <==> Live(cfg, s, h, e);
    }
  }

  /** In this run the group h was through with e, and a command of g != h makes it
      outstanding for h again. */
  ghost predicate Disturbs(cfg: Cfg, s: State, steps: seq<Step>, g: nat, p: nat, h: nat, e: Envelope) {
    && Init(cfg, s) && Run(cfg, s, steps) && Can(cfg, Final(cfg, s, steps), Exec(g, p))
    && h < |cfg.groups| && h != g
    && e in Abs(cfg, Final(cfg, s, steps), h).done
    && e !in Abs(cfg, Final(cfg, s, steps), h).outstanding
    && e in Abs(cfg, Do(cfg, Final(cfg, s, steps), Exec(g, p)), h).outstanding
  }

  /** Two services share a type, and one of them retries at all. */
  ghost predicate Shares(cfg: Cfg, g: nat, h: nat, t: string, p: nat) {
    g != h && cfg.Subscribes(g, t) && cfg.Subscribes(h, t) && cfg.IsMain(p, t) && cfg.groups[g].maxRetries >= 2
  }

  /** Isolation fails in some run exactly when some service that retries shares an event
      type with another one. */
  lemma IsolatedIff(cfg: Cfg)
    ensures (exists s, steps, g: nat, p: nat, h: nat, e :: Disturbs(cfg, s, steps, g, p, h, e))
            <==> exists g: nat, h: nat, t: string, p: nat :: Shares(cfg, g, h, t, p)
  {
    if g: nat, h: nat, t: string, p: nat :| Shares(cfg, g, h, t, p) {
      var e := Envelope("", t, map[]);
      var s := Empty(cfg);
      var steps := Disturbance(cfg, s, g, h, e, p);
      assert Disturbs(cfg, s, steps, g, p, h, e);
    }
    forall s, steps, g: nat, p: nat, h: nat, e | Disturbs(cfg, s, steps, g, p, h, e)
      ensures exists g: nat, h: nat, t: string, p: nat :: Shares(cfg, g, h, t, p)
    {
      var q := DisturbedBySharing(cfg, s, steps, g, p, h, e);
    }
  }

  ghost predicate CountsFrom0(s: State) {
    forall p: nat, o: nat | p < |s.logs| && o < |s.logs[p]| && s.logs[p][o].body.Some? :: s.logs[p][o].retry >= 0
  }

  lemma {:induction false} RunCountsFrom0(cfg: Cfg, s: State, steps: seq<Step>)
    requires Init(cfg, s) && Run(cfg, s, steps)
    ensures Inv(cfg, Final(cfg, s, steps)) && CountsFrom0(Final(cfg, s, steps))
  {
    RunKeepsInv(cfg, s, steps);
    if steps != [] {
      var n := |steps| - 1;
      RunCountsFrom0(cfg, s, steps[..n]);
      var b, x := Final(cfg, s, steps[..n]), steps[n];
      if x.Exec? {
        var c := b.cells[x.g][x.p];
        assert CellOk(cfg, b, x.g, x.p);
        if c.phase.todo[0].Produce? {
          var q: nat :| IsFailPlan(cfg, b, x.g, x.p, c.phase.off, c.phase.todo, q);
        }
      }
    }
  }

  lemma DisturbedBySharing(cfg: Cfg, s: State, steps: seq<Step>, g: nat, p: nat, h: nat, e: Envelope) returns (q: nat)
    requires Disturbs(cfg, s, steps, g, p, h, e)
    ensures Shares(cfg, g, h, e.eventType, q)
  {
    var t := Final(cfg, s, steps);
    RunCountsFrom0(cfg, s, steps);
    StepRefines(cfg, t, Exec(g, p), h);
    var c := t.cells[g][p];
    assert CellOk(cfg, t, g, p);
    assert MoveOf(cfg, t, Exec(g, p), h) == Alo.Duplicate(e);
    assert c.phase.todo[0].Produce?;
    q := c.phase.todo[0].part;
    var q2: nat :| IsFailPlan(cfg, t, g, p, c.phase.off, c.phase.todo, q2);
    DlqTopicIsMainTopicIff(cfg, e.eventType, e.eventType);
  }

  // ----- the failing run

  /** One readable record, e, which is all there is of it. */
  ghost predicate Only(t: State, p: nat, e: Envelope) {
    && p < |t.logs| && t.logs[p] == [Rec(Some(e), 0)]
    && forall q: nat | q < |t.logs| && q != p :: t.logs[q] == []
  }

  ghost predicate Stage(cfg: Cfg, s: State, steps: seq<Step>, p: nat, e: Envelope, g: nat, cg: Cell, h: nat, ch: Cell) {
    && Run(cfg, s, steps) && HasCell(cfg, Final(cfg, s, steps), g, p) && HasCell(cfg, Final(cfg, s, steps), h, p)
    && var t := Final(cfg, s, steps);
       && Only(t, p, e) && t.published == {e}
       && t.cells[g][p] == cg && t.cells[h][p] == ch
  }

  lemma FirstRecord(cfg: Cfg, s: State, g: nat, h: nat, e: Envelope, p: nat)
    requires Init(cfg, s) && HasCell(cfg, s, g, p) && HasCell(cfg, s, h, p) && cfg.IsMain(p, e.eventType)
    ensures Can(cfg, s, Publish(p, e))
    ensures var t := Do(cfg, s, Publish(p, e));
            && Only(t, p, e) && t.published == {e} && HasCell(cfg, t, g, p) && HasCell(cfg, t, h, p)
            && t.cells[g][p] == t.cells[h][p] == Cell(0, false, 0, Idle)
  {
  }

  lemma OneStepRun(cfg: Cfg, s: State, step: Step) returns (steps: seq<Step>)
    requires Can(cfg, s, step)
    ensures Run(cfg, s, steps) && Final(cfg, s, steps) == Do(cfg, s, step)
  {
    RunExtends(cfg, s, [], step);
    steps := [] + [step];
  }

  /** Group h, the only one to have started, has e in hand. */
  lemma FirstFetched(cfg: Cfg, s: State, g: nat, h: nat, e: Envelope, p: nat) returns (steps: seq<Step>)
    requires Init(cfg, s) && Shares(cfg, g, h, e.eventType, p)
    ensures Stage(cfg, s, steps, p, e, g, Cell(0, false, 0, Idle), h, Cell(0, true, 1, Held(0)))
  {
    assert HasCell(cfg, s, g, p) && HasCell(cfg, s, h, p) && cfg.Assignable(h, p);
    var idle := Cell(0, false, 0, Idle);
    FirstRecord(cfg, s, g, h, e, p);
    var published := OneStepRun(cfg, s, Publish(p, e));
    assert Stage(cfg, s, published, p, e, g, idle, h, idle);
    var owning := OneStep(cfg, s, published, p, e, g, idle, h, idle, Assign(h, p));
    steps := OneStep(cfg, s, owning, p, e, g, idle, h, Cell(0, true, 0, Idle), Fetch(h, p));
  }

  /** It handles e and commits. */
  lemma FirstServed(cfg: Cfg, s: State, g: nat, h: nat, e: Envelope, p: nat) returns (steps: seq<Step>)
    requires Init(cfg, s) && Shares(cfg, g, h, e.eventType, p)
    ensures Stage(cfg, s, steps, p, e, g, Cell(0, false, 0, Idle), h, Cell(1, true, 1, Idle))
    ensures (h, e) in Final(cfg, s, steps).done
  {
    var idle := Cell(0, false, 0, Idle);
    var fetched := FirstFetched(cfg, s, g, h, e, p);
    var handled := OneStep(cfg, s, fetched, p, e, g, idle, h, Cell(0, true, 1, Held(0)), Dispatch(h, p, true, 0));
    steps := OneStep(cfg, s, handled, p, e, g, idle, h, Cell(0, true, 1, Settling(0, AckCmds(p, 0))), Exec(h, p));
  }

  /** A step of h or g that only concerns its own cell. */
  lemma OneStep(
      cfg: Cfg, s: State, before: seq<Step>, p: nat, e: Envelope, g: nat, cg: Cell, h: nat, ch: Cell, x: Step)
    returns (steps: seq<Step>)
    requires g != h && Stage(cfg, s, before, p, e, g, cg, h, ch) && Can(cfg, Final(cfg, s, before), x)
    requires x.Assign? || x.Fetch? || x.Dispatch? || (x.Exec? && Final(cfg, s, before).cells[x.g][x.p].phase.todo[0].Commit?)
    requires (x.g == h || x.g == g) && x.p == p
    ensures steps == before + [x]
    ensures Run(cfg, s, steps) && Final(cfg, s, steps) == Do(cfg, Final(cfg, s, before), x)
    ensures var t := Final(cfg, s, steps);
            && HasCell(cfg, t, g, p) && HasCell(cfg, t, h, p)
            && Stage(cfg, s, steps, p, e, g, if x.g == g then t.cells[g][p] else cg, h, if x.g == h then t.cells[h][p] else ch)
  {
    RunExtends(cfg, s, before, x);
    steps := before + [x];
  }

  lemma Disturbance(cfg: Cfg, s: State, g: nat, h: nat, e: Envelope, p: nat) returns (steps: seq<Step>)
    requires Init(cfg, s) && Shares(cfg, g, h, e.eventType, p)
    ensures Disturbs(cfg, s, steps, g, p, h, e)
  {
    var done := Cell(1, true, 1, Idle);
    var served := FirstServed(cfg, s, g, h, e, p);
    assert cfg.Assignable(g, p);
    var r1 := OneStep(cfg, s, served, p, e, g, Cell(0, false, 0, Idle), h, done, Assign(g, p));
    var r2 := OneStep(cfg, s, r1, p, e, g, Cell(0, true, 0, Idle), h, done, Fetch(g, p));
    steps := OneStep(cfg, s, r2, p, e, g, Cell(0, true, 1, Held(0)), h, done, Dispatch(g, p, false, p));
    assert Final(cfg, s, steps).cells[g][p].phase == Settling(0, FailCmds(Rec(Some(e), 0), p, 0, p));
    RunKeepsInv(cfg, s, steps);
    Strike(cfg, Final(cfg, s, steps), g, h, e, p);
  }

  /** The retry of g is carried out when h is through with e and has nothing left of it. */
  lemma Strike(cfg: Cfg, t: State, g: nat, h: nat, e: Envelope, p: nat)
    requires Inv(cfg, t) && Only(t, p, e) && Shares(cfg, g, h, e.eventType, p)
    requires t.published == {e} && (h, e) in t.done && t.cells[h][p].committed == 1
    requires HasCell(cfg, t, g, p) && t.cells[g][p].owned
    requires t.cells[g][p].phase == Settling(0, FailCmds(Rec(Some(e), 0), p, 0, p))
    ensures Can(cfg, t, Exec(g, p))
    ensures e in Abs(cfg, t, h).done && e !in Abs(cfg, t, h).outstanding
    ensures e in Abs(cfg, Do(cfg, t, Exec(g, p)), h).outstanding
  {
    assert !Live(cfg, t, h, e);
    assert IsRetry(cfg, t, g, p) && Retried(cfg, t, g, p) == e;
    StepRefines(cfg, t, Exec(g, p), h);
    assert MoveOf(cfg, t, Exec(g, p), h) == Alo.Duplicate(e);
  }
}
