/** Nothing published to a Kafka-backed bus is lost, for any number of groups and
    partitions and with workers stopping between any two commands of fail(). */
module KafkaConservation {
  import opened Wrappers
  import opened Events
  import opened KafkaMachine
  import AtLeastOnce

  /** A copy of e that group g has not committed past. */
  ghost predicate LiveAt(cfg: Cfg, s: State, g: nat, e: Envelope, p: nat, o: nat) {
    && HasCell(cfg, s, g, p)
    && cfg.IsMain(p, e.eventType)
    && s.cells[g][p].committed <= o < |s.logs[p]|
    && s.logs[p][o].body == Some(e)
  }

  ghost predicate Live(cfg: Cfg, s: State, g: nat, e: Envelope) {
    exists p: nat, o: nat :: LiveAt(cfg, s, g, e, p, o)
  }

  ghost predicate Settled(s: State, g: nat, e: Envelope) {
    (g, e) in s.done || (g, e) in s.dead
  }

  ghost predicate LiveAbove(cfg: Cfg, s: State, g: nat, e: Envelope, n: int, p: nat, o: nat) {
    LiveAt(cfg, s, g, e, p, o) && s.logs[p][o].retry > n
  }

  /** A copy of e with retry count n may be committed past: g is through with e,
      or a copy with a higher count is still ahead of g. */
  ghost predicate Covered(cfg: Cfg, s: State, g: nat, e: Envelope, n: int) {
    Settled(s, g, e) || exists p: nat, o: nat :: LiveAbove(cfg, s, g, e, n, p, o)
  }

  /** The committed offset trails the position by exactly the one message in hand. */
  ghost predicate OneBehind(c: Cell) {
    c.owned ==>
      && c.pos == c.committed + (if c.phase.Idle? then 0 else 1)
      && (!c.phase.Idle? ==> c.phase.off == c.committed)
  }

  ghost predicate IsFailPlan(cfg: Cfg, s: State, g: nat, p: nat, off: nat, todo: seq<Cmd>, q: nat)
    requires HasCell(cfg, s, g, p) && off < |s.logs[p]|
  {
    var rec := s.logs[p][off];
    && todo == FailCmds(rec, p, off, q)
    && rec.body.Some?
    && (g, rec.body.value) in s.failed
    && cfg.Subscribes(g, rec.body.value.eventType)
    && q < |s.logs|
    && cfg.topicOf[q] == FailTopic(cfg, g, rec)
  }

  ghost predicate PhaseOk(cfg: Cfg, s: State, g: nat, p: nat)
    requires HasCell(cfg, s, g, p) && s.cells[g][p].pos <= |s.logs[p]| && OneBehind(s.cells[g][p])
  {
    var c := s.cells[g][p];
    c.owned ==>
    match c.phase
    case Idle => true
    case Held(off) => s.logs[p][off].body.Some?
    case Settling(off, todo) =>
      var rec := s.logs[p][off];
      || (todo == AckCmds(p, off) && (rec.body.Some? ==> Covered(cfg, s, g, rec.body.value, rec.retry)))
      || exists q: nat :: IsFailPlan(cfg, s, g, p, off, todo, q)
  }

  ghost predicate CellOk(cfg: Cfg, s: State, g: nat, p: nat)
    requires HasCell(cfg, s, g, p)
  {
    var c := s.cells[g][p];
    && c.committed <= |s.logs[p]|
    && c.pos <= |s.logs[p]|
    && OneBehind(c)
    && (c.owned ==> cfg.Assignable(g, p))
    && (!c.owned ==> c.phase.Idle?)
    && PhaseOk(cfg, s, g, p)
  }

  ghost predicate RecOk(cfg: Cfg, s: State, p: nat, o: nat)
    requires p < |s.logs| && o < |s.logs[p]|
  {
    var rec := s.logs[p][o];
    rec.body.Some? ==>
      && rec.body.value in s.published
      && (cfg.IsMain(p, rec.body.value.eventType) || cfg.IsDlq(p, rec.body.value.eventType))
      && exists r: nat :: cfg.IsMain(r, rec.body.value.eventType)
  }

  ghost predicate InDlq(cfg: Cfg, s: State, e: Envelope) {
    exists p: nat, o: nat ::
      && p < |s.logs| && cfg.IsDlq(p, e.eventType)
      && o < |s.logs[p]| && s.logs[p][o].body == Some(e)
  }

  ghost predicate Inv(cfg: Cfg, s: State) {
    && Shaped(cfg, s)
    && (forall g: nat, p: nat | HasCell(cfg, s, g, p) :: CellOk(cfg, s, g, p))
    && (forall p: nat, o: nat | p < |s.logs| && o < |s.logs[p]| :: RecOk(cfg, s, p, o))
    && (forall g: nat, e | e in s.published && cfg.Subscribes(g, e.eventType) ::
          Settled(s, g, e) || Live(cfg, s, g, e))
    && (forall g: nat, e | (g, e) in s.dead :: InDlq(cfg, s, e))
    && (forall g: nat, e | Settled(s, g, e) || (g, e) in s.failed :: e in s.published)
  }

  // ----- what a step does to copies

  /** Apart from a commit, no step makes a live copy disappear. */
  lemma LiveAtKept(cfg: Cfg, s: State, step: Step, g: nat, e: Envelope, p: nat, o: nat)
    requires Inv(cfg, s) && Can(cfg, s, step) && LiveAt(cfg, s, g, e, p, o)
    requires !(step.Exec? && step.g == g && step.p == p && o == s.cells[g][p].committed
               && s.cells[g][p].phase.todo[0].Commit?)
    ensures var s' := Do(cfg, s, step);
            LiveAt(cfg, s', g, e, p, o) && s'.logs[p][o] == s.logs[p][o]
  {
    assert CellOk(cfg, s, g, p);
  }

  /** A commit is only issued for a record that is covered. */
  lemma CommitIsCovered(cfg: Cfg, s: State, g: nat, p: nat)
    requires Inv(cfg, s) && Can(cfg, s, Exec(g, p)) && s.cells[g][p].phase.todo[0].Commit?
    ensures var c := s.cells[g][p];
            && c.phase == Settling(c.committed, AckCmds(p, c.committed))
            && c.committed < |s.logs[p]|
            && (s.logs[p][c.committed].body.Some? ==>
                  Covered(cfg, s, g, s.logs[p][c.committed].body.value, s.logs[p][c.committed].retry))
  {
    assert CellOk(cfg, s, g, p);
  }

  lemma CoveredKept(cfg: Cfg, s: State, step: Step, g: nat, e: Envelope, n: int)
    requires Inv(cfg, s) && Can(cfg, s, step) && Covered(cfg, s, g, e, n)
    ensures Covered(cfg, Do(cfg, s, step), g, e, n)
  {
    var s' := Do(cfg, s, step);
    if !Settled(s, g, e) {
      var p: nat, o: nat :| LiveAbove(cfg, s, g, e, n, p, o);
      if step == Exec(g, p) && o == s.cells[g][p].committed && s.cells[g][p].phase.todo[0].Commit? {
        CommitIsCovered(cfg, s, g, p);
        var p2: nat, o2: nat :| LiveAbove(cfg, s, g, e, s.logs[p][o].retry, p2, o2);
        LiveAtKept(cfg, s, step, g, e, p2, o2);
        assert LiveAbove(cfg, s', g, e, n, p2, o2);
      } else {
        LiveAtKept(cfg, s, step, g, e, p, o);
        assert LiveAbove(cfg, s', g, e, n, p, o);
      }
    }
  }

  /** The clause the whole guarantee rests on. */
  lemma AccountedKept(cfg: Cfg, s: State, step: Step, g: nat, e: Envelope)
    requires Inv(cfg, s) && Can(cfg, s, step)
    requires e in Do(cfg, s, step).published && cfg.Subscribes(g, e.eventType)
    ensures Settled(Do(cfg, s, step), g, e) || Live(cfg, Do(cfg, s, step), g, e)
  {
    var s' := Do(cfg, s, step);
    if e !in s.published {
      assert HasCell(cfg, s, g, step.p) && CellOk(cfg, s, g, step.p);
      assert LiveAt(cfg, s', g, e, step.p, |s.logs[step.p]|);
    } else if !Settled(s, g, e) {
      var p: nat, o: nat :| LiveAt(cfg, s, g, e, p, o);
      if step == Exec(g, p) && o == s.cells[g][p].committed && s.cells[g][p].phase.todo[0].Commit? {
        CommitIsCovered(cfg, s, g, p);
        CoveredKept(cfg, s, step, g, e, s.logs[p][o].retry);
        if !Settled(s', g, e) {
          var p2: nat, o2: nat :| LiveAbove(cfg, s', g, e, s.logs[p][o].retry, p2, o2);
          assert LiveAt(cfg, s', g, e, p2, o2);
        }
      } else {
        LiveAtKept(cfg, s, step, g, e, p, o);
      }
    }
  }

  // ----- the invariant, clause by clause

  lemma RecsKept(cfg: Cfg, s: State, step: Step, p: nat, o: nat)
    requires Inv(cfg, s) && Can(cfg, s, step)
    requires p < |s.logs| && o < |Do(cfg, s, step).logs[p]|
    ensures RecOk(cfg, Do(cfg, s, step), p, o)
  {
    if o < |s.logs[p]| {
      assert RecOk(cfg, s, p, o);
    } else if step.Exec? {
      var c := s.cells[step.g][step.p];
      assert CellOk(cfg, s, step.g, step.p);
      var q: nat :| IsFailPlan(cfg, s, step.g, step.p, c.phase.off, c.phase.todo, q);
      assert RecOk(cfg, s, step.p, c.phase.off);
    }
  }

  lemma DeadKept(cfg: Cfg, s: State, step: Step, g: nat, e: Envelope)
    requires Inv(cfg, s) && Can(cfg, s, step) && (g, e) in Do(cfg, s, step).dead
    ensures InDlq(cfg, Do(cfg, s, step), e)
  {
    var s' := Do(cfg, s, step);
    if (g, e) in s.dead {
      var p: nat, o: nat :|
        p < |s.logs| && cfg.IsDlq(p, e.eventType) && o < |s.logs[p]| && s.logs[p][o].body == Some(e);
      assert s'.logs[p][o].body == Some(e);
    } else {
      var q := s.cells[g][step.p].phase.todo[0].part;
      assert s'.logs[q][|s.logs[q]|].body == Some(e);
    }
  }

  lemma SettledPublished(cfg: Cfg, s: State, step: Step, g: nat, e: Envelope)
    requires Inv(cfg, s) && Can(cfg, s, step)
    requires Settled(Do(cfg, s, step), g, e) || (g, e) in Do(cfg, s, step).failed
    ensures e in Do(cfg, s, step).published
  {
    if !Settled(s, g, e) && (g, e) !in s.failed {
      var c := s.cells[g][step.p];
      assert CellOk(cfg, s, g, step.p);
      assert RecOk(cfg, s, step.p, c.phase.off);
    }
  }

  /** The cell a produce comes from: the new copy covers the record it replaces. */
  lemma ProduceCovers(cfg: Cfg, s: State, g: nat, p: nat)
    requires Inv(cfg, s) && Can(cfg, s, Exec(g, p)) && s.cells[g][p].phase.todo[0].Produce?
    ensures HasCell(cfg, Do(cfg, s, Exec(g, p)), g, p)
    ensures var s', off := Do(cfg, s, Exec(g, p)), s.cells[g][p].committed;
            var c' := s'.cells[g][p];
            && off < |s.logs[p]|
            && c' == s.cells[g][p].(phase := Settling(off, AckCmds(p, off)))
            && s.logs[p][off].body.Some?
            && Covered(cfg, s', g, s.logs[p][off].body.value, s.logs[p][off].retry)
  {
    var c := s.cells[g][p];
    var off := c.committed;
    var rec := s.logs[p][off];
    assert CellOk(cfg, s, g, p);
    var q: nat :| IsFailPlan(cfg, s, g, p, off, c.phase.todo, q);
    var e := rec.body.value;
    var s' := Do(cfg, s, Exec(g, p));
    if Retries(cfg, g, rec) {
      DlqTopicIsMainTopicIff(cfg, e.eventType, e.eventType);
      assert CellOk(cfg, s, g, q);
      assert LiveAbove(cfg, s', g, e, rec.retry, q, |s.logs[q]|);
    }
  }

  lemma OtherCellKept(cfg: Cfg, s: State, step: Step, g: nat, p: nat)
    requires Inv(cfg, s) && Can(cfg, s, step) && HasCell(cfg, s, g, p)
    requires Do(cfg, s, step).cells[g][p] == s.cells[g][p]
    ensures CellOk(cfg, Do(cfg, s, step), g, p)
  {
    var s', c := Do(cfg, s, step), s.cells[g][p];
    assert CellOk(cfg, s, g, p);
    if c.owned && c.phase.Settling? {
      var off, todo := c.phase.off, c.phase.todo;
      var rec := s.logs[p][off];
      assert s'.logs[p][off] == rec;
      if todo == AckCmds(p, off) {
        if rec.body.Some? { CoveredKept(cfg, s, step, g, rec.body.value, rec.retry); }
      } else {
        var q: nat :| IsFailPlan(cfg, s, g, p, off, todo, q);
        assert IsFailPlan(cfg, s', g, p, off, todo, q);
      }
    }
  }

  lemma DispatchedCellKept(cfg: Cfg, s: State, g: nat, p: nat, ok: bool, q: nat)
    requires Inv(cfg, s) && Can(cfg, s, Dispatch(g, p, ok, q))
    ensures HasCell(cfg, Do(cfg, s, Dispatch(g, p, ok, q)), g, p) && CellOk(cfg, Do(cfg, s, Dispatch(g, p, ok, q)), g, p)
  {
    var s', c := Do(cfg, s, Dispatch(g, p, ok, q)), s.cells[g][p];
    assert CellOk(cfg, s, g, p);
    if !ok { assert IsFailPlan(cfg, s', g, p, c.phase.off, s'.cells[g][p].phase.todo, q); }
  }

  lemma SettlingCellKept(cfg: Cfg, s: State, g: nat, p: nat)
    requires Inv(cfg, s) && Can(cfg, s, Exec(g, p))
    ensures HasCell(cfg, Do(cfg, s, Exec(g, p)), g, p) && CellOk(cfg, Do(cfg, s, Exec(g, p)), g, p)
  {
    assert CellOk(cfg, s, g, p);
    if s.cells[g][p].phase.todo[0].Commit? { CommitIsCovered(cfg, s, g, p); } else { ProduceCovers(cfg, s, g, p); }
  }

  /** A worker comes, goes, or polls. */
  lemma MovedCellKept(cfg: Cfg, s: State, step: Step)
    requires Inv(cfg, s) && Can(cfg, s, step) && (step.Assign? || step.Lose? || step.Fetch?)
    ensures HasCell(cfg, Do(cfg, s, step), step.g, step.p) && CellOk(cfg, Do(cfg, s, step), step.g, step.p)
  {
    assert CellOk(cfg, s, step.g, step.p);
  }

  lemma CellsKept(cfg: Cfg, s: State, step: Step, g: nat, p: nat)
    requires Inv(cfg, s) && Can(cfg, s, step) && HasCell(cfg, s, g, p)
    ensures CellOk(cfg, Do(cfg, s, step), g, p)
  {
    if step.Publish? || step.Garbage? || step.g != g || step.p != p {
      OtherCellKept(cfg, s, step, g, p);
    } else if step.Dispatch? {
      DispatchedCellKept(cfg, s, g, p, step.ok, step.q);
    } else if step.Exec? {
      SettlingCellKept(cfg, s, g, p);
    } else {
      MovedCellKept(cfg, s, step);
    }
  }

  lemma StepKeepsInv(cfg: Cfg, s: State, step: Step)
    requires Inv(cfg, s) && Can(cfg, s, step)
    ensures Inv(cfg, Do(cfg, s, step))
  {
    var s' := Do(cfg, s, step);
    forall g: nat, p: nat | HasCell(cfg, s', g, p) ensures CellOk(cfg, s', g, p) {
      CellsKept(cfg, s, step, g, p);
    }
    forall p: nat, o: nat | p < |s'.logs| && o < |s'.logs[p]| ensures RecOk(cfg, s', p, o) {
      RecsKept(cfg, s, step, p, o);
    }
    forall g: nat, e | e in s'.published && cfg.Subscribes(g, e.eventType)
      ensures Settled(s', g, e) || Live(cfg, s', g, e)
    {
      AccountedKept(cfg, s, step, g, e);
    }
    forall g: nat, e | (g, e) in s'.dead ensures InDlq(cfg, s', e) { DeadKept(cfg, s, step, g, e); }
    forall g: nat, e | Settled(s', g, e) || (g, e) in s'.failed ensures e in s'.published { SettledPublished(cfg, s, step, g, e); }
  }

  lemma {:induction false} RunKeepsInv(cfg: Cfg, s: State, steps: seq<Step>)
    requires Init(cfg, s) && Run(cfg, s, steps)
    ensures Inv(cfg, Final(cfg, s, steps))
  {
    if steps != [] {
      var n := |steps| - 1;
      RunKeepsInv(cfg, s, steps[..n]);
      StepKeepsInv(cfg, Final(cfg, s, steps[..n]), steps[n]);
    }
  }
}
