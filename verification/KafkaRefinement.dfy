/** Every run of the Kafka machine is, for each subscribed service, a run of the
    abstract at-least-once bus. */
module KafkaRefinement {
  import opened Wrappers
  import opened Events
  import opened KafkaMachine
  import opened KafkaConservation
  import Alo = AtLeastOnce

  ghost function Abs(cfg: Cfg, s: State, g: nat): Alo.Bus<Envelope> {
    var known := set e | e in s.published && cfg.Subscribes(g, e.eventType);
    Alo.Bus(known,
            set e | e in known && Live(cfg, s, g, e),
            set e | e in known && (g, e) in s.done,
            set e | e in known && (g, e) in s.failed,
            set e | e in known && (g, e) in s.dead)
  }

  /** The abstract move a step amounts to for service g. */
  ghost function MoveOf(cfg: Cfg, s: State, step: Step, g: nat): Alo.Move<Envelope>
    requires Can(cfg, s, step)
  {
    match step
    case Publish(p, e) =>
      if !cfg.Subscribes(g, e.eventType) then Alo.Stutter
      else if e in s.published then Alo.Duplicate(e)
      else Alo.Publish(e)
    case Dispatch(g2, p, ok, _) =>
      var e := s.logs[p][s.cells[g2][p].phase.off].body.value;
      if g != g2 || !cfg.Subscribes(g, e.eventType) then Alo.Stutter
      else if ok then Alo.Succeed(e) else Alo.Fail(e)
    case Exec(g2, p) =>
      (match s.cells[g2][p].phase.todo[0]
       case Produce(q, rec) =>
         var e := rec.body.value;
         if !cfg.Subscribes(g, e.eventType) then Alo.Stutter
         else if cfg.IsMain(q, e.eventType) then Alo.Duplicate(e)
         else if g == g2 && cfg.IsDlq(q, e.eventType) then Alo.Bury(e)
         else Alo.Stutter
       case Commit(_, _) =>
         var off := s.cells[g2][p].committed;
         if g == g2 && off < |s.logs[p]| && s.logs[p][off].body.Some?
            && cfg.Subscribes(g, s.logs[p][off].body.value.eventType)
            && !Live(cfg, Do(cfg, s, step), g, s.logs[p][off].body.value)
         then Alo.Retire(s.logs[p][off].body.value) else Alo.Stutter)
    case _ => Alo.Stutter
  }

  /** How a step changes the set of live copies of e: only a commit of e by g
      itself can take e out, only a new copy can bring it in. */
  lemma LiveChange(cfg: Cfg, s: State, step: Step, g: nat, e: Envelope)
    requires Inv(cfg, s) && Can(cfg, s, step) && g < |cfg.groups|
    ensures var s', m := Do(cfg, s, step), MoveOf(cfg, s, step, g);
            e in s'.published && cfg.Subscribes(g, e.eventType) ==>
            (Live(cfg, s', g, e) <==>
             (Live(cfg, s, g, e) || m == Alo.Publish(e) || m == Alo.Duplicate(e)) && m != Alo.Retire(e))
  {
    var s', m := Do(cfg, s, step), MoveOf(cfg, s, step, g);
    if e in s'.published && cfg.Subscribes(g, e.eventType) {
      if m == Alo.Publish(e) || m == Alo.Duplicate(e) {
        NewCopyIsLive(cfg, s, step, g, e);
      } else if Live(cfg, s', g, e) {
        var p: nat, o: nat :| LiveAt(cfg, s', g, e, p, o);
        OldCopyWasLive(cfg, s, step, g, e, p, o);
      }
      if Live(cfg, s, g, e) && m != Alo.Retire(e) {
        var p: nat, o: nat :| LiveAt(cfg, s, g, e, p, o);
        if !(step == Exec(g, p) && o == s.cells[g][p].committed && s.cells[g][p].phase.todo[0].Commit?) {
          LiveAtKept(cfg, s, step, g, e, p, o);
        }
      }
    }
  }

  lemma NewCopyIsLive(cfg: Cfg, s: State, step: Step, g: nat, e: Envelope)
    requires Inv(cfg, s) && Can(cfg, s, step) && g < |cfg.groups|
    requires MoveOf(cfg, s, step, g) == Alo.Publish(e) || MoveOf(cfg, s, step, g) == Alo.Duplicate(e)
    ensures Live(cfg, Do(cfg, s, step), g, e)
  {
    var s' := Do(cfg, s, step);
    var q := if step.Publish? then step.p else s.cells[step.g][step.p].phase.todo[0].part;
    assert CellOk(cfg, s, g, q);
    assert LiveAt(cfg, s', g, e, q, |s.logs[q]|);
  }

  lemma OldCopyWasLive(cfg: Cfg, s: State, step: Step, g: nat, e: Envelope, p: nat, o: nat)
    requires Inv(cfg, s) && Can(cfg, s, step) && g < |cfg.groups|
    requires e in Do(cfg, s, step).published && cfg.Subscribes(g, e.eventType)
    requires LiveAt(cfg, Do(cfg, s, step), g, e, p, o)
    requires MoveOf(cfg, s, step, g) != Alo.Publish(e) && MoveOf(cfg, s, step, g) != Alo.Duplicate(e)
    ensures LiveAt(cfg, s, g, e, p, o)
  {
    var s' := Do(cfg, s, step);
    assert CellOk(cfg, s, g, p);
    if step == Exec(g, p) && s.cells[g][p].phase.todo[0].Commit? {
      CommitIsCovered(cfg, s, g, p);
    }
  }

  /** One step of the machine is one move of the abstract bus. */
  lemma StepRefines(cfg: Cfg, s: State, step: Step, g: nat)
    requires Inv(cfg, s) && Can(cfg, s, step) && g < |cfg.groups|
    ensures Alo.Can(Abs(cfg, s, g), MoveOf(cfg, s, step, g))
    ensures Abs(cfg, Do(cfg, s, step), g) == Alo.Do(Abs(cfg, s, g), MoveOf(cfg, s, step, g))
  {
    var a' := Abs(cfg, Do(cfg, s, step), g);
    MoveAllowed(cfg, s, step, g);
    var b := Alo.Do(Abs(cfg, s, g), MoveOf(cfg, s, step, g));
    forall e ensures e in a'.outstanding <==> e in b.outstanding { OutstandingMoves(cfg, s, step, g, e); }
    forall e
      ensures e in a'.published <==> e in b.published
      ensures e in a'.done <==> e in b.done
      ensures e in a'.failed <==> e in b.failed
      ensures e in a'.dead <==> e in b.dead
    {
      SettledMoves(cfg, s, step, g, e);
    }
  }

  lemma OutstandingMoves(cfg: Cfg, s: State, step: Step, g: nat, e: Envelope)
    requires Inv(cfg, s) && Can(cfg, s, step) && g < |cfg.groups|
    ensures e in Abs(cfg, Do(cfg, s, step), g).outstanding
            <==> e in Alo.Do(Abs(cfg, s, g), MoveOf(cfg, s, step, g)).outstanding
  {
    SettledChange(cfg, s, step, g);
    if e in Do(cfg, s, step).published && cfg.Subscribes(g, e.eventType) { LiveChange(cfg, s, step, g, e); }
  }

  lemma SettledMoves(cfg: Cfg, s: State, step: Step, g: nat, e: Envelope)
    requires Inv(cfg, s) && Can(cfg, s, step) && g < |cfg.groups|
    ensures var a', b := Abs(cfg, Do(cfg, s, step), g), Alo.Do(Abs(cfg, s, g), MoveOf(cfg, s, step, g));
            && (e in a'.published <==> e in b.published)
            && (e in a'.done <==> e in b.done)
            && (e in a'.failed <==> e in b.failed)
            && (e in a'.dead <==> e in b.dead)
  {
    SettledChange(cfg, s, step, g);
    SettledMembers(cfg, s, Do(cfg, s, step), g, MoveOf(cfg, s, step, g), e);
  }

  /** What SettledChange says, in terms of the abstract bus. */
  lemma SettledMembers(cfg: Cfg, s: State, t: State, g: nat, m: Alo.Move<Envelope>, e: Envelope)
    requires !m.Stutter? ==> cfg.Subscribes(g, m.e.eventType) && m.e in t.published
    requires (g, e) in s.done || (g, e) in s.failed || (g, e) in s.dead ==> e in s.published
    requires s.published <= t.published
    requires e in t.published && cfg.Subscribes(g, e.eventType) ==>
               && ((g, e) in t.done <==> (g, e) in s.done || m == Alo.Succeed(e))
               && ((g, e) in t.failed <==> (g, e) in s.failed || m == Alo.Fail(e))
               && ((g, e) in t.dead <==> (g, e) in s.dead || m == Alo.Bury(e))
               && (e in s.published || m == Alo.Publish(e))
    ensures var a', b := Abs(cfg, t, g), Alo.Do(Abs(cfg, s, g), m);
            && (e in a'.published <==> e in b.published)
            && (e in a'.done <==> e in b.done)
            && (e in a'.failed <==> e in b.failed)
            && (e in a'.dead <==> e in b.dead)
  {
  }

  lemma MoveAllowed(cfg: Cfg, s: State, step: Step, g: nat)
    requires Inv(cfg, s) && Can(cfg, s, step) && g < |cfg.groups|
    ensures Alo.Can(Abs(cfg, s, g), MoveOf(cfg, s, step, g))
  {
    if step.Dispatch? {
      assert CellOk(cfg, s, step.g, step.p);
      assert RecOk(cfg, s, step.p, s.cells[step.g][step.p].phase.off);
    } else if step.Exec? {
      var c := s.cells[step.g][step.p];
      assert CellOk(cfg, s, step.g, step.p);
      if c.phase.todo[0].Produce? {
        var q: nat :| IsFailPlan(cfg, s, step.g, step.p, c.phase.off, c.phase.todo, q);
      } else {
        CommitIsCovered(cfg, s, step.g, step.p);
        if s.logs[step.p][c.committed].body.Some? {
          var e := s.logs[step.p][c.committed].body.value;
          CoveredKept(cfg, s, step, step.g, e, s.logs[step.p][c.committed].retry);
          var s' := Do(cfg, s, step);
          if !Settled(s', step.g, e) {
            var p2: nat, o2: nat :| LiveAbove(cfg, s', step.g, e, s.logs[step.p][c.committed].retry, p2, o2);
            assert LiveAt(cfg, s', step.g, e, p2, o2);
          }
        }
      }
    }
  }

  lemma SettledChange(cfg: Cfg, s: State, step: Step, g: nat)
    requires Inv(cfg, s) && Can(cfg, s, step) && g < |cfg.groups|
    ensures var s', m := Do(cfg, s, step), MoveOf(cfg, s, step, g);
            forall e | e in s'.published && cfg.Subscribes(g, e.eventType) ::
              && ((g, e) in s'.done <==> (g, e) in s.done || m == Alo.Succeed(e))
              && ((g, e) in s'.failed <==> (g, e) in s.failed || m == Alo.Fail(e))
              && ((g, e) in s'.dead <==> (g, e) in s.dead || m == Alo.Bury(e))
              && (e in s.published || m == Alo.Publish(e))
    ensures var m := MoveOf(cfg, s, step, g);
            !m.Stutter? ==> cfg.Subscribes(g, m.e.eventType) && m.e in Do(cfg, s, step).published
    ensures forall e :: (g, e) in s.done || (g, e) in s.failed || (g, e) in s.dead ==> e in s.published
  {
    MoveAllowed(cfg, s, step, g);
    if step.Exec? {
      var c := s.cells[step.g][step.p];
      assert CellOk(cfg, s, step.g, step.p);
      if c.phase.todo[0].Produce? {
        var e := c.phase.todo[0].rec.body.value;
        DlqTopicIsMainTopicIff(cfg, e.eventType, e.eventType);
        var q: nat :| IsFailPlan(cfg, s, step.g, step.p, c.phase.off, c.phase.todo, q);
      } else {
        CommitIsCovered(cfg, s, step.g, step.p);
        if s.logs[step.p][c.committed].body.Some? { assert RecOk(cfg, s, step.p, c.committed); }
      }
    }
    forall e | (g, e) in s.done || (g, e) in s.failed || (g, e) in s.dead ensures e in s.published {
      assert Settled(s, g, e) || (g, e) in s.failed;
    }
  }

  ghost function Moves(cfg: Cfg, s: State, steps: seq<Step>, g: nat): (r: seq<Alo.Move<Envelope>>)
    requires Run(cfg, s, steps)
    ensures |r| == |steps|
  {
    if steps == [] then [] else
      var n := |steps| - 1;
      Moves(cfg, s, steps[..n], g) + [MoveOf(cfg, Final(cfg, s, steps[..n]), steps[n], g)]
  }

  /** The common refinement for Kafka. */
  lemma {:induction false} RunRefines(cfg: Cfg, s: State, steps: seq<Step>, g: nat)
    requires Init(cfg, s) && Run(cfg, s, steps) && g < |cfg.groups|
    ensures Alo.Fresh(Abs(cfg, s, g)) && Alo.Legal(Abs(cfg, s, g), Moves(cfg, s, steps, g))
    ensures Alo.After(Abs(cfg, s, g), Moves(cfg, s, steps, g)) == Abs(cfg, Final(cfg, s, steps), g)
  {
    if steps != [] {
      var n := |steps| - 1;
      var t := Final(cfg, s, steps[..n]);
      RunRefines(cfg, s, steps[..n], g);
      RunKeepsInv(cfg, s, steps[..n]);
      StepRefines(cfg, t, steps[n], g);
      Alo.JoinsOne(Abs(cfg, s, g), Moves(cfg, s, steps[..n], g), MoveOf(cfg, t, steps[n], g));
    }
  }

  /** Kafka conservation over whole runs. In particular a message whose commit let
      the offset move on was either handled by the group, or put in the dead-letter
      topic by it, or has another copy at or above the group's offset. */
  lemma Conservation(cfg: Cfg, s: State, steps: seq<Step>, g: nat, e: Envelope)
    requires Init(cfg, s) && Run(cfg, s, steps)
    requires e in Final(cfg, s, steps).published && cfg.Subscribes(g, e.eventType)
    ensures var t := Final(cfg, s, steps);
            || (g, e) in t.done
            || ((g, e) in t.dead && InDlq(cfg, t, e))
            || exists p: nat, o: nat :: LiveAt(cfg, t, g, e, p, o)
  {
    RunKeepsInv(cfg, s, steps);
    var t := Final(cfg, s, steps);
    if (g, e) in t.dead { assert InDlq(cfg, t, e); }
  }

  /** committed equals position, or position minus one for the message in hand. */
  lemma CommittedTrailsPosition(cfg: Cfg, s: State, steps: seq<Step>, g: nat, p: nat)
    requires Init(cfg, s) && Run(cfg, s, steps) && HasCell(cfg, Final(cfg, s, steps), g, p)
    ensures var c := Final(cfg, s, steps).cells[g][p];
            c.owned ==>
              && c.committed <= c.pos <= c.committed + 1
              && (c.pos == c.committed + 1 <==> !c.phase.Idle?)
              && (!c.phase.Idle? ==> c.phase.off == c.committed)
  {
    RunKeepsInv(cfg, s, steps);
    assert CellOk(cfg, Final(cfg, s, steps), g, p);
  }
}
