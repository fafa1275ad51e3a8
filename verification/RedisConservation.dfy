/** Nothing added to a Redis stream is lost for any group, with any number of
    workers, reclaims and crashes; every run is a run of the abstract bus. */
module RedisConservation {
  import opened Wrappers
  import opened Events
  import opened RedisMachine
  import Alo = AtLeastOnce

  ghost predicate Buried(s: State, g: nat, id: nat) {
    exists i: nat :: i < |s.dlq| && s.dlq[i].group == g && s.dlq[i].id == id
  }

  /** Why an entry may have left the pending list. */
  ghost predicate Settled(s: State, g: nat, id: nat) {
    id < |s.entries| && (s.entries[id].None? || (g, id) in s.done || Buried(s, g, id))
  }

  ghost predicate WorkerOk(s: State, g: nat, w: nat)
    requires HasWorker(s, g, w) && s.groups[g].last <= |s.entries|
  {
    var x, k := s.groups[g], s.groups[g].workers[w];
    && (forall id | id in k.batch :: id < x.last)
    && match k.phase
       case Idle => true
       case Held(id) => id < x.last && s.entries[id].Some?
       case Failing(id) => id < x.last && s.entries[id].Some? && (g, id) in s.failed
       case Settling(id, cmd) =>
         id < x.last && (if cmd.Ack? then s.entries[id].None? || (g, id) in s.done
                         else s.entries[id].Some? && (g, id) in s.failed)
  }

  ghost predicate Inv(cfg: Cfg, s: State) {
    && |s.groups| == |cfg.maxRetries|
    && (forall g: nat | g < |s.groups| ::
          && s.groups[g].last <= |s.entries|
          && (forall id | id in s.groups[g].pel :: id < s.groups[g].last))
    && (forall g: nat, w: nat | HasWorker(s, g, w) :: WorkerOk(s, g, w))
    && (forall g: nat, id: nat | g < |s.groups| && id < s.groups[g].last ::
          id in s.groups[g].pel || Settled(s, g, id))
    && (forall p | p in s.done + s.failed :: p.1 < |s.entries| && s.entries[p.1].Some?)
    && (forall i: nat | i < |s.dlq| :: s.dlq[i].id < |s.entries| && s.entries[s.dlq[i].id] == Some(s.dlq[i].e))
  }

  lemma SettledKept(cfg: Cfg, s: State, step: Step, g: nat, id: nat)
    requires Can(cfg, s, step) && Settled(s, g, id)
    ensures Settled(Do(cfg, s, step), g, id)
  {
    if Buried(s, g, id) {
      var i: nat :| i < |s.dlq| && s.dlq[i].group == g && s.dlq[i].id == id;
      assert Do(cfg, s, step).dlq[i] == s.dlq[i];
    }
  }

  lemma AccountedKept(cfg: Cfg, s: State, step: Step, g: nat, id: nat)
    requires Inv(cfg, s) && Can(cfg, s, step) && g < |s.groups| && id < Do(cfg, s, step).groups[g].last
    ensures var t := Do(cfg, s, step); id in t.groups[g].pel || Settled(t, g, id)
  {
    var t := Do(cfg, s, step);
    if id < s.groups[g].last && id !in s.groups[g].pel {
      SettledKept(cfg, s, step, g, id);
    } else if step.Exec? && step.g == g && s.groups[g].workers[step.w].phase.id == id {
      assert WorkerOk(s, g, step.w);
      if s.groups[g].workers[step.w].phase.cmd.Bury? {
        assert t.dlq[|s.dlq|].group == g && t.dlq[|s.dlq|].id == id;
      }
    }
  }

  lemma OtherWorkerKept(cfg: Cfg, s: State, step: Step, g: nat, w: nat)
    requires Inv(cfg, s) && Can(cfg, s, step) && HasWorker(s, g, w)
    requires step.Add? || step.g != g || step.w != w
    ensures HasWorker(Do(cfg, s, step), g, w) && WorkerOk(Do(cfg, s, step), g, w)
  {
    assert WorkerOk(s, g, w);
  }

  lemma OwnWorkerKept(cfg: Cfg, s: State, step: Step)
    requires Inv(cfg, s) && Can(cfg, s, step) && !step.Add?
    ensures HasWorker(Do(cfg, s, step), step.g, step.w) && WorkerOk(Do(cfg, s, step), step.g, step.w)
  {
    assert WorkerOk(s, step.g, step.w);
    if step.Next? {
      var batch := s.groups[step.g].workers[step.w].batch;
      assert batch[0] in batch && forall id | id in batch[1..] :: id in batch;
    }
  }

  lemma WorkersKept(cfg: Cfg, s: State, step: Step, g: nat, w: nat)
    requires Inv(cfg, s) && Can(cfg, s, step) && HasWorker(Do(cfg, s, step), g, w)
    ensures WorkerOk(Do(cfg, s, step), g, w)
  {
    if step.Add? || step.g != g || step.w != w { OtherWorkerKept(cfg, s, step, g, w); } else { OwnWorkerKept(cfg, s, step); }
  }

  lemma StepKeepsInv(cfg: Cfg, s: State, step: Step)
    requires Inv(cfg, s) && Can(cfg, s, step)
    ensures Inv(cfg, Do(cfg, s, step))
  {
    var t := Do(cfg, s, step);
    forall g: nat, w: nat | HasWorker(t, g, w) ensures WorkerOk(t, g, w) { WorkersKept(cfg, s, step, g, w); }
    forall g: nat, id: nat | g < |t.groups| && id < t.groups[g].last
      ensures id in t.groups[g].pel || Settled(t, g, id)
    {
      AccountedKept(cfg, s, step, g, id);
    }
    if step.Dispatch? || step.Exec? { assert WorkerOk(s, step.g, step.w); }
  }

  lemma {:induction false} RunKeepsInv(cfg: Cfg, s: State, steps: seq<Step>)
    requires Init(cfg, s) && Run(cfg, s, steps)
    ensures Inv(cfg, Final(cfg, s, steps))
  {
    if steps != [] {
      var n := |steps| - 1;
      RunKeepsInv(cfg, s, steps[..n]);
      StepKeepsInv(cfg, Final(cfg, s, steps[..n]), steps[n]);
    }
  }

  /** Redis conservation over whole runs: for every group each entry is still ahead
      of what the group read, or pending, or was dispatched with success, was
      unreadable, or lies in the dead-letter stream because this group put it there. */
  lemma Conservation(cfg: Cfg, s: State, steps: seq<Step>, g: nat, id: nat)
    requires Init(cfg, s) && Run(cfg, s, steps) && g < |cfg.maxRetries|
    requires id < |Final(cfg, s, steps).entries|
    ensures var t := Final(cfg, s, steps);
            || id >= t.groups[g].last
            || id in t.groups[g].pel
            || t.entries[id].None?
            || (g, id) in t.done
            || exists i: nat :: i < |t.dlq| && t.dlq[i] == DeadLetter(g, id, t.entries[id].value)
  {
    RunKeepsInv(cfg, s, steps);
    var t := Final(cfg, s, steps);
    if Buried(t, g, id) {
      var i: nat :| i < |t.dlq| && t.dlq[i].group == g && t.dlq[i].id == id;
      assert t.entries[id] == Some(t.dlq[i].e);
    }
  }

  /** The dead-letter write and the removal from the pending list are one step, and an
      entry that left the list never comes back: at no moment of any run is an entry both
      buried by a group and pending for it, with any number of workers. */
  lemma {:induction false} BuriedNeverPending(cfg: Cfg, s: State, steps: seq<Step>, g: nat, id: nat)
    requires Init(cfg, s) && Run(cfg, s, steps) && g < |cfg.maxRetries| && Buried(Final(cfg, s, steps), g, id)
    ensures |Final(cfg, s, steps).groups| == |cfg.maxRetries|
    ensures var x := Final(cfg, s, steps).groups[g]; id !in x.pel && id < x.last
  {
    if steps != [] {
      var n := |steps| - 1;
      var b, x := Final(cfg, s, steps[..n]), steps[n];
      RunKeepsInv(cfg, s, steps[..n]);
      if Buried(b, g, id) {
        BuriedNeverPending(cfg, s, steps[..n], g, id);
      } else {
        BuriedNow(cfg, b, x, g, id);
      }
    }
  }

  lemma BuriedNow(cfg: Cfg, s: State, step: Step, g: nat, id: nat)
    requires Inv(cfg, s) && Can(cfg, s, step) && g < |s.groups|
    requires Buried(Do(cfg, s, step), g, id) && !Buried(s, g, id)
    ensures id !in Do(cfg, s, step).groups[g].pel && id < Do(cfg, s, step).groups[g].last
  {
    var t := Do(cfg, s, step);
    var i: nat :| i < |t.dlq| && t.dlq[i].group == g && t.dlq[i].id == id;
    assert i == |s.dlq|;
    assert WorkerOk(s, g, step.w);
  }

  // ----- refinement of the abstract bus

  ghost predicate Deliverable(s: State, g: nat, id: nat) {
    g < |s.groups| && (id >= s.groups[g].last || id in s.groups[g].pel)
  }

  ghost function Abs(s: State, g: nat): Alo.Bus<nat> {
    var known := set id: nat | id < |s.entries| && s.entries[id].Some?;
    Alo.Bus(known,
            set id | id in known && Deliverable(s, g, id),
            set id | id in known && (g, id) in s.done,
            set id | id in known && (g, id) in s.failed,
            set id | id in known && Buried(s, g, id))
  }

  ghost function MoveOf(s: State, step: Step, g: nat): Alo.Move<nat> {
    match step
    case Add(body) => if body.Some? then Alo.Publish(|s.entries|) else Alo.Stutter
    case Dispatch(g2, w, ok) =>
      if g2 != g || !HasWorker(s, g, w) || !s.groups[g].workers[w].phase.Held? then Alo.Stutter
      else if ok then Alo.Succeed(s.groups[g].workers[w].phase.id)
      else Alo.Fail(s.groups[g].workers[w].phase.id)
    case _ => Alo.Stutter
  }

  /** The moves of one step: a MULTI/EXEC is a dead-letter write and a removal at once. */
  ghost function MovesOf(s: State, step: Step, g: nat): seq<Alo.Move<nat>> {
    if step.Exec? && step.g == g && HasWorker(s, g, step.w) && s.groups[g].workers[step.w].phase.Settling? then
      var p := s.groups[g].workers[step.w].phase;
      var bury := if p.cmd.Bury? then [Alo.Bury(p.id)] else [];
      if p.id < |s.entries| && s.entries[p.id].Some? then bury + [Alo.Retire(p.id)] else []
    else [MoveOf(s, step, g)]
  }

  lemma StepRefines(cfg: Cfg, s: State, step: Step, g: nat)
    requires Inv(cfg, s) && Can(cfg, s, step) && g < |s.groups|
    ensures Alo.Legal(Abs(s, g), MovesOf(s, step, g))
    ensures Alo.After(Abs(s, g), MovesOf(s, step, g)) == Abs(Do(cfg, s, step), g)
  {
    if step.Exec? && step.g == g {
      ExecRefines(cfg, s, step, g);
    } else {
      var a, m := Abs(s, g), MoveOf(s, step, g);
      OneMoveRefines(cfg, s, step, g);
      Alo.JoinsOne(a, [], m);
      assert [] + [m] == [m];
    }
  }

  lemma OneMoveRefines(cfg: Cfg, s: State, step: Step, g: nat)
    requires Inv(cfg, s) && Can(cfg, s, step) && g < |s.groups| && !(step.Exec? && step.g == g)
    ensures Alo.Can(Abs(s, g), MoveOf(s, step, g))
    ensures Abs(Do(cfg, s, step), g) == Alo.Do(Abs(s, g), MoveOf(s, step, g))
  {
    var a, b, m := Abs(s, g), Abs(Do(cfg, s, step), g), MoveOf(s, step, g);
    if step.Dispatch? { assert WorkerOk(s, step.g, step.w); }
    BuriedOnlyByExec(cfg, s, step, g);
    assert b.published == Alo.Do(a, m).published;
    assert b.outstanding == Alo.Do(a, m).outstanding;
    assert b.done == Alo.Do(a, m).done;
    assert b.failed == Alo.Do(a, m).failed;
    assert b.dead == Alo.Do(a, m).dead;
  }

  lemma BuriedOnlyByExec(cfg: Cfg, s: State, step: Step, g: nat)
    requires Inv(cfg, s) && Can(cfg, s, step) && !(step.Exec? && step.g == g)
    ensures forall id: nat :: Buried(Do(cfg, s, step), g, id) <==> Buried(s, g, id)
    ensures forall id: nat | Buried(s, g, id) :: id < |s.entries|
  {
    var t := Do(cfg, s, step);
    forall id: nat ensures Buried(t, g, id) <==> Buried(s, g, id) {
      if Buried(t, g, id) {
        var i: nat :| i < |t.dlq| && t.dlq[i].group == g && t.dlq[i].id == id;
        assert i < |s.dlq| && s.dlq[i] == t.dlq[i];
      }
      if Buried(s, g, id) {
        var i: nat :| i < |s.dlq| && s.dlq[i].group == g && s.dlq[i].id == id;
        assert s.dlq[i] == t.dlq[i];
      }
    }
  }

  lemma BuriedAfterExec(cfg: Cfg, s: State, step: Step, g: nat, id: nat)
    requires Inv(cfg, s) && Can(cfg, s, step) && step.Exec? && step.g == g
    ensures var p := s.groups[g].workers[step.w].phase;
            Buried(Do(cfg, s, step), g, id) <==> Buried(s, g, id) || (p.cmd.Bury? && id == p.id)
  {
    var t, p := Do(cfg, s, step), s.groups[g].workers[step.w].phase;
    if Buried(s, g, id) {
      var i: nat :| i < |s.dlq| && s.dlq[i].group == g && s.dlq[i].id == id;
      assert s.dlq[i] == t.dlq[i];
    }
    if p.cmd.Bury? { assert t.dlq[|s.dlq|].id == p.id; }
    if Buried(t, g, id) {
      var i: nat :| i < |t.dlq| && t.dlq[i].group == g && t.dlq[i].id == id;
      if i < |s.dlq| { assert s.dlq[i] == t.dlq[i]; }
    }
  }

  /** What an acknowledgement or a burial does to the abstract bus. */
  lemma ExecAbs(cfg: Cfg, s: State, step: Step, g: nat)
    requires Inv(cfg, s) && Can(cfg, s, step) && step.Exec? && step.g == g
    ensures var p := s.groups[g].workers[step.w].phase;
            var a, b := Abs(s, g), Abs(Do(cfg, s, step), g);
            && p.id < |s.entries|
            && b.published == a.published && b.outstanding == a.outstanding - {p.id}
            && b.done == a.done && b.failed == a.failed
            && b.dead == a.dead + (if p.cmd.Bury? then {p.id} else {})
  {
    var p := s.groups[g].workers[step.w].phase;
    var a, b := Abs(s, g), Abs(Do(cfg, s, step), g);
    assert WorkerOk(s, g, step.w);
    forall id: nat ensures id in b.dead <==> id in a.dead || (p.cmd.Bury? && id == p.id) {
      BuriedAfterExec(cfg, s, step, g, id);
    }
  }

  lemma ExecRefines(cfg: Cfg, s: State, step: Step, g: nat)
    requires Inv(cfg, s) && Can(cfg, s, step) && step.Exec? && step.g == g
    ensures Alo.Legal(Abs(s, g), MovesOf(s, step, g))
    ensures Alo.After(Abs(s, g), MovesOf(s, step, g)) == Abs(Do(cfg, s, step), g)
  {
    var p, a := s.groups[g].workers[step.w].phase, Abs(s, g);
    assert WorkerOk(s, g, step.w);
    ExecAbs(cfg, s, step, g);
    if s.entries[p.id].Some? {
      var bury: seq<Alo.Move<nat>> := if p.cmd.Bury? then [Alo.Bury(p.id)] else [];
      if p.cmd.Bury? {
        Alo.JoinsOne(a, [], Alo.Bury(p.id));
        assert [] + bury == bury;
      }
      Alo.JoinsOne(a, bury, Alo.Retire(p.id));
    }
  }

  ghost function Moves(cfg: Cfg, s: State, steps: seq<Step>, g: nat): seq<Alo.Move<nat>>
    requires Run(cfg, s, steps)
  {
    if steps == [] then [] else
      var n := |steps| - 1;
      Moves(cfg, s, steps[..n], g) + MovesOf(Final(cfg, s, steps[..n]), steps[n], g)
  }

  /** The common refinement for Redis; a stream may already hold entries when the
      group is created, and these are what the run starts from. */
  lemma {:induction false} RunRefines(cfg: Cfg, s: State, steps: seq<Step>, g: nat)
    requires Init(cfg, s) && Run(cfg, s, steps) && g < |cfg.maxRetries|
    ensures Alo.Fresh(Abs(s, g)) && Alo.Legal(Abs(s, g), Moves(cfg, s, steps, g))
    ensures Alo.After(Abs(s, g), Moves(cfg, s, steps, g)) == Abs(Final(cfg, s, steps), g)
  {
    if steps != [] {
      var n := |steps| - 1;
      var t := Final(cfg, s, steps[..n]);
      RunRefines(cfg, s, steps[..n], g);
      RunKeepsInv(cfg, s, steps[..n]);
      StepRefines(cfg, t, steps[n], g);
      Alo.Joins(Abs(s, g), Moves(cfg, s, steps[..n], g), MovesOf(t, steps[n], g));
    }
  }
}
