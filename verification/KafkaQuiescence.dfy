/** A Kafka backend to which nobody publishes any more comes to rest, although every retry
    is read by all groups. */
module KafkaQuiescence {
  import opened Wrappers
  import opened Events
  import opened Counters
  import opened Sums
  import opened KafkaMachine
  import opened KafkaConservation
  import opened KafkaBudget

  /** Steps that only follow from records already in the logs. */
  ghost predicate IsProtocol(step: Step) {
    step.Fetch? || step.Dispatch? || step.Exec?
  }

  /** Steps a record with k retries left can cause, for a group that reads it, by all n groups. */
  ghost function Cost(n: nat, k: int): nat
    decreases if k < 0 then 0 else k + 1
  {
    if k < 0 then 4 else 4 + n * Cost(n, k - 1)
  }

  /** A dead letter somebody reads has no receiver there. */
  ghost function RecCost(cfg: Cfg, g: nat, max: int, rec: Rec): nat {
    if rec.body.None? then 2
    else if cfg.Subscribes(g, rec.body.value.eventType) then Cost(|cfg.groups|, Tries(max) - 1 - rec.retry)
    else 4
  }

  ghost function CostFrom(cfg: Cfg, g: nat, max: int, log: seq<Rec>, from: nat): nat
    requires from <= |log|
    decreases |log| - from
  {
    if from == |log| then 0 else RecCost(cfg, g, max, log[from]) + CostFrom(cfg, g, max, log, from + 1)
  }

  lemma {:induction false} CostAppend(cfg: Cfg, g: nat, max: int, log: seq<Rec>, from: nat, rec: Rec)
    requires from <= |log|
    ensures CostFrom(cfg, g, max, log + [rec], from) == CostFrom(cfg, g, max, log, from) + RecCost(cfg, g, max, rec)
    decreases |log| - from
  {
    if from < |log| {
      CostAppend(cfg, g, max, log, from + 1, rec);
      assert (log + [rec])[from] == log[from];
    } else {
      assert CostFrom(cfg, g, max, log + [rec], from + 1) == 0;
    }
  }

  /** What the group has done already about the record in hand. */
  ghost function Spent(cfg: Cfg, g: nat, max: int, log: seq<Rec>, c: Cell): int {
    if !c.owned || c.phase.Idle? || c.phase.off >= |log| then 0
    else if c.phase.Held? then 1
    else if |c.phase.todo| == 1 then RecCost(cfg, g, max, log[c.phase.off]) - 1
    else 2
  }

  ghost function CellWork(cfg: Cfg, max: int, g: nat, p: nat, log: seq<Rec>, c: Cell): int {
    if cfg.Assignable(g, p) && c.committed <= |log|
    then CostFrom(cfg, g, max, log, c.committed) - Spent(cfg, g, max, log, c) else 0
  }

  ghost function PartWork(cfg: Cfg, s: State, max: int, g: nat): nat -> int {
    (p: nat) => if HasCell(cfg, s, g, p) then CellWork(cfg, max, g, p, s.logs[p], s.cells[g][p]) else 0
  }

  ghost function GroupWork(cfg: Cfg, s: State, max: int): nat -> int {
    (g: nat) => Upto(|cfg.topicOf|, PartWork(cfg, s, max, g))
  }

  /** Protocol steps still to come. */
  ghost function Work(cfg: Cfg, s: State, max: int): int {
    Upto(|cfg.groups|, GroupWork(cfg, s, max))
  }

  lemma SetCellWork(cfg: Cfg, s: State, max: int, g: nat, p: nat, c: Cell)
    requires HasCell(cfg, s, g, p)
    ensures Work(cfg, SetCell(s, g, p, c), max) == Work(cfg, s, max)
            - CellWork(cfg, max, g, p, s.logs[p], s.cells[g][p]) + CellWork(cfg, max, g, p, s.logs[p], c)
  {
    var t, n := SetCell(s, g, p, c), |cfg.topicOf|;
    var a, b := GroupWork(cfg, s, max), GroupWork(cfg, t, max);
    UptoChange(n, PartWork(cfg, s, max, g), PartWork(cfg, t, max, g), p);
    forall h: nat | h < |cfg.groups| && h != g ensures a(h) == b(h) {
      UptoSame(n, PartWork(cfg, s, max, h), PartWork(cfg, t, max, h));
    }
    UptoChange(|cfg.groups|, a, b, g);
  }

  /** A record appended to a partition costs each group at most its price. */
  lemma AppendWork(cfg: Cfg, s: State, max: int, q: nat, rec: Rec, price: nat)
    requires Shaped(cfg, s) && q < |s.logs|
    requires forall h: nat | h < |cfg.groups| ::
               && RecCost(cfg, h, max, rec) <= price
               && s.cells[h][q].committed <= |s.logs[q]|
               && (s.cells[h][q].owned && !s.cells[h][q].phase.Idle? ==> s.cells[h][q].phase.off < |s.logs[q]|)
    ensures Work(cfg, Append(s, q, rec), max) <= Work(cfg, s, max) + |cfg.groups| * price
  {
    var t, n := Append(s, q, rec), |cfg.groups|;
    var a, b := GroupWork(cfg, s, max), GroupWork(cfg, t, max);
    forall h: nat | h < n ensures b(h) <= a(h) + price {
      UptoChange(|cfg.topicOf|, PartWork(cfg, s, max, h), PartWork(cfg, t, max, h), q);
      CostAppend(cfg, h, max, s.logs[q], s.cells[h][q].committed, rec);
      assert HasCell(cfg, s, h, q);
    }
    UptoShift(n, b, a, price);
  }

  lemma SameWork(cfg: Cfg, s: State, t: State, max: int)
    requires s.logs == t.logs && s.cells == t.cells
    ensures Work(cfg, s, max) == Work(cfg, t, max)
  {
    var a, b := GroupWork(cfg, s, max), GroupWork(cfg, t, max);
    forall h: nat | h < |cfg.groups| ensures a(h) == b(h) {
      UptoSame(|cfg.topicOf|, PartWork(cfg, s, max, h), PartWork(cfg, t, max, h));
    }
    UptoSame(|cfg.groups|, a, b);
  }

  // ----- every protocol step costs

  lemma FetchOrDispatchCosts(cfg: Cfg, s: State, step: Step, max: int)
    requires Ranged(cfg, s, max) && Can(cfg, s, step) && (step.Fetch? || step.Dispatch?)
    ensures Work(cfg, Do(cfg, s, step), max) + 1 <= Work(cfg, s, max)
  {
    var g, p := step.g, step.p;
    var c1 := Do(cfg, s, step).cells[g][p];
    assert CellOk(cfg, s, g, p);
    SetCellWork(cfg, s, max, g, p, c1);
    SameWork(cfg, SetCell(s, g, p, c1), Do(cfg, s, step), max);
    CostsAtLeast(cfg, g, max, s.logs[p][s.cells[g][p].committed]);
  }

  lemma {:induction false} CostAtLeast4(n: nat, k: int)
    ensures Cost(n, k) >= 4
  {
    if k >= 0 { assert n * Cost(n, k - 1) >= 0; }
  }

  lemma CostsAtLeast(cfg: Cfg, g: nat, max: int, rec: Rec)
    ensures RecCost(cfg, g, max, rec) >= if rec.body.Some? then 4 else 2
  {
    CostAtLeast4(|cfg.groups|, Tries(max) - 1 - rec.retry);
  }

  lemma CommitCosts(cfg: Cfg, s: State, g: nat, p: nat, max: int)
    requires Ranged(cfg, s, max) && Can(cfg, s, Exec(g, p)) && s.cells[g][p].phase.todo[0].Commit?
    ensures Work(cfg, Do(cfg, s, Exec(g, p)), max) + 1 <= Work(cfg, s, max)
  {
    var t := Do(cfg, s, Exec(g, p));
    assert CellOk(cfg, s, g, p);
    CommitIsCovered(cfg, s, g, p);
    SetCellWork(cfg, s, max, g, p, t.cells[g][p]);
    SameWork(cfg, SetCell(s, g, p, t.cells[g][p]), t, max);
  }

  /** The record in hand has paid for the copy in advance, in every group. */
  lemma ProduceCosts(cfg: Cfg, s: State, g: nat, p: nat, max: int)
    requires Ranged(cfg, s, max) && Can(cfg, s, Exec(g, p)) && s.cells[g][p].phase.todo[0].Produce?
    ensures Work(cfg, Do(cfg, s, Exec(g, p)), max) + 1 <= Work(cfg, s, max)
  {
    var t, todo := Do(cfg, s, Exec(g, p)), s.cells[g][p].phase.todo;
    var s1, k := SetCell(s, g, p, t.cells[g][p]), Tries(max) - 1 - todo[0].rec.retry;
    SetCellWork(cfg, s, max, g, p, t.cells[g][p]);
    ProduceGivesBack(cfg, s, g, p, max);
    forall h: nat | h < |cfg.groups|
      ensures RecCost(cfg, h, max, todo[0].rec) <= Cost(|cfg.groups|, k)
      ensures s1.cells[h][todo[0].part].committed <= |s1.logs[todo[0].part]|
      ensures var cell := s1.cells[h][todo[0].part];
              cell.owned && !cell.phase.Idle? ==> cell.phase.off < |s1.logs[todo[0].part]|
    {
      assert HasCell(cfg, s, h, todo[0].part);
      OffsetsFit(cfg, s, g, p, h, todo[0].part);
      CostAtLeast4(|cfg.groups|, k);
    }
    AppendWork(cfg, s1, max, todo[0].part, todo[0].rec, Cost(|cfg.groups|, k));
    SameWork(cfg, Append(s1, todo[0].part, todo[0].rec), t, max);
  }

  lemma ProduceGivesBack(cfg: Cfg, s: State, g: nat, p: nat, max: int)
    requires Ranged(cfg, s, max) && Can(cfg, s, Exec(g, p)) && s.cells[g][p].phase.todo[0].Produce?
    ensures var k := Tries(max) - 1 - s.cells[g][p].phase.todo[0].rec.retry;
            CellWork(cfg, max, g, p, s.logs[p], Do(cfg, s, Exec(g, p)).cells[g][p]) + 1 + |cfg.groups| * Cost(|cfg.groups|, k)
            <= CellWork(cfg, max, g, p, s.logs[p], s.cells[g][p])
  {
    assert CellOk(cfg, s, g, p);
    ProducedRecord(cfg, s, g, p, max);
  }

  lemma StepCosts(cfg: Cfg, s: State, step: Step, max: int)
    requires Ranged(cfg, s, max) && Can(cfg, s, step) && IsProtocol(step)
    ensures Work(cfg, Do(cfg, s, step), max) + 1 <= Work(cfg, s, max)
  {
    if !step.Exec? {
      FetchOrDispatchCosts(cfg, s, step, max);
    } else if s.cells[step.g][step.p].phase.todo[0].Commit? {
      CommitCosts(cfg, s, step.g, step.p, max);
    } else {
      ProduceCosts(cfg, s, step.g, step.p, max);
    }
  }

  lemma {:induction false} CostCovers(cfg: Cfg, g: nat, max: int, log: seq<Rec>, from: nat)
    requires from <= |log|
    ensures CostFrom(cfg, g, max, log, from) >= if from < |log| then RecCost(cfg, g, max, log[from]) else 0
  {
  }

  lemma WorkPositive(cfg: Cfg, s: State, max: int)
    requires Ranged(cfg, s, max)
    ensures Work(cfg, s, max) >= 0
  {
    var a := GroupWork(cfg, s, max);
    forall g: nat | g < |cfg.groups| ensures a(g) >= 0 {
      var part := PartWork(cfg, s, max, g);
      forall p: nat | p < |cfg.topicOf| ensures part(p) >= 0 {
        var c := s.cells[g][p];
        assert HasCell(cfg, s, g, p) && CellOk(cfg, s, g, p);
        CostCovers(cfg, g, max, s.logs[p], c.committed);
        if c.committed < |s.logs[p]| { CostsAtLeast(cfg, g, max, s.logs[p][c.committed]); }
      }
      UptoNonNegative(|cfg.topicOf|, part);
    }
    UptoNonNegative(|cfg.groups|, a);
  }

  /** Without new messages and without workers stopping everything settles: from any
      reachable state only so many polls, dispatches, produces and commits can follow,
      by all n groups together. */
  lemma {:induction false} Quiesces(cfg: Cfg, s: State, steps: seq<Step>, max: int)
    requires Ranged(cfg, s, max) && Run(cfg, s, steps)
    requires forall i | 0 <= i < |steps| :: IsProtocol(steps[i])
    ensures Ranged(cfg, Final(cfg, s, steps), max)
    ensures |steps| + Work(cfg, Final(cfg, s, steps), max) <= Work(cfg, s, max)
    ensures |steps| <= Work(cfg, s, max)
  {
    if steps != [] {
      var n := |steps| - 1;
      Quiesces(cfg, s, steps[..n], max);
      var t := Final(cfg, s, steps[..n]);
      StepCosts(cfg, t, steps[n], max);
      StepKeepsRange(cfg, t, steps[n], max);
    }
    WorkPositive(cfg, Final(cfg, s, steps), max);
  }
}
