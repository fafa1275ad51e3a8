/** How often a Kafka event can be dispatched, dead-lettered and copied, by all groups of
    its topic together. */
module KafkaBudget {
  import opened Wrappers
  import opened Events
  import opened Counters
  import opened Sums
  import opened KafkaMachine
  import opened KafkaConservation

  /** Every service has its own MAX_RETRIES; max bounds them all. */
  ghost predicate LimitsUpTo(cfg: Cfg, max: int) {
    forall g: nat | g < |cfg.groups| :: cfg.groups[g].maxRetries <= max
  }

  lemma {:induction false} SomeLimit(cfg: Cfg, n: nat) returns (max: int)
    requires n <= |cfg.groups|
    ensures forall g: nat | g < n :: cfg.groups[g].maxRetries <= max
  {
    max := 0;
    if n > 0 {
      max := SomeLimit(cfg, n - 1);
      if max < cfg.groups[n - 1].maxRetries { max := cfg.groups[n - 1].maxRetries; }
    }
  }

  // ----- the retry header

  /** Group h gave this event up, at its own limit. */
  ghost predicate GaveUp(cfg: Cfg, s: State, h: nat, rec: Rec) {
    && h < |cfg.groups| && rec.body.Some? && (h, rec.body.value) in s.dead
    && Tries(cfg.groups[h].maxRetries) <= rec.retry
  }

  /** Main-topic copies carry a count below M, dead letters at most M and at least the
      limit of a group that gave up. */
  ghost predicate InRange(cfg: Cfg, s: State, max: int, p: nat, o: nat)
    requires p < |s.logs| && o < |s.logs[p]|
  {
    var rec := s.logs[p][o];
    rec.body.Some? ==>
      && (cfg.IsMain(p, rec.body.value.eventType) ==> 0 <= rec.retry < Tries(max))
      && (cfg.IsDlq(p, rec.body.value.eventType) ==>
            rec.retry <= Tries(max) && exists h: nat :: GaveUp(cfg, s, h, rec))
  }

  ghost predicate Ranged(cfg: Cfg, s: State, max: int) {
    && Inv(cfg, s) && LimitsUpTo(cfg, max) && cfg.LoopFree()
    && forall p: nat, o: nat | p < |s.logs| && o < |s.logs[p]| :: InRange(cfg, s, max, p, o)
  }

  /** What a group reads is either an event it subscribed to, on that event's own topic, or
      somebody's dead letter, for which it has no receiver. */
  lemma ReadsOwnTopics(cfg: Cfg, s: State, g: nat, p: nat, o: nat)
    requires Inv(cfg, s) && cfg.LoopFree() && HasCell(cfg, s, g, p) && cfg.Assignable(g, p)
    requires o < |s.logs[p]| && s.logs[p][o].body.Some?
    ensures var t := s.logs[p][o].body.value.eventType; cfg.Subscribes(g, t) <==> cfg.IsMain(p, t)
  {
    var t := s.logs[p][o].body.value.eventType;
    var u: string :| cfg.Subscribes(g, u) && cfg.IsMain(p, u);
    DlqTopicIsMainTopicIff(cfg, u, t);
    assert RecOk(cfg, s, p, o);
    var r: nat :| cfg.IsMain(r, t);
    assert !cfg.Loops(g, t, r, p);
  }

  lemma StepKeepsRange(cfg: Cfg, s: State, step: Step, max: int)
    requires Ranged(cfg, s, max) && Can(cfg, s, step)
    ensures Ranged(cfg, Do(cfg, s, step), max)
  {
    var s' := Do(cfg, s, step);
    StepKeepsInv(cfg, s, step);
    forall p: nat, o: nat | p < |s'.logs| && o < |s'.logs[p]| ensures InRange(cfg, s', max, p, o) {
      if o < |s.logs[p]| {
        OldStaysInRange(cfg, s, step, max, p, o);
      } else if step.Publish? {
        DlqTopicIsMainTopicIff(cfg, step.e.eventType, step.e.eventType);
      } else if step.Exec? {
        NewIsInRange(cfg, s, step.g, step.p, max);
      }
    }
  }

  lemma OldStaysInRange(cfg: Cfg, s: State, step: Step, max: int, p: nat, o: nat)
    requires Ranged(cfg, s, max) && Can(cfg, s, step) && p < |s.logs| && o < |s.logs[p]|
    ensures p < |Do(cfg, s, step).logs| && o < |Do(cfg, s, step).logs[p]|
    ensures InRange(cfg, Do(cfg, s, step), max, p, o)
  {
    assert InRange(cfg, s, max, p, o);
    var rec := s.logs[p][o];
    if rec.body.Some? && cfg.IsDlq(p, rec.body.value.eventType) {
      var h: nat :| GaveUp(cfg, s, h, rec);
      assert GaveUp(cfg, Do(cfg, s, step), h, rec);
    }
  }

  lemma NewIsInRange(cfg: Cfg, s: State, g: nat, p: nat, max: int)
    requires Ranged(cfg, s, max) && Can(cfg, s, Exec(g, p)) && s.cells[g][p].phase.todo[0].Produce?
    ensures var s', q := Do(cfg, s, Exec(g, p)), s.cells[g][p].phase.todo[0].part;
            q < |s'.logs| && |s'.logs[q]| > 0 && InRange(cfg, s', max, q, |s'.logs[q]| - 1)
  {
    ProducedRecord(cfg, s, g, p, max);
    var s', todo := Do(cfg, s, Exec(g, p)), s.cells[g][p].phase.todo;
    if cfg.IsDlq(todo[0].part, todo[0].rec.body.value.eventType) { assert GaveUp(cfg, s', g, todo[0].rec); }
  }

  /** What fail() writes, and when: a retry exactly while the group's own limit is not
      reached, and always with a count below M; a dead letter at it. */
  lemma ProducedRecord(cfg: Cfg, s: State, g: nat, p: nat, max: int)
    requires Ranged(cfg, s, max) && Can(cfg, s, Exec(g, p)) && s.cells[g][p].phase.todo[0].Produce?
    ensures var off, todo := s.cells[g][p].committed, s.cells[g][p].phase.todo;
            && off < |s.logs[p]| && s.logs[p][off].body.Some?
            && s.cells[g][p].phase == Settling(off, FailCmds(s.logs[p][off], p, off, todo[0].part))
            && var rec, t := s.logs[p][off], s.logs[p][off].body.value.eventType;
               && 0 <= rec.retry < Tries(max)
               && cfg.Subscribes(g, t) && cfg.IsMain(p, t)
               && (cfg.IsMain(todo[0].part, t) <==> Retries(cfg, g, rec))
               && (cfg.IsDlq(todo[0].part, t) <==> !Retries(cfg, g, rec))
               && (Retries(cfg, g, rec) ==> rec.retry + 1 < Tries(max))
  {
    var c := s.cells[g][p];
    assert CellOk(cfg, s, g, p);
    var q: nat :| IsFailPlan(cfg, s, g, p, c.committed, c.phase.todo, q);
    ReadsOwnTopics(cfg, s, g, p, c.committed);
    assert InRange(cfg, s, max, p, c.committed);
    var e := s.logs[p][c.committed].body.value;
    DlqTopicIsMainTopicIff(cfg, e.eventType, e.eventType);
  }

  lemma {:induction false} RunKeepsRange(cfg: Cfg, s: State, steps: seq<Step>, max: int)
    requires Init(cfg, s) && Run(cfg, s, steps) && LimitsUpTo(cfg, max) && cfg.LoopFree()
    ensures Ranged(cfg, Final(cfg, s, steps), max)
  {
    if steps != [] {
      var n := |steps| - 1;
      RunKeepsRange(cfg, s, steps[..n], max);
      StepKeepsRange(cfg, Final(cfg, s, steps[..n]), steps[n], max);
    } else {
      RunKeepsInv(cfg, s, steps);
    }
  }

  /** Where all services have the same limit, dead letters carry exactly that count. */
  lemma SameLimitSameCount(cfg: Cfg, s: State, steps: seq<Step>, max: int, p: nat, o: nat)
    requires Init(cfg, s) && Run(cfg, s, steps) && cfg.LoopFree()
    requires forall g: nat | g < |cfg.groups| :: cfg.groups[g].maxRetries == max
    requires p < |Final(cfg, s, steps).logs| && o < |Final(cfg, s, steps).logs[p]|
    requires var b := Final(cfg, s, steps).logs[p][o].body; b.Some? && cfg.IsDlq(p, b.value.eventType)
    ensures Final(cfg, s, steps).logs[p][o].retry == Tries(max)
  {
    RunKeepsRange(cfg, s, steps, max);
    assert InRange(cfg, Final(cfg, s, steps), max, p, o);
  }

  // ----- counting copies
  //
  // count picks the retry count of interest; None stands for any.

  ghost predicate Matches(rec: Rec, e: Envelope, count: Option<nat>) {
    rec.body == Some(e) && (count.Some? ==> rec.retry == count.value)
  }

  ghost function One(b: bool): nat { if b then 1 else 0 }

  ghost function CountFrom(log: seq<Rec>, from: nat, e: Envelope, count: Option<nat>): nat
    requires from <= |log|
    decreases |log| - from
  {
    if from == |log| then 0 else One(Matches(log[from], e, count)) + CountFrom(log, from + 1, e, count)
  }

  lemma {:induction false} CountAppend(log: seq<Rec>, from: nat, rec: Rec, e: Envelope, count: Option<nat>)
    requires from <= |log|
    ensures CountFrom(log + [rec], from, e, count) == CountFrom(log, from, e, count) + One(Matches(rec, e, count))
    decreases |log| - from
  {
    if from < |log| {
      CountAppend(log, from + 1, rec, e, count);
      assert (log + [rec])[from] == log[from];
    } else {
      assert CountFrom(log + [rec], from + 1, e, count) == 0;
    }
  }

  ghost function CopiesIn(cfg: Cfg, s: State, topic: string, e: Envelope, count: Option<nat>): nat -> int {
    (p: nat) => if p < |s.logs| && p < |cfg.topicOf| && cfg.topicOf[p] == topic then CountFrom(s.logs[p], 0, e, count) else 0
  }

  /** How many records of the topic are copies of e with that retry count. */
  ghost function Copies(cfg: Cfg, s: State, topic: string, e: Envelope, count: Option<nat>): int {
    Upto(|cfg.topicOf|, CopiesIn(cfg, s, topic, e, count))
  }

  /** This step is a produce of fail(). */
  ghost predicate Produces(cfg: Cfg, s: State, step: Step) {
    && step.Exec? && HasCell(cfg, s, step.g, step.p) && s.cells[step.g][step.p].phase.Settling?
    && var todo := s.cells[step.g][step.p].phase.todo; todo != [] && todo[0].Produce?
  }

  /** fail() produces a copy of e with that count, whatever the topic. */
  ghost predicate Passes(cfg: Cfg, s: State, step: Step, e: Envelope, count: Option<nat>) {
    Produces(cfg, s, step) && Matches(s.cells[step.g][step.p].phase.todo[0].rec, e, count)
  }

  ghost predicate PassesTo(cfg: Cfg, s: State, step: Step, topic: string, e: Envelope, count: Option<nat>) {
    && Passes(cfg, s, step, e, count)
    && var q := s.cells[step.g][step.p].phase.todo[0].part; q < |cfg.topicOf| && cfg.topicOf[q] == topic
  }

  /** This step adds a copy of e with that count to the topic. */
  ghost predicate Writes(cfg: Cfg, s: State, step: Step, topic: string, e: Envelope, count: Option<nat>) {
    || (step.Publish? && step.p < |cfg.topicOf| && cfg.topicOf[step.p] == topic && Matches(Rec(Some(step.e), 0), e, count))
    || PassesTo(cfg, s, step, topic, e, count)
  }

  lemma CopiesAppend(cfg: Cfg, s: State, t: State, q: nat, rec: Rec, topic: string, e: Envelope, count: Option<nat>)
    requires q < |s.logs| == |cfg.topicOf| && t.logs == Append(s, q, rec).logs
    ensures Copies(cfg, t, topic, e, count)
            == Copies(cfg, s, topic, e, count) + One(cfg.topicOf[q] == topic && Matches(rec, e, count))
  {
    UptoChange(|cfg.topicOf|, CopiesIn(cfg, s, topic, e, count), CopiesIn(cfg, t, topic, e, count), q);
    CountAppend(s.logs[q], 0, rec, e, count);
  }

  lemma CopiesStep(cfg: Cfg, s: State, step: Step, topic: string, e: Envelope, count: Option<nat>)
    requires Can(cfg, s, step)
    ensures Copies(cfg, Do(cfg, s, step), topic, e, count)
            == Copies(cfg, s, topic, e, count) + One(Writes(cfg, s, step, topic, e, count))
  {
    var t := Do(cfg, s, step);
    if step.Publish? {
      CopiesAppend(cfg, s, t, step.p, Rec(Some(step.e), 0), topic, e, count);
    } else if step.Garbage? {
      CopiesAppend(cfg, s, t, step.p, Rec(None, step.retry), topic, e, count);
    } else if Produces(cfg, s, step) {
      var cmd := s.cells[step.g][step.p].phase.todo[0];
      CopiesAppend(cfg, s, t, cmd.part, cmd.rec, topic, e, count);
    } else {
      UptoSame(|cfg.topicOf|, CopiesIn(cfg, s, topic, e, count), CopiesIn(cfg, t, topic, e, count));
    }
  }

  // ----- what the copies of one level are still good for
  //
  // Level c are the copies of e with retry count c. A group uses a copy up when it
  // dispatches it (turn), or when it passes it on with the count c + 1 (not turn); both
  // proofs are the same.

  /** The copy in hand is used up already although its offset is not committed. */
  ghost function Rebate(turn: bool, c: nat, e: Envelope, log: seq<Rec>, cell: Cell): nat {
    One(cell.owned && cell.phase.Settling? && cell.phase.off < |log| && Matches(log[cell.phase.off], e, Some(c))
        && (turn || |cell.phase.todo| == 1))
  }

  ghost function PartWorth(cfg: Cfg, turn: bool, c: nat, e: Envelope, p: nat, log: seq<Rec>, cell: Cell): int {
    if cfg.IsMain(p, e.eventType) && cell.committed <= |log|
    then CountFrom(log, cell.committed, e, Some(c)) - Rebate(turn, c, e, log, cell) else 0
  }

  ghost function PartOf(cfg: Cfg, s: State, g: nat, turn: bool, c: nat, e: Envelope): nat -> int {
    (p: nat) => if HasCell(cfg, s, g, p) then PartWorth(cfg, turn, c, e, p, s.logs[p], s.cells[g][p]) else 0
  }

  /** Copies of level c that group g has not used up. */
  ghost function GroupWorth(cfg: Cfg, s: State, g: nat, turn: bool, c: nat, e: Envelope): int {
    Upto(|cfg.topicOf|, PartOf(cfg, s, g, turn, c, e))
  }

  lemma CellChange(cfg: Cfg, s: State, t: State, g: nat, h: nat, p: nat, cell: Cell, turn: bool, c: nat, e: Envelope)
    requires HasCell(cfg, s, g, p) && h < |cfg.groups|
    requires t.logs == s.logs && t.cells == SetCell(s, g, p, cell).cells
    ensures GroupWorth(cfg, t, h, turn, c, e) == GroupWorth(cfg, s, h, turn, c, e)
            + if g == h then PartWorth(cfg, turn, c, e, p, s.logs[p], cell)
                             - PartWorth(cfg, turn, c, e, p, s.logs[p], s.cells[g][p]) else 0
  {
    if g == h {
      UptoChange(|cfg.topicOf|, PartOf(cfg, s, h, turn, c, e), PartOf(cfg, t, h, turn, c, e), p);
    } else {
      UptoSame(|cfg.topicOf|, PartOf(cfg, s, h, turn, c, e), PartOf(cfg, t, h, turn, c, e));
    }
  }

  lemma LogChange(cfg: Cfg, s: State, t: State, h: nat, q: nat, rec: Rec, turn: bool, c: nat, e: Envelope)
    requires HasCell(cfg, s, h, q) && s.cells[h][q].committed <= |s.logs[q]|
    requires s.cells[h][q].owned && s.cells[h][q].phase.Settling? ==> s.cells[h][q].phase.off < |s.logs[q]|
    requires t.cells == s.cells && t.logs == Append(s, q, rec).logs
    ensures GroupWorth(cfg, t, h, turn, c, e) == GroupWorth(cfg, s, h, turn, c, e)
            + One(cfg.IsMain(q, e.eventType) && Matches(rec, e, Some(c)))
  {
    UptoChange(|cfg.topicOf|, PartOf(cfg, s, h, turn, c, e), PartOf(cfg, t, h, turn, c, e), q);
    CountAppend(s.logs[q], s.cells[h][q].committed, rec, e, Some(c));
  }

  /** The group has receivers for e and its cell (g, p) is busy with a copy of that count. */
  ghost predicate Busy(cfg: Cfg, s: State, g: nat, p: nat, e: Envelope, count: Option<nat>) {
    && HasCell(cfg, s, g, p) && cfg.Subscribes(g, e.eventType)
    && var cell := s.cells[g][p];
       cell.owned && !cell.phase.Idle? && cell.phase.off < |s.logs[p]| && Matches(s.logs[p][cell.phase.off], e, count)
  }

  ghost predicate Dispatches(cfg: Cfg, s: State, step: Step, e: Envelope, count: Option<nat>) {
    step.Dispatch? && Busy(cfg, s, step.g, step.p, e, count)
  }

  /** A worker stops between the dispatch of e and the commit of its offset. */
  ghost predicate Stops(cfg: Cfg, s: State, step: Step, e: Envelope, count: Option<nat>) {
    step.Lose? && Busy(cfg, s, step.g, step.p, e, count) && s.cells[step.g][step.p].phase.Settling?
  }

  ghost predicate UsesUp(cfg: Cfg, s: State, step: Step, turn: bool, c: nat, e: Envelope) {
    if turn then Dispatches(cfg, s, step, e, Some(c)) else Passes(cfg, s, step, e, Some(c + 1))
  }

  /** A step of a worker of one of the first n groups. */
  ghost predicate ByOneOf(step: Step, n: nat) {
    !step.Publish? && !step.Garbage? && step.g < n
  }

  ghost predicate By(step: Step, h: nat) {
    !step.Publish? && !step.Garbage? && step.g == h
  }

  /** A group is given one more copy to use up by a write to the topic, or by a stop. */
  ghost predicate StepPays(cfg: Cfg, s: State, step: Step, h: nat, turn: bool, c: nat, e: Envelope)
    requires Can(cfg, s, step)
  {
    Pays(step, h, WorthOf(cfg, s, turn, c, e), WorthOf(cfg, Do(cfg, s, step), turn, c, e),
         UsesUp(cfg, s, step, turn, c, e), Writes(cfg, s, step, cfg.Main(e.eventType), e, Some(c)),
         Stops(cfg, s, step, e, Some(c)))
  }

  lemma WorthStep(cfg: Cfg, s: State, step: Step, max: int, h: nat, turn: bool, c: nat, e: Envelope)
    requires Ranged(cfg, s, max) && Can(cfg, s, step) && h < |cfg.groups|
    ensures StepPays(cfg, s, step, h, turn, c, e)
  {
    if step.Publish? || step.Garbage? {
      WorthArrival(cfg, s, step, h, turn, c, e);
    } else if Produces(cfg, s, step) {
      WorthProduce(cfg, s, step.g, step.p, max, h, turn, c, e);
    } else {
      var t := Do(cfg, s, step);
      CellChange(cfg, s, t, step.g, h, step.p, t.cells[step.g][step.p], turn, c, e);
      if step.g == h { WorthCell(cfg, s, step, max, turn, c, e); }
    }
  }

  lemma WorthArrival(cfg: Cfg, s: State, step: Step, h: nat, turn: bool, c: nat, e: Envelope)
    requires Inv(cfg, s) && Can(cfg, s, step) && h < |cfg.groups| && (step.Publish? || step.Garbage?)
    ensures StepPays(cfg, s, step, h, turn, c, e)
  {
    assert CellOk(cfg, s, h, step.p);
    var rec := if step.Publish? then Rec(Some(step.e), 0) else Rec(None, step.retry);
    LogChange(cfg, s, Do(cfg, s, step), h, step.p, rec, turn, c, e);
  }

  /** What one step of a cell that writes no record does to the worth of its partition. */
  lemma WorthCell(cfg: Cfg, s: State, step: Step, max: int, turn: bool, c: nat, e: Envelope)
    requires Ranged(cfg, s, max) && Can(cfg, s, step) && !step.Publish? && !step.Garbage? && !Produces(cfg, s, step)
    ensures var g, p := step.g, step.p;
            var log := s.logs[p];
            && HasCell(cfg, s, g, p)
            && PartWorth(cfg, turn, c, e, p, log, Do(cfg, s, step).cells[g][p]) + One(UsesUp(cfg, s, step, turn, c, e))
               <= PartWorth(cfg, turn, c, e, p, log, s.cells[g][p]) + One(Stops(cfg, s, step, e, Some(c)))
  {
    var g, p, cell := step.g, step.p, s.cells[step.g][step.p];
    assert CellOk(cfg, s, g, p);
    if step.Exec? {
      CommitIsCovered(cfg, s, g, p);
    } else if cell.owned && !cell.phase.Idle? && s.logs[p][cell.phase.off].body.Some? {
      ReadsOwnTopics(cfg, s, g, p, cell.phase.off);
    }
  }

  lemma WorthProduce(cfg: Cfg, s: State, g: nat, p: nat, max: int, h: nat, turn: bool, c: nat, e: Envelope)
    requires Ranged(cfg, s, max) && Can(cfg, s, Exec(g, p)) && h < |cfg.groups|
    requires s.cells[g][p].phase.todo[0].Produce?
    ensures StepPays(cfg, s, Exec(g, p), h, turn, c, e)
  {
    var cell, t := s.cells[g][p], Do(cfg, s, Exec(g, p));
    ProducedRecord(cfg, s, g, p, max);
    var q, rec, next := cell.phase.todo[0].part, cell.phase.todo[0].rec, t.cells[g][p];
    var s1 := SetCell(s, g, p, next);
    CellChange(cfg, s, s1, g, h, p, next, turn, c, e);
    OffsetsFit(cfg, s, g, p, h, q);
    LogChange(cfg, s1, t, h, q, rec, turn, c, e);
    ProducePays(cfg, s, g, p, max, turn, c, e);
  }

  /** Passing a copy on leaves the cell with the commit to do, on every cell of the state. */
  lemma OffsetsFit(cfg: Cfg, s: State, g: nat, p: nat, h: nat, q: nat)
    requires Inv(cfg, s) && Can(cfg, s, Exec(g, p)) && HasCell(cfg, s, h, q)
    ensures var s1 := SetCell(s, g, p, Do(cfg, s, Exec(g, p)).cells[g][p]);
            s.cells[g][p].phase.todo[0].Produce? ==>
              && HasCell(cfg, s1, h, q) && s1.cells[h][q].committed <= |s1.logs[q]|
              && (s1.cells[h][q].owned && !s1.cells[h][q].phase.Idle? ==> s1.cells[h][q].phase.off < |s1.logs[q]|)
  {
    assert CellOk(cfg, s, h, q) && CellOk(cfg, s, g, p);
  }

  lemma ProducePays(cfg: Cfg, s: State, g: nat, p: nat, max: int, turn: bool, c: nat, e: Envelope)
    requires Ranged(cfg, s, max) && Can(cfg, s, Exec(g, p)) && s.cells[g][p].phase.todo[0].Produce?
    ensures var log := s.logs[p];
            PartWorth(cfg, turn, c, e, p, log, Do(cfg, s, Exec(g, p)).cells[g][p])
              + One(!turn && Passes(cfg, s, Exec(g, p), e, Some(c + 1)))
            <= PartWorth(cfg, turn, c, e, p, log, s.cells[g][p])
  {
    ProducedRecord(cfg, s, g, p, max);
    assert CellOk(cfg, s, g, p);
  }

  ghost function WorthOf(cfg: Cfg, s: State, turn: bool, c: nat, e: Envelope): nat -> int {
    (g: nat) => GroupWorth(cfg, s, g, turn, c, e)
  }

  /** Group h gains no more than it is given. */
  ghost predicate Pays(step: Step, h: nat, before: nat -> int, after: nat -> int, uses: bool, writes: bool, stops: bool) {
    after(h) + One(By(step, h) && uses) <= before(h) + One(writes) + One(By(step, h) && stops)
  }

  lemma {:induction false} AllPay(
      step: Step, n: nat, before: nat -> int, after: nat -> int, uses: bool, writes: bool, stops: bool)
    requires forall h: nat | h < n :: Pays(step, h, before, after, uses, writes, stops)
    ensures Upto(n, after) + One(ByOneOf(step, n) && uses)
            <= Upto(n, before) + n * One(writes) + One(ByOneOf(step, n) && stops)
  {
    if n > 0 {
      AllPay(step, n - 1, before, after, uses, writes, stops);
      assert Pays(step, n - 1, before, after, uses, writes, stops);
    }
  }

  lemma WorthOfStep(cfg: Cfg, s: State, step: Step, max: int, turn: bool, c: nat, e: Envelope)
    requires Ranged(cfg, s, max) && Can(cfg, s, step)
    ensures Upto(|cfg.groups|, WorthOf(cfg, Do(cfg, s, step), turn, c, e)) + One(UsesUp(cfg, s, step, turn, c, e))
            <= Upto(|cfg.groups|, WorthOf(cfg, s, turn, c, e))
               + |cfg.groups| * One(Writes(cfg, s, step, cfg.Main(e.eventType), e, Some(c)))
               + One(Stops(cfg, s, step, e, Some(c)))
  {
    var before, after := WorthOf(cfg, s, turn, c, e), WorthOf(cfg, Do(cfg, s, step), turn, c, e);
    var uses, stops := UsesUp(cfg, s, step, turn, c, e), Stops(cfg, s, step, e, Some(c));
    var writes := Writes(cfg, s, step, cfg.Main(e.eventType), e, Some(c));
    forall h: nat | h < |cfg.groups| ensures Pays(step, h, before, after, uses, writes, stops) {
      WorthStep(cfg, s, step, max, h, turn, c, e);
    }
    AllPay(step, |cfg.groups|, before, after, uses, writes, stops);
  }

  lemma WorthIsPositive(cfg: Cfg, s: State, turn: bool, c: nat, e: Envelope)
    requires Inv(cfg, s)
    ensures Upto(|cfg.groups|, WorthOf(cfg, s, turn, c, e)) >= 0
  {
    var worth := WorthOf(cfg, s, turn, c, e);
    forall g: nat | g < |cfg.groups| ensures worth(g) >= 0 {
      var part := PartOf(cfg, s, g, turn, c, e);
      forall p: nat | p < |cfg.topicOf| ensures part(p) >= 0 {
        assert HasCell(cfg, s, g, p) && CellOk(cfg, s, g, p);
      }
      UptoNonNegative(|cfg.topicOf|, part);
    }
    UptoNonNegative(|cfg.groups|, worth);
  }

  // ----- whole runs

  ghost function Publishes(steps: seq<Step>, e: Envelope): nat {
    if steps == [] then 0 else
      var n := |steps| - 1;
      Publishes(steps[..n], e) + One(steps[n].Publish? && steps[n].e == e)
  }

  /** Dispatches of e by any group, of copies with that count. */
  ghost function Attempted(cfg: Cfg, s: State, steps: seq<Step>, e: Envelope, count: Option<nat>): nat
    requires Run(cfg, s, steps)
  {
    if steps == [] then 0 else
      var n := |steps| - 1;
      Attempted(cfg, s, steps[..n], e, count) + One(Dispatches(cfg, Final(cfg, s, steps[..n]), steps[n], e, count))
  }

  /** Workers that stopped between a dispatch of e and the commit. */
  ghost function Stopped(cfg: Cfg, s: State, steps: seq<Step>, e: Envelope, count: Option<nat>): nat
    requires Run(cfg, s, steps)
  {
    if steps == [] then 0 else
      var n := |steps| - 1;
      Stopped(cfg, s, steps[..n], e, count) + One(Stops(cfg, Final(cfg, s, steps[..n]), steps[n], e, count))
  }

  ghost function DeadLetters(cfg: Cfg, s: State, e: Envelope): int {
    Copies(cfg, s, cfg.Dlq(e.eventType), e, None)
  }

  /** Each of the n groups uses each copy of level c up at most once, and once more for
      every stop while settling it. */
  ghost predicate Ledger(cfg: Cfg, s: State, turn: bool, c: nat, e: Envelope, used: int, stopped: nat) {
    used + Upto(|cfg.groups|, WorthOf(cfg, s, turn, c, e))
      <= |cfg.groups| * Copies(cfg, s, cfg.Main(e.eventType), e, Some(c)) + stopped
  }

  lemma EmptyLedger(cfg: Cfg, s: State, turn: bool, c: nat, e: Envelope)
    requires Init(cfg, s)
    ensures Ledger(cfg, s, turn, c, e, 0, 0)
  {
    forall g: nat | g < |cfg.groups| ensures WorthOf(cfg, s, turn, c, e)(g) == 0 {
      forall p: nat | p < |cfg.topicOf| ensures PartOf(cfg, s, g, turn, c, e)(p) == 0 {
        assert HasCell(cfg, s, g, p);
      }
      UptoConst(|cfg.topicOf|, PartOf(cfg, s, g, turn, c, e), 0);
    }
    UptoConst(|cfg.groups|, WorthOf(cfg, s, turn, c, e), 0);
    NoCopies(cfg, s, cfg.Main(e.eventType), e, Some(c));
  }

  lemma NoCopies(cfg: Cfg, s: State, topic: string, e: Envelope, count: Option<nat>)
    requires Init(cfg, s)
    ensures Copies(cfg, s, topic, e, count) == 0
  {
    UptoConst(|cfg.topicOf|, CopiesIn(cfg, s, topic, e, count), 0);
  }

  lemma LedgerStep(cfg: Cfg, s: State, step: Step, max: int, turn: bool, c: nat, e: Envelope, used: int, stopped: nat)
    requires Ranged(cfg, s, max) && Can(cfg, s, step) && Ledger(cfg, s, turn, c, e, used, stopped)
    ensures Ledger(cfg, Do(cfg, s, step), turn, c, e, used + One(UsesUp(cfg, s, step, turn, c, e)),
                   stopped + One(Stops(cfg, s, step, e, Some(c))))
  {
    var n, main := |cfg.groups|, cfg.Main(e.eventType);
    WorthOfStep(cfg, s, step, max, turn, c, e);
    CopiesStep(cfg, s, step, main, e, Some(c));
    Spread(n, Copies(cfg, s, main, e, Some(c)), One(Writes(cfg, s, step, main, e, Some(c))));
  }

  lemma Spread(n: nat, x: int, y: int)
    ensures n * (x + y) == n * x + n * y
  {
  }

  /** Copies of the next level: retries, and dead letters. */
  ghost function Passed(cfg: Cfg, s: State, c: nat, e: Envelope): int {
    Copies(cfg, s, cfg.Main(e.eventType), e, Some(c + 1)) + Copies(cfg, s, cfg.Dlq(e.eventType), e, Some(c + 1))
  }

  lemma PassedStep(cfg: Cfg, s: State, step: Step, max: int, c: nat, e: Envelope)
    requires Ranged(cfg, s, max) && Can(cfg, s, step)
    ensures Passed(cfg, Do(cfg, s, step), c, e) == Passed(cfg, s, c, e) + One(Passes(cfg, s, step, e, Some(c + 1)))
  {
    var main, dlq := cfg.Main(e.eventType), cfg.Dlq(e.eventType);
    CopiesStep(cfg, s, step, main, e, Some(c + 1));
    CopiesStep(cfg, s, step, dlq, e, Some(c + 1));
    DlqTopicIsMainTopicIff(cfg, e.eventType, e.eventType);
    if Produces(cfg, s, step) { ProducedRecord(cfg, s, step.g, step.p, max); }
  }

  lemma {:induction false} PassedKept(cfg: Cfg, s: State, steps: seq<Step>, max: int, c: nat, e: Envelope)
    requires Init(cfg, s) && Run(cfg, s, steps) && LimitsUpTo(cfg, max) && cfg.LoopFree()
    ensures Ledger(cfg, Final(cfg, s, steps), false, c, e, Passed(cfg, Final(cfg, s, steps), c, e),
                   Stopped(cfg, s, steps, e, Some(c)))
  {
    if steps == [] {
      EmptyLedger(cfg, s, false, c, e);
      NoCopies(cfg, s, cfg.Main(e.eventType), e, Some(c + 1));
      NoCopies(cfg, s, cfg.Dlq(e.eventType), e, Some(c + 1));
    } else {
      var k := |steps| - 1;
      var t := Final(cfg, s, steps[..k]);
      PassedKept(cfg, s, steps[..k], max, c, e);
      RunKeepsRange(cfg, s, steps[..k], max);
      PassedStep(cfg, t, steps[k], max, c, e);
      LedgerStep(cfg, t, steps[k], max, false, c, e, Passed(cfg, t, c, e), Stopped(cfg, s, steps[..k], e, Some(c)));
    }
  }

  lemma {:induction false} TurnsKept(cfg: Cfg, s: State, steps: seq<Step>, max: int, c: nat, e: Envelope)
    requires Init(cfg, s) && Run(cfg, s, steps) && LimitsUpTo(cfg, max) && cfg.LoopFree()
    ensures Ledger(cfg, Final(cfg, s, steps), true, c, e, Attempted(cfg, s, steps, e, Some(c)),
                   Stopped(cfg, s, steps, e, Some(c)))
  {
    if steps == [] {
      EmptyLedger(cfg, s, true, c, e);
    } else {
      var k := |steps| - 1;
      TurnsKept(cfg, s, steps[..k], max, c, e);
      RunKeepsRange(cfg, s, steps[..k], max);
      LedgerStep(cfg, Final(cfg, s, steps[..k]), steps[k], max, true, c, e,
                 Attempted(cfg, s, steps[..k], e, Some(c)), Stopped(cfg, s, steps[..k], e, Some(c)));
    }
  }

  /** The copies with retry count 0 are exactly the publishes. */
  lemma {:induction false} FirstLevel(cfg: Cfg, s: State, steps: seq<Step>, max: int, e: Envelope)
    requires Init(cfg, s) && Run(cfg, s, steps) && LimitsUpTo(cfg, max) && cfg.LoopFree()
    ensures Copies(cfg, Final(cfg, s, steps), cfg.Main(e.eventType), e, Some(0)) == Publishes(steps, e)
  {
    if steps == [] {
      NoCopies(cfg, s, cfg.Main(e.eventType), e, Some(0));
    } else {
      var k := |steps| - 1;
      FirstLevel(cfg, s, steps[..k], max, e);
      RunKeepsRange(cfg, s, steps[..k], max);
      var t, step := Final(cfg, s, steps[..k]), steps[k];
      CopiesStep(cfg, t, step, cfg.Main(e.eventType), e, Some(0));
      if Produces(cfg, t, step) { ProducedRecord(cfg, t, step.g, step.p, max); }
    }
  }

  // ----- trees whose nodes have n children, and a few more

  ghost predicate NotBelow0(f: nat -> int) { forall c: nat :: f(c) >= 0 }

  /** x(c) copies at level c are read n times, and once more for each stop there; a read
      leads to one copy of the next level or to one dead letter. */
  ghost predicate Tree(n: nat, x: nat -> int, dead: nat -> int, stops: nat -> int) {
    && NotBelow0(x) && NotBelow0(dead) && NotBelow0(stops)
    && (forall c: nat :: x(c + 1) + dead(c) <= Reads(n, x(c), stops(c)))
    && (n == 0 ==> forall c: nat :: stops(c) == 0)
  }

  ghost function Reads(n: nat, copies: int, stops: int): int { n * copies + stops }

  /** budget * n^c */
  ghost function Bound(n: nat, budget: int, c: nat): int { budget * Pow(n, c) }

  lemma {:induction false} TreeReads(n: nat, x: nat -> int, dead: nat -> int, stops: nat -> int, c: nat)
    requires Tree(n, x, dead, stops)
    ensures Reads(n, x(c), stops(c)) + Upto(c, dead) <= Bound(n, Reads(n, x(0), Upto(c + 1, stops)), c)
  {
    if c == 0 {
      assert Upto(1, stops) == stops(0);
    } else {
      var b := Reads(n, x(0), Upto(c, stops));
      TreeReads(n, x, dead, stops, c - 1);
      assert x(c - 1 + 1) + dead(c - 1) <= Reads(n, x(c - 1), stops(c - 1));
      UptoNonNegative(c, dead);
      if n == 0 { UptoConst(c, stops, 0); }
      PowPositive(n, c - 1);
      Grow(n, x(c), Upto(c, dead), b, Pow(n, c - 1), stops(c));
    }
  }

  lemma TreeGrowth(n: nat, x: nat -> int, dead: nat -> int, stops: nat -> int, c: nat)
    requires Tree(n, x, dead, stops)
    ensures x(c + 1) + Upto(c + 1, dead) <= Bound(n, Reads(n, x(0), Upto(c + 1, stops)), c)
  {
    TreeReads(n, x, dead, stops, c);
  }

  lemma Grow(n: nat, x: int, y: int, paid: int, power: nat, stops: int)
    requires x + y <= paid * power && x >= 0 && y >= 0 && stops >= 0 && (n == 0 ==> stops == 0 && paid == 0)
    requires n > 0 ==> power > 0
    ensures n * x + stops + y <= (paid + stops) * (n * power)
  {
    if n > 0 {
      Spread(n, x, y);
      assert n * (x + y) <= n * (paid * power) by { Times(n, x + y, paid * power); }
      assert n * (paid * power) == paid * (n * power);
      assert y <= n * y && stops <= stops * (n * power) by { Times(y, 1, n); AtLeastOne(n, power); Times(stops, 1, n * power); }
    }
  }

  lemma Times(n: nat, x: int, y: int)
    requires x <= y
    ensures n * x <= n * y
  {
  }

  lemma AtLeastOne(n: nat, m: nat)
    requires n > 0 && m > 0
    ensures n * m >= 1
  {
  }

  lemma {:induction false} PowPositive(n: nat, c: nat)
    ensures n > 0 ==> Pow(n, c) > 0
  {
    if c > 0 { PowPositive(n, c - 1); }
  }

  lemma BoundGrows(n: nat, b: int, budget: int, c: nat)
    requires b <= budget
    ensures Bound(n, b, c) <= Bound(n, budget, c)
  {
    Times(Pow(n, c), b, budget);
  }

  // ----- n groups retrying on one shared topic

  /** Main-topic copies of e, level by level. */
  ghost function CopiesAt(cfg: Cfg, s: State, e: Envelope): nat -> int {
    (c: nat) => Copies(cfg, s, cfg.Main(e.eventType), e, Some(c))
  }

  /** Dead letters of e, by the level they come from. */
  ghost function DeadAt(cfg: Cfg, s: State, e: Envelope): nat -> int {
    (c: nat) => Copies(cfg, s, cfg.Dlq(e.eventType), e, Some(c + 1))
  }

  ghost function StopsAt(cfg: Cfg, s: State, steps: seq<Step>, e: Envelope): nat -> int
    requires Run(cfg, s, steps)
  {
    (c: nat) => Stopped(cfg, s, steps, e, Some(c))
  }

  ghost function TurnsAt(cfg: Cfg, s: State, steps: seq<Step>, e: Envelope): nat -> int
    requires Run(cfg, s, steps)
  {
    (c: nat) => Attempted(cfg, s, steps, e, Some(c))
  }

  lemma NotNegative(cfg: Cfg, s: State, topic: string, e: Envelope, count: Option<nat>)
    ensures Copies(cfg, s, topic, e, count) >= 0
  {
    UptoNonNegative(|cfg.topicOf|, CopiesIn(cfg, s, topic, e, count));
  }

  lemma {:induction false} NoStop(cfg: Cfg, s: State, steps: seq<Step>, e: Envelope, c: nat)
    requires Run(cfg, s, steps) && |cfg.groups| == 0
    ensures Stopped(cfg, s, steps, e, Some(c)) == 0
  {
    if steps != [] { NoStop(cfg, s, steps[..|steps| - 1], e, c); }
  }

  lemma CopiesFormTree(cfg: Cfg, s: State, steps: seq<Step>, max: int, e: Envelope)
    requires Init(cfg, s) && Run(cfg, s, steps) && LimitsUpTo(cfg, max) && cfg.LoopFree()
    ensures var t := Final(cfg, s, steps);
            Tree(|cfg.groups|, CopiesAt(cfg, t, e), DeadAt(cfg, t, e), StopsAt(cfg, s, steps, e))
  {
    var t, n := Final(cfg, s, steps), |cfg.groups|;
    var x, dead, stops := CopiesAt(cfg, t, e), DeadAt(cfg, t, e), StopsAt(cfg, s, steps, e);
    RunKeepsInv(cfg, s, steps);
    forall c: nat ensures x(c) >= 0 && dead(c) >= 0 {
      NotNegative(cfg, t, cfg.Main(e.eventType), e, Some(c));
      NotNegative(cfg, t, cfg.Dlq(e.eventType), e, Some(c + 1));
    }
    forall c: nat ensures x(c + 1) + dead(c) <= Reads(n, x(c), stops(c)) {
      PassedKept(cfg, s, steps, max, c, e);
      WorthIsPositive(cfg, t, false, c, e);
    }
    if n == 0 {
      forall c: nat ensures stops(c) == 0 { NoStop(cfg, s, steps, e, c); }
    }
  }

  /** What P publishes of e to n groups and the stops below level c pay for. */
  ghost function Paid(cfg: Cfg, s: State, steps: seq<Step>, e: Envelope, c: nat): int
    requires Run(cfg, s, steps)
  {
    Reads(|cfg.groups|, Publishes(steps, e), Upto(c, StopsAt(cfg, s, steps, e)))
  }

  /** n groups sharing the topic, whatever their limits and whenever workers stop: P
      publishes grow to at most (n * P + k) * n^c retries with count c + 1, k the stops
      below that level, and the dead letters with counts up to c + 1 fit in there too. */
  lemma SharedTopicGrowth(cfg: Cfg, s: State, steps: seq<Step>, max: int, e: Envelope, c: nat)
    requires Init(cfg, s) && Run(cfg, s, steps) && LimitsUpTo(cfg, max) && cfg.LoopFree()
    ensures var t := Final(cfg, s, steps);
            CopiesAt(cfg, t, e)(c + 1) + Upto(c + 1, DeadAt(cfg, t, e))
            <= Bound(|cfg.groups|, Paid(cfg, s, steps, e, c + 1), c)
  {
    var t := Final(cfg, s, steps);
    CopiesFormTree(cfg, s, steps, max, e);
    FirstLevel(cfg, s, steps, max, e);
    TreeGrowth(|cfg.groups|, CopiesAt(cfg, t, e), DeadAt(cfg, t, e), StopsAt(cfg, s, steps, e), c);
  }

  /** Dispatches of the copies of one level, by all groups together. */
  lemma TurnsOfLevel(cfg: Cfg, s: State, steps: seq<Step>, max: int, e: Envelope, c: nat)
    requires Init(cfg, s) && Run(cfg, s, steps) && LimitsUpTo(cfg, max) && cfg.LoopFree()
    ensures TurnsAt(cfg, s, steps, e)(c) <= Bound(|cfg.groups|, Paid(cfg, s, steps, e, c + 1), c)
  {
    var t := Final(cfg, s, steps);
    TurnsAreReads(cfg, s, steps, max, e, c);
    CopiesFormTree(cfg, s, steps, max, e);
    FirstLevel(cfg, s, steps, max, e);
    TreeReads(|cfg.groups|, CopiesAt(cfg, t, e), DeadAt(cfg, t, e), StopsAt(cfg, s, steps, e), c);
    UptoNonNegative(c, DeadAt(cfg, t, e));
  }

  lemma TurnsAreReads(cfg: Cfg, s: State, steps: seq<Step>, max: int, e: Envelope, c: nat)
    requires Init(cfg, s) && Run(cfg, s, steps) && LimitsUpTo(cfg, max) && cfg.LoopFree()
    ensures TurnsAt(cfg, s, steps, e)(c)
            <= Reads(|cfg.groups|, CopiesAt(cfg, Final(cfg, s, steps), e)(c), StopsAt(cfg, s, steps, e)(c))
  {
    TurnsKept(cfg, s, steps, max, c, e);
    RunKeepsInv(cfg, s, steps);
    WorthIsPositive(cfg, Final(cfg, s, steps), true, c, e);
  }

  // ----- all levels together

  lemma DispatchedRetry(cfg: Cfg, s: State, step: Step, max: int, e: Envelope) returns (r: nat)
    requires Ranged(cfg, s, max) && Can(cfg, s, step) && Dispatches(cfg, s, step, e, None)
    ensures r < Tries(max) && forall c: nat :: Dispatches(cfg, s, step, e, Some(c)) <==> c == r
  {
    var cell := s.cells[step.g][step.p];
    assert CellOk(cfg, s, step.g, step.p) && InRange(cfg, s, max, step.p, cell.phase.off);
    ReadsOwnTopics(cfg, s, step.g, step.p, cell.phase.off);
    r := s.logs[step.p][cell.phase.off].retry;
  }

  /** Every dispatch is one of some level below M. */
  lemma {:induction false} TurnsByLevel(cfg: Cfg, s: State, steps: seq<Step>, max: int, e: Envelope)
    requires Init(cfg, s) && Run(cfg, s, steps) && LimitsUpTo(cfg, max) && cfg.LoopFree()
    ensures Attempted(cfg, s, steps, e, None) == Upto(Tries(max), TurnsAt(cfg, s, steps, e))
  {
    var m, f := Tries(max), TurnsAt(cfg, s, steps, e);
    if steps == [] {
      UptoConst(m, f, 0);
    } else {
      var k := |steps| - 1;
      var t, step, h := Final(cfg, s, steps[..k]), steps[k], TurnsAt(cfg, s, steps[..k], e);
      TurnsByLevel(cfg, s, steps[..k], max, e);
      RunKeepsRange(cfg, s, steps[..k], max);
      if Dispatches(cfg, t, step, e, None) {
        var r := DispatchedRetry(cfg, t, step, max, e);
        UptoChange(m, h, f, r);
      } else {
        UptoSame(m, h, f);
      }
    }
  }

  /** Every stop belongs to at most one level. */
  lemma {:induction false} StopsByLevel(cfg: Cfg, s: State, steps: seq<Step>, e: Envelope, m: nat)
    requires Run(cfg, s, steps)
    ensures Upto(m, StopsAt(cfg, s, steps, e)) <= Stopped(cfg, s, steps, e, None)
  {
    var f := StopsAt(cfg, s, steps, e);
    if steps == [] {
      UptoConst(m, f, 0);
    } else {
      var k := |steps| - 1;
      var t, step, h := Final(cfg, s, steps[..k]), steps[k], StopsAt(cfg, s, steps[..k], e);
      StopsByLevel(cfg, s, steps[..k], e, m);
      if r: nat :| r < m && Stops(cfg, t, step, e, Some(r)) {
        UptoChange(m, h, f, r);
      } else {
        UptoSame(m, h, f);
      }
    }
  }

  /** Dead letters carry counts from 1 to M. */
  lemma {:induction false} DeadByLevel(cfg: Cfg, s: State, steps: seq<Step>, max: int, e: Envelope)
    requires Init(cfg, s) && Run(cfg, s, steps) && LimitsUpTo(cfg, max) && cfg.LoopFree()
    ensures DeadLetters(cfg, Final(cfg, s, steps), e) == Upto(Tries(max), DeadAt(cfg, Final(cfg, s, steps), e))
  {
    var m, dlq := Tries(max), cfg.Dlq(e.eventType);
    var f := DeadAt(cfg, Final(cfg, s, steps), e);
    if steps == [] {
      NoCopies(cfg, s, dlq, e, None);
      forall c: nat | c < m ensures f(c) == 0 { NoCopies(cfg, s, dlq, e, Some(c + 1)); }
      UptoConst(m, f, 0);
    } else {
      var k := |steps| - 1;
      DeadByLevel(cfg, s, steps[..k], max, e);
      RunKeepsRange(cfg, s, steps[..k], max);
      DeadByLevelStep(cfg, Final(cfg, s, steps[..k]), steps[k], max, e);
    }
  }

  lemma DeadByLevelStep(cfg: Cfg, s: State, step: Step, max: int, e: Envelope)
    requires Ranged(cfg, s, max) && Can(cfg, s, step)
    requires DeadLetters(cfg, s, e) == Upto(Tries(max), DeadAt(cfg, s, e))
    ensures DeadLetters(cfg, Do(cfg, s, step), e) == Upto(Tries(max), DeadAt(cfg, Do(cfg, s, step), e))
  {
    var m, dlq, t := Tries(max), cfg.Dlq(e.eventType), Do(cfg, s, step);
    var h, f := DeadAt(cfg, s, e), DeadAt(cfg, t, e);
    CopiesStep(cfg, s, step, dlq, e, None);
    DlqTopicIsMainTopicIff(cfg, e.eventType, e.eventType);
    if Produces(cfg, s, step) { ProducedRecord(cfg, s, step.g, step.p, max); }
    forall c: nat ensures f(c) == h(c) + One(Writes(cfg, s, step, dlq, e, Some(c + 1))) {
      CopiesStep(cfg, s, step, dlq, e, Some(c + 1));
    }
    if Writes(cfg, s, step, dlq, e, None) {
      var c: nat := s.cells[step.g][step.p].phase.todo[0].rec.retry - 1;
      UptoChange(m, h, f, c);
    } else {
      UptoSame(m, h, f);
    }
  }

  // ----- the budgets

  /** What P publishes of e to n groups and k stops while settling it pay for. */
  ghost function Budget(cfg: Cfg, s: State, steps: seq<Step>, e: Envelope): int
    requires Run(cfg, s, steps)
  {
    Reads(|cfg.groups|, Publishes(steps, e), Stopped(cfg, s, steps, e, None))
  }

  ghost function BoundAt(n: nat, budget: int): nat -> int { (c: nat) => Bound(n, budget, c) }

  lemma PaidFromBudget(cfg: Cfg, s: State, steps: seq<Step>, e: Envelope, c: nat, level: nat)
    requires Run(cfg, s, steps)
    ensures Bound(|cfg.groups|, Paid(cfg, s, steps, e, c), level) <= Bound(|cfg.groups|, Budget(cfg, s, steps, e), level)
  {
    StopsByLevel(cfg, s, steps, e, c);
    BoundGrows(|cfg.groups|, Paid(cfg, s, steps, e, c), Budget(cfg, s, steps, e), level);
  }

  /** n groups sharing the topic, whatever their limits up to M and whenever workers stop: P
      publishes of e and k stops while settling it lead to at most
      (n * P + k) * (1 + n + ... + n^(M - 1)) dispatches by all groups together. */
  lemma SharedTopicDispatches(cfg: Cfg, s: State, steps: seq<Step>, max: int, e: Envelope)
    requires Init(cfg, s) && Run(cfg, s, steps) && LimitsUpTo(cfg, max) && cfg.LoopFree()
    ensures Attempted(cfg, s, steps, e, None)
            <= Upto(Tries(max), BoundAt(|cfg.groups|, Budget(cfg, s, steps, e)))
  {
    var f, h := TurnsAt(cfg, s, steps, e), BoundAt(|cfg.groups|, Budget(cfg, s, steps, e));
    TurnsByLevel(cfg, s, steps, max, e);
    forall c: nat | c < Tries(max) ensures f(c) <= h(c) {
      TurnsOfLevel(cfg, s, steps, max, e, c);
      PaidFromBudget(cfg, s, steps, e, c + 1, c);
    }
    UptoBound(Tries(max), f, h);
  }

  /** ... and to at most (n * P + k) * n^(M - 1) dead letters. */
  lemma SharedTopicDeadLetters(cfg: Cfg, s: State, steps: seq<Step>, max: int, e: Envelope)
    requires Init(cfg, s) && Run(cfg, s, steps) && LimitsUpTo(cfg, max) && cfg.LoopFree()
    ensures DeadLetters(cfg, Final(cfg, s, steps), e) <= Bound(|cfg.groups|, Budget(cfg, s, steps, e), Tries(max) - 1)
  {
    var m := Tries(max);
    DeadByLevel(cfg, s, steps, max, e);
    SharedTopicGrowth(cfg, s, steps, max, e, m - 1);
    NotNegative(cfg, Final(cfg, s, steps), cfg.Main(e.eventType), e, Some(m));
    PaidFromBudget(cfg, s, steps, e, m, m - 1);
  }

  /** The attempt budget of a topic with one group: P publishes of e and k workers
      that stopped while settling it allow at most M * (P + k) dispatches and at
      most P + k dead letters. */
  lemma AttemptBudget(cfg: Cfg, s: State, steps: seq<Step>, e: Envelope)
    requires Init(cfg, s) && Run(cfg, s, steps) && cfg.LoopFree() && |cfg.groups| == 1
    ensures Attempted(cfg, s, steps, e, None)
            <= Tries(cfg.groups[0].maxRetries) * (Publishes(steps, e) + Stopped(cfg, s, steps, e, None))
    ensures DeadLetters(cfg, Final(cfg, s, steps), e) <= Publishes(steps, e) + Stopped(cfg, s, steps, e, None)
  {
    var max := cfg.groups[0].maxRetries;
    SharedTopicDispatches(cfg, s, steps, max, e);
    SharedTopicDeadLetters(cfg, s, steps, max, e);
    OneGroup(Publishes(steps, e), Stopped(cfg, s, steps, e, None), Tries(max));
  }

  lemma OneGroup(publishes: nat, stops: nat, m: nat)
    requires m > 0
    ensures var b := Reads(1, publishes, stops);
            Upto(m, BoundAt(1, b)) == m * (publishes + stops) && Bound(1, b, m - 1) == publishes + stops
  {
    var b := Reads(1, publishes, stops);
    forall c: nat ensures BoundAt(1, b)(c) == publishes + stops { PowersOfOne(c); }
    UptoConst(m, BoundAt(1, b), publishes + stops);
    PowersOfOne(m - 1);
  }

  lemma {:induction false} PowersOfOne(c: nat)
    ensures Pow(1, c) == 1
  {
    if c > 0 { PowersOfOne(c - 1); }
  }
}
