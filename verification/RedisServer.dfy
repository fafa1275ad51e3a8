/** The server commands the Redis broker uses, on one stream and one consumer group,
    as seen by one worker. The pending list is kept in id order, as the server does.
    Beside it the server keeps the run of the machine that the commands so far amount
    to; the pending list is at all times the one of the machine. */
module RedisServer {
  import opened Wrappers
  import opened Events
  import opened RedisMachine
  import opened RedisRounds

  ghost predicate Ordered(rows: seq<Row>) {
    forall i, j | 0 <= i < j < |rows| :: rows[i].id < rows[j].id
  }

  /** Rows in id order, all ids below the bound, every entry delivered at least once. */
  ghost predicate Listed(rows: seq<Row>, bound: nat) {
    rows == [] ||
    var n := |rows| - 1;
    rows[n].id < bound && rows[n].count >= 1 && Listed(rows[..n], rows[n].id)
  }

  lemma {:induction false} ListedMeans(rows: seq<Row>, bound: nat)
    ensures Listed(rows, bound) <==>
            Ordered(rows) && forall i | 0 <= i < |rows| :: rows[i].id < bound && rows[i].count >= 1
  {
    if rows != [] {
      var n := |rows| - 1;
      ListedMeans(rows[..n], rows[n].id);
      assert forall i | 0 <= i < n :: rows[..n][i] == rows[i];
    }
  }

  /** The first n rows delivered once more. */
  function Aged(rows: seq<Row>, n: nat): seq<Row>
    requires n <= |rows|
  {
    seq(|rows|, (i: nat) requires i < |rows| => if i < n then Row(rows[i].id, rows[i].count + 1) else rows[i])
  }

  /** The rows of these ids delivered once more. */
  function AgedAt(rows: seq<Row>, ids: seq<nat>): seq<Row> {
    seq(|rows|, (i: nat) requires i < |rows| =>
      if rows[i].id in ids then Row(rows[i].id, rows[i].count + 1) else rows[i])
  }

  /** New rows for freshly delivered entries. */
  function FirstDelivery(ids: seq<nat>): seq<Row> {
    seq(|ids|, (i: nat) requires i < |ids| => Row(ids[i], 1))
  }

  function Lookup(rows: seq<Row>, id: nat): Option<nat> {
    if rows == [] then None else if rows[0].id == id then Some(rows[0].count) else Lookup(rows[1..], id)
  }

  function Removed(rows: seq<Row>, id: nat): seq<Row> {
    if rows == [] then []
    else if rows[0].id == id then Removed(rows[1..], id) else [rows[0]] + Removed(rows[1..], id)
  }

  lemma {:induction false} RemovedKeepsOrder(rows: seq<Row>, id: nat)
    requires Ordered(rows)
    ensures Ordered(Removed(rows, id))
    ensures forall x :: x in Removed(rows, id) <==> x in rows && x.id != id
  {
    if rows != [] {
      RemovedKeepsOrder(rows[1..], id);
      assert rows == [rows[0]] + rows[1..];
      assert forall x :: x in rows <==> x == rows[0] || x in rows[1..];
      forall x | x in rows[1..] ensures rows[0].id < x.id {
        var i :| 0 <= i < |rows[1..]| && rows[1..][i] == x;
        assert rows[1 + i] == x;
      }
      if rows[0].id != id { Prepend(rows[0], Removed(rows[1..], id)); }
    }
  }

  lemma Prepend(row: Row, rows: seq<Row>)
    requires Ordered(rows) && forall x | x in rows :: row.id < x.id
    ensures Ordered([row] + rows)
    ensures forall x :: x in [row] + rows <==> x == row || x in rows
  {
  }

  lemma {:induction false} LookupRemoved(rows: seq<Row>, id: nat, x: nat)
    ensures Lookup(Removed(rows, id), x) == if x == id then None else Lookup(rows, x)
  {
    if rows != [] {
      LookupRemoved(rows[1..], id, x);
      if rows[0].id != id {
        assert ([rows[0]] + Removed(rows[1..], id))[1..] == Removed(rows[1..], id);
      }
    }
  }

  lemma {:induction false} LookupJoined(a: seq<Row>, b: seq<Row>, x: nat)
    ensures Lookup(a + b, x) == if Lookup(a, x).Some? then Lookup(a, x) else Lookup(b, x)
  {
    if a == [] {
      assert a + b == b;
    } else {
      LookupJoined(a[1..], b, x);
      assert (a + b)[1..] == a[1..] + b;
    }
  }

  lemma {:induction false} LookupFirst(ids: seq<nat>, x: nat)
    ensures Lookup(FirstDelivery(ids), x) == if x in ids then Some(1) else None
  {
    if ids != [] {
      LookupFirst(ids[1..], x);
      assert FirstDelivery(ids)[1..] == FirstDelivery(ids[1..]);
    }
  }

  lemma {:induction false} LookupAged(rows: seq<Row>, ids: seq<nat>, x: nat)
    ensures Lookup(AgedAt(rows, ids), x) ==
            match Lookup(rows, x) case None => None case Some(c) => Some(if x in ids then c + 1 else c)
  {
    if rows != [] {
      LookupAged(rows[1..], ids, x);
      assert AgedAt(rows, ids)[1..] == AgedAt(rows[1..], ids);
    }
  }

  /** The first n ids of the list that are in the set. */
  function FirstIdle(rows: seq<Row>, idle: set<nat>, n: nat): (ids: seq<nat>)
    ensures |ids| <= n && |ids| <= |rows|
  {
    if rows == [] || n == 0 then []
    else if rows[0].id in idle then [rows[0].id] + FirstIdle(rows[1..], idle, n - 1)
    else FirstIdle(rows[1..], idle, n)
  }

  ghost predicate HasId(rows: seq<Row>, id: nat) { exists i :: 0 <= i < |rows| && rows[i].id == id }

  lemma {:induction false} FirstIdleMeans(rows: seq<Row>, idle: set<nat>, n: nat)
    requires Ordered(rows)
    ensures Ascending(FirstIdle(rows, idle, n))
    ensures forall id | id in FirstIdle(rows, idle, n) :: id in idle && HasId(rows, id)
  {
    if rows != [] && n > 0 {
      var m: nat := if rows[0].id in idle then n - 1 else n;
      var rest := FirstIdle(rows[1..], idle, m);
      FirstIdleMeans(rows[1..], idle, m);
      forall id | id in rest ensures HasId(rows, id) && rows[0].id < id { IdIsLater(rows, id); }
      if rows[0].id in idle {
        assert HasId(rows, rows[0].id);
        AscendingFrom(rows[0].id, rest);
      }
    }
  }

  /** An idle entry is passed over only for n idle entries with smaller ids. */
  lemma {:induction false} FirstIdleTakes(rows: seq<Row>, idle: set<nat>, n: nat, i: nat)
    requires Ordered(rows) && i < |rows| && rows[i].id in idle && rows[i].id !in FirstIdle(rows, idle, n)
    ensures |FirstIdle(rows, idle, n)| == n && forall id | id in FirstIdle(rows, idle, n) :: id < rows[i].id
  {
    if n > 0 {
      var m: nat := if rows[0].id in idle then n - 1 else n;
      var rest := FirstIdle(rows[1..], idle, m);
      assert rows[0].id in idle ==> FirstIdle(rows, idle, n) == [rows[0].id] + rest;
      assert i > 0 && rows[1..][i - 1] == rows[i];
      FirstIdleTakes(rows[1..], idle, m, i - 1);
    }
  }

  lemma IdIsLater(rows: seq<Row>, id: nat)
    requires Ordered(rows) && rows != [] && HasId(rows[1..], id)
    ensures HasId(rows, id) && rows[0].id < id
  {
    var i :| 0 <= i < |rows[1..]| && rows[1..][i].id == id;
    assert rows[i + 1].id == id;
  }

  lemma AscendingFrom(first: nat, rest: seq<nat>)
    requires Ascending(rest) && forall id | id in rest :: first < id
    ensures Ascending([first] + rest)
  {
    var ids := [first] + rest;
    forall i, j | 0 <= i < j < |ids| ensures ids[i] < ids[j] {
      assert ids[j] == rest[j - 1] && rest[j - 1] in rest;
    }
  }

  lemma {:induction false} AllIdleClaims(rows: seq<Row>, idle: set<nat>, n: nat)
    requires AllIdle(rows, idle)
    ensures var ids := FirstIdle(rows, idle, n);
            && |ids| == (if |rows| < n then |rows| else n)
            && forall i | 0 <= i < |ids| :: ids[i] == rows[i].id
  {
    if rows != [] && n > 0 {
      assert rows[0].id in idle;
      assert forall i | 0 <= i < |rows[1..]| :: rows[1..][i] == rows[i + 1];
      AllIdleClaims(rows[1..], idle, n - 1);
    }
  }

  ghost predicate AllIdle(rows: seq<Row>, idle: set<nat>) { forall i | 0 <= i < |rows| :: rows[i].id in idle }

  lemma AgedAtFront(rows: seq<Row>, ids: seq<nat>)
    requires Ordered(rows) && |ids| <= |rows| && forall i | 0 <= i < |ids| :: ids[i] == rows[i].id
    ensures AgedAt(rows, ids) == Aged(rows, |ids|)
  {
    forall i | 0 <= i < |rows| ensures rows[i].id in ids <==> i < |ids| {
      if i < |ids| { assert ids[i] == rows[i].id; }
    }
  }

  lemma LookupThere(rows: seq<Row>, i: nat)
    requires Ordered(rows) && i < |rows|
    ensures Lookup(rows, rows[i].id).Some?
  {
    AtIndex(rows, i);
  }

  /** In an ordered list an id is where it is. */
  lemma {:induction false} AtIndex(rows: seq<Row>, i: nat)
    requires Ordered(rows) && i < |rows|
    ensures Lookup(rows, rows[i].id) == Some(rows[i].count)
    ensures Removed(rows, rows[i].id) == rows[..i] + rows[i + 1..]
  {
    if i == 0 {
      NotThere(rows[1..], rows[0].id);
    } else {
      AtIndex(rows[1..], i - 1);
      assert rows[1..][..i - 1] == rows[..i][1..] && rows[1..][i..] == rows[i + 1..];
    }
  }

  lemma MiddleRow(done: seq<Row>, row: Row, rest: seq<Row>)
    requires Ordered(done + [row] + rest)
    ensures Lookup(done + [row] + rest, row.id) == Some(row.count)
    ensures Removed(done + [row] + rest, row.id) == done + rest
  {
    var rows := done + [row] + rest;
    AtIndex(rows, |done|);
    assert rows[..|done|] == done && rows[|done| + 1..] == rest;
  }

  lemma OnlyRow(row: Row)
    ensures Lookup([row], row.id) == Some(row.count) && Removed([row], row.id) == []
  {
    assert [row][1..] == [];
  }

  lemma {:induction false} NotThere(rows: seq<Row>, id: nat)
    requires forall x | x in rows :: x.id != id
    ensures Removed(rows, id) == rows && Lookup(rows, id) == None
  {
    if rows != [] {
      assert rows[0] in rows && forall x | x in rows[1..] :: x in rows;
      NotThere(rows[1..], id);
    }
  }

  /** The ordered list and the machine's map are the same pending list. */
  ghost predicate Shows(rows: seq<Row>, pel: map<nat, Claim>) {
    forall id: nat :: Lookup(rows, id) == if id in pel then Some(pel[id].count) else None
  }

  function EnvelopesOf(dlq: seq<DeadLetter>): seq<Envelope> {
    seq(|dlq|, (i: nat) requires i < |dlq| => dlq[i].e)
  }

  class Server {
    ghost const cfg: Cfg
    ghost const g: nat
    ghost const w: nat
    var entries: seq<Option<Envelope>>
    var last: nat
    var rows: seq<Row>
    var dlq: seq<Envelope>

    ghost var steps: seq<Step>
    ghost var trail: seq<State>
    ghost var model: State

    /** What was recorded is a run that ends in this state. */
    ghost predicate Logged(s: State)
      reads this`steps, this`trail
    {
      Trail(cfg, trail, steps) && s == trail[|steps|]
    }

    ghost predicate Valid()
      reads this
    {
      && last <= |entries| && Listed(rows, last)
      && Logged(model) && Matches(last, rows)
    }

    /** The machine has read up to id to and has these rows pending. */
    ghost predicate Matches(to: nat, rows: seq<Row>)
      reads this
    {
      && |model.groups| == |cfg.maxRetries| && HasWorker(model, g, w)
      && model.entries == entries && model.groups[g].last == to
      && Shows(rows, model.groups[g].pel)
      && dlq == EnvelopesOf(model.dlq)
    }

    /** What this worker has claimed and not looked at yet, and what it is doing. */
    ghost predicate At(batch: seq<nat>, phase: Phase)
      reads this`model
    {
      HasWorker(model, g, w) && model.groups[g].workers[w] == Worker(batch, phase)
    }

    constructor (ghost cfg: Cfg, ghost g: nat, ghost w: nat, ghost s: State)
      requires Init(cfg, s) && s.entries == [] && HasWorker(s, g, w)
      ensures Valid() && this.cfg == cfg && this.g == g && this.w == w && model == s && At([], Idle)
      ensures entries == [] && last == 0 && rows == [] && dlq == []
    {
      this.cfg, this.g, this.w := cfg, g, w;
      entries, last, rows, dlq, steps, trail, model := [], 0, [], [], [], [s], s;
    }

    ghost method Advance(step: Step)
      requires Logged(model) && Can(cfg, model, step)
      modifies this`model, this`steps, this`trail
      ensures Logged(model) && model == Do(cfg, old(model), step)
    {
      TrailExtends(cfg, trail, steps, step);
      steps, trail, model := steps + [step], trail + [Do(cfg, model, step)], Do(cfg, model, step);
    }

    method XAdd(body: Option<Envelope>)
      requires Valid()
      modifies this
      ensures Valid() && entries == old(entries) + [body]
      ensures last == old(last) && rows == old(rows) && dlq == old(dlq)
      ensures model == Do(cfg, old(model), Add(body))
      ensures forall batch, phase :: old(At(batch, phase)) ==> At(batch, phase)
    {
      entries := entries + [body];
      Advance(Add(body));
    }

    /** XREADGROUP with ">" and count=10. */
    method XReadGroup() returns (ids: seq<nat>)
      requires Valid() && At([], Idle)
      modifies this
      ensures Valid() && At(ids, Idle) && entries == old(entries) && dlq == old(dlq)
      ensures last == old(last) + |ids| && |ids| == if |entries| - old(last) < BATCH then |entries| - old(last) else BATCH
      ensures rows == old(rows) + FirstDelivery(ids)
      ensures forall i | 0 <= i < |ids| :: ids[i] == old(last) + i
    {
      var n := if |entries| - last < BATCH then |entries| - last else BATCH;
      ids := NewIds(last, n);
      NewIdsAt(last, n);
      AdvanceRead(n, ids);
      ReadListed(rows, last, ids);
      assert n == 0 ==> rows + FirstDelivery(ids) == rows;
      rows := rows + FirstDelivery(ids);
      last := last + n;
    }

    /** The machine's side of a read that returned n entries. */
    ghost method AdvanceRead(n: nat, ids: seq<nat>)
      requires Valid() && At([], Idle) && n <= BATCH && last + n <= |entries|
      requires ids == NewIds(last, n)
      modifies this`model, this`steps, this`trail
      ensures Logged(model) && At(ids, Idle) && Matches(last + n, rows + FirstDelivery(ids))
    {
      ListedMeans(rows, last);
      forall x: nat ensures Lookup(rows + FirstDelivery(ids), x) == if x in ids then Some(1) else Lookup(rows, x) {
        LookupJoined(rows, FirstDelivery(ids), x);
        LookupFirst(ids, x);
        if x in ids { NotThere(rows, x); }
      }
      if n > 0 { Advance(Read(g, w, n)); }
    }

    /** XAUTOCLAIM from 0-0 with count=10; idle are the entries that have been idle for
        longer than min_idle_time. */
    method XAutoClaim(idle: set<nat>) returns (ids: seq<nat>)
      requires Valid() && At([], Idle)
      modifies this
      ensures Valid() && At(ids, Idle) && entries == old(entries) && last == old(last) && dlq == old(dlq)
      ensures ids == FirstIdle(old(rows), idle, BATCH) && rows == AgedAt(old(rows), ids)
      ensures forall id | id in ids :: id < last
      ensures |ids| <= 10 && Ascending(ids) && forall id | id in ids :: id in idle && HasId(old(rows), id)
      ensures forall i | 0 <= i < |old(rows)| && old(rows)[i].id in idle && old(rows)[i].id !in ids ::
                |ids| == 10 && forall id | id in ids :: id < old(rows)[i].id
      ensures |rows| == |old(rows)|
      ensures forall i | 0 <= i < |rows| ::
                && rows[i].id == old(rows)[i].id
                && rows[i].count == old(rows)[i].count + if rows[i].id in ids then 1 else 0
    {
      ids := FirstIdle(rows, idle, BATCH);
      ListedMeans(rows, last);
      FirstIdleMeans(rows, idle, BATCH);
      forall i | 0 <= i < |rows| && rows[i].id in idle && rows[i].id !in ids
        ensures |ids| == BATCH && forall id | id in ids :: id < rows[i].id
      {
        FirstIdleTakes(rows, idle, BATCH, i);
      }
      AdvanceReclaim(ids);
      AgedListed(rows, ids, last);
      rows := AgedAt(rows, ids);
    }

    /** The machine's side of a claim. */
    ghost method AdvanceReclaim(ids: seq<nat>)
      requires Valid() && At([], Idle) && |ids| <= BATCH && Ascending(ids)
      requires forall id | id in ids :: exists i :: 0 <= i < |rows| && rows[i].id == id
      modifies this`model, this`steps, this`trail
      ensures Logged(model) && At(ids, Idle) && Matches(last, AgedAt(rows, ids))
    {
      ListedMeans(rows, last);
      forall id | id in ids ensures id in model.groups[g].pel {
        var i :| 0 <= i < |rows| && rows[i].id == id;
        LookupThere(rows, i);
      }
      forall x: nat
        ensures Lookup(AgedAt(rows, ids), x) ==
                match Lookup(rows, x) case None => None case Some(c) => Some(if x in ids then c + 1 else c)
      {
        LookupAged(rows, ids, x);
      }
      Advance(Reclaim(g, w, ids));
    }

    // ----- the rest of the world

    /** Steps of publishers, of other groups, and of other workers of this one. */
    ghost predicate IsForeign(x: Step) {
      x.Add? || x.g != g || x.w != w
    }

    /** Anything they do, at any moment; the stream, the group and the dead letters are
        then as given. */
    method Elsewhere(
        ghost x: Step, entriesAfter: seq<Option<Envelope>>, lastAfter: nat, rowsAfter: seq<Row>, dlqAfter: seq<Envelope>)
      requires Valid() && Can(cfg, model, x) && IsForeign(x)
      requires var t := Do(cfg, model, x);
               && entriesAfter == t.entries && lastAfter == t.groups[g].last && dlqAfter == EnvelopesOf(t.dlq)
               && Shows(rowsAfter, t.groups[g].pel) && Listed(rowsAfter, lastAfter)
      modifies this
      ensures Valid() && entries == entriesAfter && last == lastAfter && rows == rowsAfter && dlq == dlqAfter
      ensures model == Do(cfg, old(model), x)
      ensures forall batch, phase :: old(At(batch, phase)) ==> At(batch, phase)
    {
      ForeignKeepsWorker(x);
      entries, last, rows, dlq := entriesAfter, lastAfter, rowsAfter, dlqAfter;
      Advance(x);
    }

    lemma ForeignKeepsWorker(x: Step)
      requires Can(cfg, model, x) && IsForeign(x) && HasWorker(model, g, w) && model.groups[g].last <= |model.entries|
      ensures HasWorker(Do(cfg, model, x), g, w)
      ensures Do(cfg, model, x).groups[g].workers[w] == model.groups[g].workers[w]
      ensures Do(cfg, model, x).groups[g].last <= |Do(cfg, model, x).entries|
    {
    }

    /** This worker is gone, whatever it was doing. What it was handed stays pending. */
    ghost method Stop()
      requires Valid()
      modifies this`model, this`steps, this`trail
      ensures Valid() && At([], Idle)
    {
      Advance(Crash(g, w));
    }

    /** The generator goes on to the next entry of the batch. */
    ghost method Next(id: nat, rest: seq<nat>)
      requires Valid() && At([id] + rest, Idle) && id < |entries|
      modifies this`model, this`steps, this`trail
      ensures Valid() && At(rest, if entries[id].Some? then Held(id) else Settling(id, Cmd.Ack))
    {
      assert ([id] + rest)[1..] == rest;
      Advance(Step.Next(g, w));
    }

    /** The receivers were run: all returned, or fail() is called. */
    ghost method Dispatched(id: nat, ok: bool, rest: seq<nat>)
      requires Valid() && At(rest, Held(id))
      modifies this`model, this`steps, this`trail
      ensures Valid() && At(rest, if ok then Settling(id, Cmd.Ack) else Failing(id))
    {
      Advance(Dispatch(g, w, ok));
    }

    /** XPENDING for a single id, with which fail() makes up its mind. */
    method XPending(id: nat, ghost rest: seq<nat>) returns (r: Option<nat>)
      requires Valid() && At(rest, Failing(id))
      modifies this`model, this`steps, this`trail
      ensures Valid() && r == Lookup(rows, id)
      ensures At(rest, if (match r case Some(n) => n case None => 1) < cfg.maxRetries[g] then Idle else Settling(id, Cmd.Bury))
    {
      r := Count(id);
      Advance(Decide(g, w));
    }

    method Count(id: nat) returns (r: Option<nat>)
      ensures r == Lookup(rows, id)
    {
      for i := 0 to |rows|
        invariant Lookup(rows, id) == Lookup(rows[i..], id)
      {
        assert rows[i..][1..] == rows[i + 1..];
        if rows[i].id == id {
          return Some(rows[i].count);
        }
      }
      r := None;
    }

    method XAck(id: nat, ghost rest: seq<nat>)
      requires Valid() && At(rest, Settling(id, Cmd.Ack))
      modifies this
      ensures Valid() && At(rest, Idle) && rows == Removed(old(rows), id)
      ensures entries == old(entries) && last == old(last) && dlq == old(dlq)
    {
      Remove(id);
      Advance(Exec(g, w));
    }

    /** MULTI: XADD to the dead letters and XACK, both or neither. */
    method Transaction(id: nat, e: Envelope, ghost rest: seq<nat>)
      requires Valid() && At(rest, Settling(id, Cmd.Bury)) && id < |entries| && entries[id] == Some(e)
      modifies this
      ensures Valid() && At(rest, Idle) && rows == Removed(old(rows), id) && dlq == old(dlq) + [e]
      ensures entries == old(entries) && last == old(last)
      ensures model.dlq == old(model.dlq) + [DeadLetter(g, id, e)]
    {
      Remove(id);
      dlq := dlq + [e];
      Advance(Exec(g, w));
    }

    method Remove(id: nat)
      requires Listed(rows, last)
      modifies this`rows
      ensures rows == Removed(old(rows), id) && Listed(rows, last)
      ensures forall x: nat :: Lookup(rows, x) == if x == id then None else Lookup(old(rows), x)
    {
      RemovedListed(rows, id, last);
      forall x: nat ensures Lookup(Removed(rows, id), x) == if x == id then None else Lookup(rows, x) {
        LookupRemoved(rows, id, x);
      }
      rows := Removed(rows, id);
    }
  }

  lemma RemovedListed(rows: seq<Row>, id: nat, bound: nat)
    requires Listed(rows, bound)
    ensures Listed(Removed(rows, id), bound)
  {
    ListedMeans(rows, bound);
    RemovedKeepsOrder(rows, id);
    var rest := Removed(rows, id);
    forall i | 0 <= i < |rest| ensures rest[i].id < bound && rest[i].count >= 1 { assert rest[i] in rows; }
    ListedMeans(rest, bound);
  }

  lemma AgedListed(rows: seq<Row>, ids: seq<nat>, bound: nat)
    requires Listed(rows, bound)
    ensures Listed(AgedAt(rows, ids), bound)
  {
    ListedMeans(rows, bound);
    ListedMeans(AgedAt(rows, ids), bound);
  }

  lemma ReadListed(rows: seq<Row>, last: nat, ids: seq<nat>)
    requires Listed(rows, last) && forall i: nat | i < |ids| :: ids[i] == last + i
    ensures Listed(rows + FirstDelivery(ids), last + |ids|)
  {
    ListedMeans(rows, last);
    ListedMeans(rows + FirstDelivery(ids), last + |ids|);
  }

  lemma {:induction false} NewIdsAt(last: nat, k: nat)
    ensures |NewIds(last, k)| == k && forall i: nat | i < k :: NewIds(last, k)[i] == last + i
  {
    if k > 0 { NewIdsAt(last, k - 1); }
  }
}
