/** The remote cache put on top of the three backends, as one machine whose states are pairs
    of a backend state and a cache state: the backend takes its steps and the cache follows
    each of them, and in between readers fetch and store, sources change and time passes.
    What coherence says about the abstract bus then speaks of the backend's own logs, lists
    and queues. */
module BusCoherence {
  import opened Wrappers
  import opened Events
  import opened RemoteCache
  import opened Coherence
  import Alo = AtLeastOnce
  import KM = KafkaMachine
  import KC = KafkaConservation
  import KR = KafkaRefinement
  import RM = RabbitMachine
  import RC = RabbitConservation
  import SM = RedisMachine
  import SC = RedisConservation

  // ----- any backend

  /** A step machine S, X with an invariant, and what its states and steps are on the bus of
      one service. */
  datatype Backend<!S, !X> = Backend(
    sound: S -> bool,
    can: (S, X) -> bool,
    do: (S, X) -> S,
    bus: S -> Alo.Bus<Note>,
    moves: (S, X) -> seq<Alo.Move<Note>>)

  ghost predicate StepOk<S, X>(b: Backend<S, X>, s: S, x: X) {
    && b.sound(b.do(s, x))
    && Alo.Legal(b.bus(s), b.moves(s, x)) && Alo.After(b.bus(s), b.moves(s, x)) == b.bus(b.do(s, x))
  }

  ghost predicate Refines<S(!new), X(!new)>(b: Backend<S, X>) {
    forall s, x | b.sound(s) && b.can(s, x) :: StepOk(b, s, x)
  }

  ghost predicate BackendRun<S, X>(b: Backend<S, X>, s: S, steps: seq<X>) {
    steps == [] ||
    var n := |steps| - 1;
    BackendRun(b, s, steps[..n]) && b.can(BackendFinal(b, s, steps[..n]), steps[n])
  }

  ghost function BackendFinal<S, X>(b: Backend<S, X>, s: S, steps: seq<X>): S {
    if steps == [] then s else b.do(BackendFinal(b, s, steps[..|steps| - 1]), steps[|steps| - 1])
  }

  // ----- the joint machine

  datatype Joint<S> = Joint(backend: S, cache: State)

  /** A step of the backend that the cache follows, or one that does not touch the bus. */
  datatype JointStep<X> = Both(x: X, ys: seq<Step>) | Local(y: Step)

  ghost predicate Carries(cfg: Cfg, ys: seq<Step>, moves: seq<Alo.Move<Note>>) {
    |ys| == |moves| && forall i | 0 <= i < |ys| :: BusMove(cfg, ys[i]) == moves[i]
  }

  ghost predicate JointCan<S, X>(b: Backend<S, X>, cfg: Cfg, j: Joint<S>, z: JointStep<X>) {
    match z
    case Both(x, ys) => b.can(j.backend, x) && Run(cfg, j.cache, ys) && Carries(cfg, ys, b.moves(j.backend, x))
    case Local(y) => Can(cfg, j.cache, y) && BusMove(cfg, y) == Alo.Stutter
  }

  ghost function JointDo<S, X>(b: Backend<S, X>, cfg: Cfg, j: Joint<S>, z: JointStep<X>): Joint<S>
    requires JointCan(b, cfg, j, z)
  {
    match z
    case Both(x, ys) => Joint(b.do(j.backend, x), Final(cfg, j.cache, ys))
    case Local(y) => Joint(j.backend, Do(cfg, j.cache, y))
  }

  ghost predicate JointRun<S, X>(b: Backend<S, X>, cfg: Cfg, j: Joint<S>, zs: seq<JointStep<X>>)
    decreases |zs|, 0
  {
    zs == [] ||
    var n := |zs| - 1;
    JointRun(b, cfg, j, zs[..n]) && JointCan(b, cfg, JointFinal(b, cfg, j, zs[..n]), zs[n])
  }

  ghost function JointFinal<S, X>(b: Backend<S, X>, cfg: Cfg, j: Joint<S>, zs: seq<JointStep<X>>): Joint<S>
    requires JointRun(b, cfg, j, zs)
    decreases |zs|, 1
  {
    if zs == [] then j else
      var n := |zs| - 1;
      JointDo(b, cfg, JointFinal(b, cfg, j, zs[..n]), zs[n])
  }

  /** Both halves agree on what is on the bus. */
  ghost predicate Linked<S, X>(b: Backend<S, X>, j: Joint<S>) {
    b.sound(j.backend) && j.cache.bus == b.bus(j.backend)
  }

  /** The cache's half of a joint step ends with the bus of the backend's half. */
  lemma JointStepLinks<S(!new), X(!new)>(b: Backend<S, X>, cfg: Cfg, j: Joint<S>, z: JointStep<X>)
    requires Refines(b) && Linked(b, j) && JointCan(b, cfg, j, z)
    ensures Linked(b, JointDo(b, cfg, j, z))
  {
    if z.Both? {
      assert StepOk(b, j.backend, z.x);
      var moves := BusRefines(cfg, j.cache, z.ys);
      assert moves == b.moves(j.backend, z.x);
    }
  }

  lemma {:induction false} RunsJoin(cfg: Cfg, s: State, left: seq<Step>, right: seq<Step>)
    requires Run(cfg, s, left) && Run(cfg, Final(cfg, s, left), right)
    ensures Run(cfg, s, left + right) && Final(cfg, s, left + right) == Final(cfg, Final(cfg, s, left), right)
  {
    if right == [] {
      assert left + right == left;
    } else {
      var n := |right| - 1;
      RunsJoin(cfg, s, left, right[..n]);
      RunExtends(cfg, s, left + right[..n], right[n]);
      assert left + right == left + right[..n] + [right[n]];
    }
  }

  /** Every joint run is a run of the backend and a run of the cache machine, with the same
      bus at the end, and so at every moment. */
  lemma {:induction false} Projects<S(!new), X(!new)>(b: Backend<S, X>, cfg: Cfg, j: Joint<S>, zs: seq<JointStep<X>>)
    returns (steps: seq<X>, ys: seq<Step>)
    requires Refines(b) && Linked(b, j) && JointRun(b, cfg, j, zs)
    ensures BackendRun(b, j.backend, steps) && BackendFinal(b, j.backend, steps) == JointFinal(b, cfg, j, zs).backend
    ensures Run(cfg, j.cache, ys) && Final(cfg, j.cache, ys) == JointFinal(b, cfg, j, zs).cache
    ensures Linked(b, JointFinal(b, cfg, j, zs))
  {
    steps, ys := [], [];
    if zs != [] {
      var n := |zs| - 1;
      var t, z := JointFinal(b, cfg, j, zs[..n]), zs[n];
      steps, ys := Projects(b, cfg, j, zs[..n]);
      JointStepLinks(b, cfg, t, z);
      match z
      case Both(x, more) =>
        assert (steps + [x])[..|steps|] == steps;
        steps := steps + [x];
        RunsJoin(cfg, j.cache, ys, more);
        ys := ys + more;
      case Local(y) =>
        RunExtends(cfg, j.cache, ys, y);
        ys := ys + [y];
    }
  }

  /** Only events with a receiver that may raise are ever failed. */
  ghost predicate FailsOnlySiblings(cfg: Cfg, moves: seq<Alo.Move<Note>>) {
    forall m | m in moves && m.Fail? :: MayRaise(cfg, m.e.body.eventType)
  }

  /** Whatever the bus does next, for any number of moves, the cache machine can follow, from
      any state: whatever it holds and whoever is between fetch and store. */
  lemma {:induction false} FollowBus(cfg: Cfg, s: State, moves: seq<Alo.Move<Note>>) returns (ys: seq<Step>)
    requires Alo.Legal(s.bus, moves) && FailsOnlySiblings(cfg, moves)
    ensures Run(cfg, s, ys) && Final(cfg, s, ys).bus == Alo.After(s.bus, moves) && Carries(cfg, ys, moves)
  {
    ys := [];
    if moves != [] {
      var n := |moves| - 1;
      var before := FollowBus(cfg, s, moves[..n]);
      var m := moves[n];
      assert m in moves;
      var y := BusIsFree(cfg, Final(cfg, s, before), m);
      RunExtends(cfg, s, before, y);
      ys := before + [y];
    }
  }

  /** The cache never holds the backend up: a step the backend can take alone is one half of
      a joint step, in every linked state. */
  lemma BackendIsFree<S(!new), X(!new)>(b: Backend<S, X>, cfg: Cfg, j: Joint<S>, x: X) returns (ys: seq<Step>)
    requires Refines(b) && Linked(b, j) && b.can(j.backend, x) && FailsOnlySiblings(cfg, b.moves(j.backend, x))
    ensures JointCan(b, cfg, j, Both(x, ys))
  {
    assert StepOk(b, j.backend, x);
    ys := FollowBus(cfg, j.cache, b.moves(j.backend, x));
  }

  ghost predicate Stale(t: State, item: Item, data: Data) {
    && Alive(t.entries, Key(item), t.now) == Some(data)
    && !(item in t.source && t.source[item] == data)
    && (Key(item) in t.origin ==> t.origin[Key(item)].clean)
  }

  /** Coherence over any backend: while an old value that no overtaken reader left is cached,
      its announcement is owed, or outstanding on the backend's own bus and unseen. */
  lemma CoherentOver<S(!new), X(!new)>(
      b: Backend<S, X>, cfg: Cfg, j: Joint<S>, zs: seq<JointStep<X>>, item: Item, data: Data)
    returns (n: Note)
    requires Refines(b) && WellFormed(cfg) && Start(j.cache) && Linked(b, j) && JointRun(b, cfg, j, zs)
    requires Plain(item) && Watched(cfg, item) && Stale(JointFinal(b, cfg, j, zs).cache, item, data)
    ensures var t := JointFinal(b, cfg, j, zs);
            && b.sound(t.backend) && Announces(cfg, n, item) && n !in Ran(b.bus(t.backend))
            && (n in t.cache.owed || n in b.bus(t.backend).outstanding)
  {
    var steps, ys := Projects(b, cfg, j, zs);
    var t := JointFinal(b, cfg, j, zs).cache;
    Coherent(cfg, j.cache, ys, item, data);
    n :| n in t.owed + t.bus.outstanding && n !in Ran(t.bus) && Announces(cfg, n, item);
  }

  // ----- Kafka

  /** An envelope is all that tells events apart there. */
  function OfEnvelope(): Envelope -> Note { e => Note(0, e) }

  ghost function Kafka(kcfg: KM.Cfg, g: nat): Backend<KM.State, KM.Step> {
    Backend(
      s => KC.Inv(kcfg, s) && g < |kcfg.groups|,
      (s, x) => KM.Can(kcfg, s, x),
      (s, x) => if KM.Can(kcfg, s, x) then KM.Do(kcfg, s, x) else s,
      s => Alo.Renamed(OfEnvelope(), KR.Abs(kcfg, s, g)),
      (s, x) => if KM.Can(kcfg, s, x) then [Alo.RenamedMove(OfEnvelope(), KR.MoveOf(kcfg, s, x, g))] else [])
  }

  /** One renamed move, as a sequence of moves. */
  lemma OneMove<E(!new)>(f: E -> Note, a: Alo.Bus<E>, m: Alo.Move<E>)
    requires Alo.Injective(f) && Alo.Can(a, m)
    ensures Alo.Legal(Alo.Renamed(f, a), [Alo.RenamedMove(f, m)])
    ensures Alo.After(Alo.Renamed(f, a), [Alo.RenamedMove(f, m)]) == Alo.Renamed(f, Alo.Do(a, m))
  {
    Alo.RenamedStep(f, a, m);
    Alo.JoinsOne(Alo.Renamed(f, a), [], Alo.RenamedMove(f, m));
    assert [] + [Alo.RenamedMove(f, m)] == [Alo.RenamedMove(f, m)];
  }

  lemma KafkaRefines(kcfg: KM.Cfg, g: nat)
    ensures Refines(Kafka(kcfg, g))
  {
    var b := Kafka(kcfg, g);
    forall s, x | b.sound(s) && b.can(s, x) ensures StepOk(b, s, x) {
      KC.StepKeepsInv(kcfg, s, x);
      KR.StepRefines(kcfg, s, x, g);
      OneMove(OfEnvelope(), KR.Abs(kcfg, s, g), KR.MoveOf(kcfg, s, x, g));
    }
  }

  lemma {:induction false} KafkaRuns(kcfg: KM.Cfg, g: nat, s: KM.State, steps: seq<KM.Step>)
    requires BackendRun(Kafka(kcfg, g), s, steps)
    ensures KM.Run(kcfg, s, steps) && KM.Final(kcfg, s, steps) == BackendFinal(Kafka(kcfg, g), s, steps)
  {
    if steps != [] { KafkaRuns(kcfg, g, s, steps[..|steps| - 1]); }
  }

  /** Coherence over Kafka. The backend half is a run of the Kafka machine, and while an old
      value is cached either the announcement is not on the bus yet, or the group still has a
      copy of it at or above its committed offset and never ran its receivers. */
  lemma CoherentOverKafka(
      kcfg: KM.Cfg, g: nat, cfg: Cfg, j: Joint<KM.State>, zs: seq<JointStep<KM.Step>>, item: Item, data: Data)
    returns (steps: seq<KM.Step>)
    requires WellFormed(cfg) && Start(j.cache) && KM.Init(kcfg, j.backend) && g < |kcfg.groups|
    requires j.cache.bus == Alo.Renamed(OfEnvelope(), KR.Abs(kcfg, j.backend, g)) && JointRun(Kafka(kcfg, g), cfg, j, zs)
    requires Plain(item) && Watched(cfg, item) && Stale(JointFinal(Kafka(kcfg, g), cfg, j, zs).cache, item, data)
    ensures KM.Run(kcfg, j.backend, steps)
    ensures var t, u := KM.Final(kcfg, j.backend, steps), JointFinal(Kafka(kcfg, g), cfg, j, zs).cache;
            || (exists n :: n in u.owed && Announces(cfg, n, item))
            || (exists e :: KC.Live(kcfg, t, g, e) && (g, e) !in t.done && (g, e) !in t.failed
                            && Announces(cfg, Note(0, e), item))
  {
    var b := Kafka(kcfg, g);
    KafkaRefines(kcfg, g);
    KC.RunKeepsInv(kcfg, j.backend, []);
    var ys;
    steps, ys := Projects(b, cfg, j, zs);
    KafkaRuns(kcfg, g, j.backend, steps);
    var n := CoherentOver(b, cfg, j, zs, item, data);
    var t := JointFinal(b, cfg, j, zs);
    if n !in t.cache.owed {
      var a := KR.Abs(kcfg, t.backend, g);
      var e := NotRan(OfEnvelope(), a, n);
    }
  }

  /** An outstanding announcement whose receivers did not run, in the backend's terms. */
  lemma NotRan<E(!new)>(f: E -> Note, a: Alo.Bus<E>, n: Note) returns (e: E)
    requires n in Alo.Renamed(f, a).outstanding && n !in Ran(Alo.Renamed(f, a))
    ensures f(e) == n && e in a.outstanding && e !in a.done && e !in a.failed
  {
    e :| e in a.outstanding && f(e) == n;
    assert f(e) !in Alo.Image(f, a.done) && f(e) !in Alo.Image(f, a.failed);
  }

  // ----- RabbitMQ

  ghost function Rabbit(rcfg: RM.Cfg, svc: nat): Backend<RM.State, RM.Step> {
    Backend(
      s => RC.Inv(rcfg, s) && svc < |rcfg.maxRetries|,
      (s, x) => RM.Can(rcfg, s, x),
      (s, x) => if RM.Can(rcfg, s, x) then RM.Do(rcfg, s, x) else s,
      s => Alo.Renamed(OfEnvelope(), RC.Abs(s, svc)),
      (s, x) => if RM.Can(rcfg, s, x) then [Alo.RenamedMove(OfEnvelope(), RC.MoveOf(rcfg, s, x, svc))] else [])
  }

  lemma RabbitRefines(rcfg: RM.Cfg, svc: nat)
    ensures Refines(Rabbit(rcfg, svc))
  {
    var b := Rabbit(rcfg, svc);
    forall s, x | b.sound(s) && b.can(s, x) ensures StepOk(b, s, x) {
      RC.StepKeepsInv(rcfg, s, x);
      RC.StepRefines(rcfg, s, x, svc);
      OneMove(OfEnvelope(), RC.Abs(s, svc), RC.MoveOf(rcfg, s, x, svc));
    }
  }

  lemma {:induction false} RabbitRuns(rcfg: RM.Cfg, svc: nat, s: RM.State, steps: seq<RM.Step>)
    requires BackendRun(Rabbit(rcfg, svc), s, steps)
    ensures RM.Run(rcfg, s, steps) && RM.Final(rcfg, s, steps) == BackendFinal(Rabbit(rcfg, svc), s, steps)
  {
    if steps != [] { RabbitRuns(rcfg, svc, s, steps[..|steps| - 1]); }
  }

  /** Coherence over RabbitMQ: then a copy of the announcement is still in the main queue,
      unacknowledged, or in some retry queue, and its receivers never ran. */
  lemma CoherentOverRabbit(
      rcfg: RM.Cfg, svc: nat, cfg: Cfg, j: Joint<RM.State>, zs: seq<JointStep<RM.Step>>, item: Item, data: Data)
    returns (steps: seq<RM.Step>)
    requires WellFormed(cfg) && Start(j.cache) && RM.Init(rcfg, j.backend) && svc < |rcfg.maxRetries|
    requires j.cache.bus == Alo.Renamed(OfEnvelope(), RC.Abs(j.backend, svc)) && JointRun(Rabbit(rcfg, svc), cfg, j, zs)
    requires Plain(item) && Watched(cfg, item) && Stale(JointFinal(Rabbit(rcfg, svc), cfg, j, zs).cache, item, data)
    ensures RM.Run(rcfg, j.backend, steps)
    ensures var t, u := RM.Final(rcfg, j.backend, steps), JointFinal(Rabbit(rcfg, svc), cfg, j, zs).cache;
            || (exists n :: n in u.owed && Announces(cfg, n, item))
            || (exists e :: RC.Live(t.svcs, svc, e) && (svc, e) !in t.done && (svc, e) !in t.failed
                            && Announces(cfg, Note(0, e), item))
  {
    var b := Rabbit(rcfg, svc);
    RabbitRefines(rcfg, svc);
    RC.RunKeepsInv(rcfg, j.backend, []);
    var ys;
    steps, ys := Projects(b, cfg, j, zs);
    RabbitRuns(rcfg, svc, j.backend, steps);
    var n := CoherentOver(b, cfg, j, zs, item, data);
    var t := JointFinal(b, cfg, j, zs);
    if n !in t.cache.owed {
      var e := NotRan(OfEnvelope(), RC.Abs(t.backend, svc), n);
    }
  }

  // ----- Redis

  /** Entries are told apart by their ids. */
  function OfEntry(entries: seq<Option<Envelope>>): nat -> Note {
    (id: nat) => Note(id, if id < |entries| && entries[id].Some? then entries[id].value else Envelope("", "", map[]))
  }

  ghost function RenamedMoves<E(!new)>(f: E -> Note, moves: seq<Alo.Move<E>>): seq<Alo.Move<Note>> {
    seq(|moves|, i requires 0 <= i < |moves| => Alo.RenamedMove(f, moves[i]))
  }

  /** A step is named by the entries there are after it. */
  ghost function Redis(scfg: SM.Cfg, g: nat): Backend<SM.State, SM.Step> {
    Backend(
      s => SC.Inv(scfg, s) && g < |scfg.maxRetries|,
      (s, x) => SM.Can(scfg, s, x),
      (s, x) => if SM.Can(scfg, s, x) then SM.Do(scfg, s, x) else s,
      (s: SM.State) => Alo.Renamed(OfEntry(s.entries), SC.Abs(s, g)),
      (s, x) => if SM.Can(scfg, s, x) then RenamedMoves(OfEntry(SM.Do(scfg, s, x).entries), SC.MovesOf(s, x, g)) else [])
  }

  lemma {:induction false} RenamedRun<E(!new)>(f: E -> Note, a: Alo.Bus<E>, moves: seq<Alo.Move<E>>)
    requires Alo.Injective(f) && Alo.Legal(a, moves)
    ensures Alo.Legal(Alo.Renamed(f, a), RenamedMoves(f, moves))
    ensures Alo.After(Alo.Renamed(f, a), RenamedMoves(f, moves)) == Alo.Renamed(f, Alo.After(a, moves))
  {
    if moves != [] {
      var n := |moves| - 1;
      RenamedRun(f, a, moves[..n]);
      Alo.RenamedStep(f, Alo.After(a, moves[..n]), moves[n]);
      assert RenamedMoves(f, moves)[..n] == RenamedMoves(f, moves[..n]);
    }
  }

  /** Entries added later change no name that is in use. */
  lemma SameNames(s: SM.State, t: SM.State, g: nat)
    requires s.entries <= t.entries
    ensures Alo.Renamed(OfEntry(s.entries), SC.Abs(s, g)) == Alo.Renamed(OfEntry(t.entries), SC.Abs(s, g))
  {
    var a, f, h := SC.Abs(s, g), OfEntry(s.entries), OfEntry(t.entries);
    assert forall id | id in a.published :: f(id) == h(id);
    SameImage(f, h, a.published, a.published);
    SameImage(f, h, a.published, a.outstanding);
    SameImage(f, h, a.published, a.done);
    SameImage(f, h, a.published, a.failed);
    SameImage(f, h, a.published, a.dead);
  }

  lemma SameImage(f: nat -> Note, h: nat -> Note, known: set<nat>, ids: set<nat>)
    requires ids <= known && forall id | id in known :: f(id) == h(id)
    ensures Alo.Image(f, ids) == Alo.Image(h, ids)
  {
    forall n ensures n in Alo.Image(f, ids) <==> n in Alo.Image(h, ids) {
      if n in Alo.Image(f, ids) { var id :| id in ids && f(id) == n; assert h(id) in Alo.Image(h, ids); }
      if n in Alo.Image(h, ids) { var id :| id in ids && h(id) == n; assert f(id) in Alo.Image(f, ids); }
    }
  }

  lemma RedisRefines(scfg: SM.Cfg, g: nat)
    ensures Refines(Redis(scfg, g))
  {
    var b := Redis(scfg, g);
    forall s, x | b.sound(s) && b.can(s, x) ensures StepOk(b, s, x) {
      SC.StepKeepsInv(scfg, s, x);
      SC.StepRefines(scfg, s, x, g);
      var t := SM.Do(scfg, s, x);
      SameNames(s, t, g);
      RenamedRun(OfEntry(t.entries), SC.Abs(s, g), SC.MovesOf(s, x, g));
    }
  }

  lemma {:induction false} RedisRuns(scfg: SM.Cfg, g: nat, s: SM.State, steps: seq<SM.Step>)
    requires BackendRun(Redis(scfg, g), s, steps)
    ensures SM.Run(scfg, s, steps) && SM.Final(scfg, s, steps) == BackendFinal(Redis(scfg, g), s, steps)
  {
    if steps != [] { RedisRuns(scfg, g, s, steps[..|steps| - 1]); }
  }

  /** Coherence over Redis: then the entry of the announcement is still ahead of the
      group or pending, and its receivers never ran. */
  lemma CoherentOverRedis(
      scfg: SM.Cfg, g: nat, cfg: Cfg, j: Joint<SM.State>, zs: seq<JointStep<SM.Step>>, item: Item, data: Data)
    returns (steps: seq<SM.Step>)
    requires WellFormed(cfg) && Start(j.cache) && SM.Init(scfg, j.backend) && g < |scfg.maxRetries|
    requires j.cache.bus == Alo.Renamed(OfEntry(j.backend.entries), SC.Abs(j.backend, g))
    requires JointRun(Redis(scfg, g), cfg, j, zs)
    requires Plain(item) && Watched(cfg, item) && Stale(JointFinal(Redis(scfg, g), cfg, j, zs).cache, item, data)
    ensures SM.Run(scfg, j.backend, steps)
    ensures var t, u := SM.Final(scfg, j.backend, steps), JointFinal(Redis(scfg, g), cfg, j, zs).cache;
            || (exists n :: n in u.owed && Announces(cfg, n, item))
            || (exists id: nat :: SC.Deliverable(t, g, id) && (g, id) !in t.done && (g, id) !in t.failed
                             && id < |t.entries| && t.entries[id].Some?
                             && Announces(cfg, Note(id, t.entries[id].value), item))
  {
    var b := Redis(scfg, g);
    RedisRefines(scfg, g);
    SC.RunKeepsInv(scfg, j.backend, []);
    var ys;
    steps, ys := Projects(b, cfg, j, zs);
    RedisRuns(scfg, g, j.backend, steps);
    var n := CoherentOver(b, cfg, j, zs, item, data);
    var t := JointFinal(b, cfg, j, zs);
    if n !in t.cache.owed {
      var id := NotRan(OfEntry(t.backend.entries), SC.Abs(t.backend, g), n);
      assert SC.Deliverable(t.backend, g, id);
    }
  }
}
