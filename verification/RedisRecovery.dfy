/** Consumer groups that do not exist yet, and groups that got lost. listen() creates
    a group at id 0, so it sees the whole history; a group found missing later is
    created at the end of its stream, so history is not replayed. */
module RedisRecovery {
  import opened Wrappers
  import opened Events
  import opened RedisMachine
  import opened RedisConservation

  datatype Start = FromZero | FromEnd   // id="0" and id="$"

  datatype Reply = Created | BusyGroup | OtherReply

  /** A stream and the groups on it: last delivered id and pending ids. */
  datatype Grp = Grp(last: nat, pending: set<nat>)

  datatype Stream = Stream(length: nat, groups: map<string, Grp>)

  datatype Error = NoGroup | OtherError

  class Server {
    var streams: map<string, Stream>

    constructor ()
      ensures streams == map[]
    {
      streams := map[];
    }

    /** XGROUP CREATE ... MKSTREAM. faulty: the server answers with some other error. */
    method XGroupCreate(name: string, group: string, start: Start, faulty: bool) returns (r: Reply)
      modifies this
      ensures r.OtherReply? <==> faulty
      ensures r.BusyGroup? <==> !faulty && name in old(streams) && group in old(streams)[name].groups
      ensures !r.Created? ==> streams == old(streams)
      ensures r.Created? ==>
                var s := Find(old(streams), name);
                streams == old(streams)[name := s.(groups := s.groups[group :=
                             Grp(if start.FromZero? then 0 else s.length, {})])]
    {
      if faulty { return OtherReply; }
      var s := Find(streams, name);
      if group in s.groups { return BusyGroup; }
      streams := streams[name := s.(groups := s.groups[group := Grp(if start.FromZero? then 0 else s.length, {})])];
      r := Created;
    }
  }

  function Find(streams: map<string, Stream>, name: string): Stream {
    if name in streams then streams[name] else Stream(0, map[])
  }

  /** Stream s with the group made sure of: an existing one is left alone. */
  function Ensured(s: Stream, group: string, start: Start): Stream {
    if group in s.groups then s
    else s.(groups := s.groups[group := Grp(if start.FromZero? then 0 else s.length, {})])
  }

  /** now is was with the group made sure of on the named streams and nothing else changed. */
  ghost predicate AllEnsured(
    was: map<string, Stream>, now: map<string, Stream>, names: set<string>, group: string, start: Start)
  {
    && now.Keys == was.Keys + names
    && forall n | n in now :: now[n] == if n in names then Ensured(Find(was, n), group, start) else Find(was, n)
  }

  lemma OneMore(was: map<string, Stream>, before: map<string, Stream>, now: map<string, Stream>,
                names: set<string>, name: string, group: string, start: Start)
    requires AllEnsured(was, before, names, group, start) && name !in names
    requires now.Keys == before.Keys + {name} && now[name] == Ensured(Find(before, name), group, start)
    requires forall n | n in before && n != name :: now[n] == before[n]
    ensures AllEnsured(was, now, names + {name}, group, start)
  {
  }

  class Broker {
    const server: Server
    const serviceName: string

    constructor (server: Server, serviceName: string)
      ensures this.server == server && this.serviceName == serviceName
    {
      this.server, this.serviceName := server, serviceName;
    }

    /** BUSYGROUP is ignored, any other error is raised again. */
    method EnsureGroup(name: string, start: Start, faulty: bool) returns (r: Result<(), Error>)
      modifies server
      ensures r == if faulty then Raised(OtherError) else Ok(())
      ensures faulty ==> server.streams == old(server.streams)
      ensures !faulty ==>
                && server.streams.Keys == old(server.streams).Keys + {name}
                && server.streams[name] == Ensured(Find(old(server.streams), name), serviceName, start)
                && forall n | n in old(server.streams) && n != name :: server.streams[n] == old(server.streams)[n]
      ensures !faulty && !(name in old(server.streams) && serviceName in old(server.streams)[name].groups) ==>
                && serviceName in server.streams[name].groups
                && server.streams[name].groups[serviceName]
                   == Grp(if start.FromZero? then 0 else server.streams[name].length, {})
    {
      var reply := server.XGroupCreate(name, serviceName, start, faulty);
      r := if reply.OtherReply? then Raised(OtherError) else Ok(());
    }

    /** The part of listen() that precedes the generator. */
    method Listen(names: set<string>, faulty: set<string>) returns (r: Result<(), Error>, ghost done: set<string>)
      modifies server
      ensures r.Ok? <==> forall n | n in names :: n !in faulty
      ensures done <= names && (r.Ok? ==> done == names)
      ensures AllEnsured(old(server.streams), server.streams, done, serviceName, FromZero)
      ensures r.Ok? ==> forall n | n in names :: n in server.streams && serviceName in server.streams[n].groups
      ensures forall n | n in done && !(n in old(server.streams) && serviceName in old(server.streams)[n].groups) ::
                server.streams[n].groups[serviceName] == Grp(0, {})
      ensures forall n | n in old(server.streams) :: n in server.streams
                && server.streams[n].length == old(server.streams)[n].length
                && forall h | h in old(server.streams)[n].groups ::
                     h in server.streams[n].groups && server.streams[n].groups[h] == old(server.streams)[n].groups[h]
    {
      r, done := EnsureAll(names, FromZero, faulty);
    }

    /** The loop over the streams; done are those it got through. */
    method EnsureAll(names: set<string>, start: Start, faulty: set<string>)
      returns (r: Result<(), Error>, ghost done: set<string>)
      modifies server
      ensures r.Ok? <==> forall n | n in names :: n !in faulty
      ensures r.Raised? ==> r == Raised(OtherError)
      ensures done <= names && (r.Ok? ==> done == names)
      ensures AllEnsured(old(server.streams), server.streams, done, serviceName, start)
    {
      var left := names;
      ghost var was := server.streams;
      while left != {}
        invariant left <= names && AllEnsured(was, server.streams, names - left, serviceName, start)
        invariant forall n | n in names && n in faulty :: n in left
        decreases |left|
      {
        var name :| name in left;
        r := EnsureNext(name, start, name in faulty, was, names - left);
        if r.Raised? { return r, names - left; }
        assert names - left + {name} == names - (left - {name});
        left := left - {name};
      }
      assert names - left == names;
      return Ok(()), names;
    }

    method EnsureNext(name: string, start: Start, faulty: bool, ghost was: map<string, Stream>, ghost done: set<string>)
      returns (r: Result<(), Error>)
      requires AllEnsured(was, server.streams, done, serviceName, start) && name !in done
      modifies server
      ensures r == if faulty then Raised(OtherError) else Ok(())
      ensures AllEnsured(was, server.streams, if faulty then done else done + {name}, serviceName, start)
    {
      ghost var before := server.streams;
      r := EnsureGroup(name, start, faulty);
      if !faulty { OneMore(was, before, server.streams, done, name, serviceName, start); }
    }

    /** What _consume does when a read over all streams is answered with an error. */
    method RecoverAll(names: set<string>, error: Error, faulty: set<string>)
      returns (r: Result<(), Error>, ghost done: set<string>)
      modifies server
      ensures r.Ok? <==> names == {} || (error.NoGroup? && forall n | n in names :: n !in faulty)
      ensures names != {} && !error.NoGroup? ==> r == Raised(error) && done == {}
      ensures done <= names && (r.Ok? ==> done == names)
      ensures AllEnsured(old(server.streams), server.streams, done, serviceName, FromEnd)
      ensures forall n | n in done && n in old(server.streams) && serviceName !in old(server.streams)[n].groups ::
                n in server.streams && serviceName in server.streams[n].groups
                && server.streams[n].groups[serviceName] == Grp(old(server.streams)[n].length, {})
    {
      if names != {} && !error.NoGroup? { return Raised(error), {}; }
      r, done := EnsureAll(names, FromEnd, faulty);
    }
  }

  // ----- what recovery means for the group

  /** The group is created again at the end of the stream. Its workers do not notice:
      they keep the batches they hold and go on with what they are doing. */
  function Recreated(s: State, g: nat): State
    requires g < |s.groups|
  {
    SetGroup(s, g, s.groups[g].(last := |s.entries|, pel := map[]))
  }

  function GrpOf(x: Group): Grp { Grp(x.last, x.pel.Keys) }

  /** The handler loops over all streams of the service, whichever one lost its group. On
      each of them the group is afterwards what the machine calls recreated if it was
      lost, and as it was if it was not; other groups and other streams are untouched. */
  lemma RecoveryRecreatesOnlyLostGroups(
      was: map<string, Stream>, now: map<string, Stream>, names: set<string>, group: string, n: string, s: State, g: nat)
    requires AllEnsured(was, now, names, group, FromEnd) && n in now
    requires Find(was, n).length == |s.entries| && g < |s.groups|
    ensures now[n].length == |s.entries|
    ensures n in names && group !in Find(was, n).groups ==>
              group in now[n].groups && now[n].groups[group] == GrpOf(Recreated(s, g).groups[g])
    ensures n !in names || group in Find(was, n).groups ==> n in was && now[n] == was[n]
    ensures forall h | h in Find(was, n).groups :: h in now[n].groups && now[n].groups[h] == Find(was, n).groups[h]
    ensures forall m | m !in names :: m in now <==> m in was
  {
    assert group in Find(was, n).groups ==> n in was;
  }

  /** What listen() creates where a group was missing is the group a run of the machine
      starts with, whatever the stream holds by then. */
  lemma ListenStartsRun(
      cfg: Cfg, was: map<string, Stream>, now: map<string, Stream>, names: set<string>, group: string, n: string,
      s: State, g: nat)
    requires AllEnsured(was, now, names, group, FromZero) && n in names && group !in Find(was, n).groups
    requires Init(cfg, s) && g < |s.groups|
    ensures n in now && group in now[n].groups && now[n].groups[group] == GrpOf(s.groups[g])
    ensures now[n].length == Find(was, n).length
  {
  }

  /** What holds of a group whatever happened to it: its workers only have to do with
      entries it read, and so has its pending list. */
  ghost predicate Sane(s: State, g: nat) {
    && g < |s.groups| && s.groups[g].last <= |s.entries|
    && (forall id | id in s.groups[g].pel :: id < s.groups[g].last)
    && (forall w: nat | HasWorker(s, g, w) :: WorkerOk(s, g, w))
  }

  lemma ReachableIsSane(cfg: Cfg, s: State, steps: seq<Step>, g: nat)
    requires Init(cfg, s) && Run(cfg, s, steps) && g < |cfg.maxRetries|
    ensures Sane(Final(cfg, s, steps), g)
  {
    RunKeepsInv(cfg, s, steps);
  }

  /** Entries a step hands to a worker of the group. */
  function Handed(s: State, step: Step, g: nat): seq<nat> {
    if step.Read? && step.g == g && g < |s.groups| then NewIds(s.groups[g].last, step.k)
    else if step.Reclaim? && step.g == g then step.ids
    else []
  }

  /** The group was recreated behind the entries below f: none of them is pending, and
      each entry from f on that it read is pending or settled. */
  ghost predicate OnlySince(s: State, g: nat, f: nat) {
    && Sane(s, g) && f <= s.groups[g].last
    && (forall id | id in s.groups[g].pel :: f <= id)
    && (forall id: nat | f <= id < s.groups[g].last :: id in s.groups[g].pel || Settled(s, g, id))
  }

  lemma StepKeepsWorker(cfg: Cfg, s: State, step: Step, g: nat, w: nat)
    requires Sane(s, g) && Can(cfg, s, step) && HasWorker(Do(cfg, s, step), g, w)
    ensures Do(cfg, s, step).groups[g].last <= |Do(cfg, s, step).entries| && WorkerOk(Do(cfg, s, step), g, w)
  {
    if step.Add? || step.g != g || step.w != w {
      OtherWorkerSane(cfg, s, step, g, w);
    } else {
      OwnWorkerSane(cfg, s, step);
    }
  }

  lemma OtherWorkerSane(cfg: Cfg, s: State, step: Step, g: nat, w: nat)
    requires Sane(s, g) && Can(cfg, s, step) && HasWorker(s, g, w) && (step.Add? || step.g != g || step.w != w)
    ensures HasWorker(Do(cfg, s, step), g, w)
    ensures Do(cfg, s, step).groups[g].last <= |Do(cfg, s, step).entries| && WorkerOk(Do(cfg, s, step), g, w)
  {
    assert WorkerOk(s, g, w);
  }

  lemma OwnWorkerSane(cfg: Cfg, s: State, step: Step)
    requires !step.Add? && Sane(s, step.g) && Can(cfg, s, step)
    ensures var t := Do(cfg, s, step);
            HasWorker(t, step.g, step.w) && t.groups[step.g].last <= |t.entries| && WorkerOk(t, step.g, step.w)
  {
    assert WorkerOk(s, step.g, step.w);
    if step.Next? {
      var batch := s.groups[step.g].workers[step.w].batch;
      assert batch[0] in batch && forall id | id in batch[1..] :: id in batch;
    }
  }

  lemma StepKeepsSane(cfg: Cfg, s: State, step: Step, g: nat)
    requires Sane(s, g) && Can(cfg, s, step)
    ensures Sane(Do(cfg, s, step), g)
  {
    var t := Do(cfg, s, step);
    forall w: nat | HasWorker(t, g, w) ensures WorkerOk(t, g, w) { StepKeepsWorker(cfg, s, step, g, w); }
  }

  lemma SinceSettled(cfg: Cfg, s: State, step: Step, g: nat, f: nat, id: nat)
    requires OnlySince(s, g, f) && Can(cfg, s, step) && f <= id < Do(cfg, s, step).groups[g].last
    ensures var t := Do(cfg, s, step); id in t.groups[g].pel || Settled(t, g, id)
  {
    var t := Do(cfg, s, step);
    if id < s.groups[g].last && id !in s.groups[g].pel {
      SettledKept(cfg, s, step, g, id);
    } else if step.Exec? && step.g == g && s.groups[g].workers[step.w].phase.id == id {
      assert WorkerOk(s, g, step.w);
      if s.groups[g].workers[step.w].phase.cmd.Bury? {
        assert t.dlq[|s.dlq|].group == g && t.dlq[|s.dlq|].id == id;
      }
    }
  }

  lemma StepKeepsSince(cfg: Cfg, s: State, step: Step, g: nat, f: nat)
    requires OnlySince(s, g, f) && Can(cfg, s, step)
    ensures OnlySince(Do(cfg, s, step), g, f)
    ensures forall id | id in Handed(s, step, g) :: f <= id
  {
    var t := Do(cfg, s, step);
    StepKeepsSane(cfg, s, step, g);
    forall id: nat | f <= id < t.groups[g].last ensures id in t.groups[g].pel || Settled(t, g, id) {
      SinceSettled(cfg, s, step, g, f, id);
    }
  }

  /** What the i-th step of the run hands out was added since. */
  ghost predicate HandsNew(cfg: Cfg, s: State, steps: seq<Step>, g: nat, f: nat, i: nat)
    requires i < |steps|
  {
    Run(cfg, s, steps[..i]) && forall id | id in Handed(Final(cfg, s, steps[..i]), steps[i], g) :: f <= id
  }

  lemma {:induction false} SinceKept(cfg: Cfg, s: State, steps: seq<Step>, g: nat, f: nat)
    requires OnlySince(s, g, f) && Run(cfg, s, steps)
    ensures OnlySince(Final(cfg, s, steps), g, f)
    ensures forall i: nat | i < |steps| :: HandsNew(cfg, s, steps, g, f, i)
  {
    if steps != [] {
      var n := |steps| - 1;
      SinceKept(cfg, s, steps[..n], g, f);
      StepKeepsSince(cfg, Final(cfg, s, steps[..n]), steps[n], g, f);
      forall i: nat | i < |steps| ensures HandsNew(cfg, s, steps, g, f, i) {
        if i < n {
          assert HandsNew(cfg, s, steps[..n], g, f, i);
          assert steps[..n][..i] == steps[..i];
        }
      }
    }
  }

  /** No replay. The group is lost and created again at any moment, whatever its workers
      hold: every entry that any of them is handed from then on, by a read or a reclaim,
      was added after the recreation, and each such entry the group reads stays pending
      or gets settled. The state afterwards is sane, so the group may be lost again. */
  lemma NeverReplays(cfg: Cfg, s: State, steps: seq<Step>, g: nat)
    requires Sane(s, g) && Run(cfg, Recreated(s, g), steps)
    ensures forall i: nat | i < |steps| :: HandsNew(cfg, Recreated(s, g), steps, g, |s.entries|, i)
    ensures OnlySince(Final(cfg, Recreated(s, g), steps), g, |s.entries|)
  {
    forall w: nat | HasWorker(Recreated(s, g), g, w) ensures WorkerOk(Recreated(s, g), g, w) {
      assert WorkerOk(s, g, w);
    }
    SinceKept(cfg, Recreated(s, g), steps, g, |s.entries|);
  }

  /** By contrast a first listen() starts at 0: nothing of the history is passed over. */
  lemma {:induction false} FirstListenReadsAll(cfg: Cfg, s: State, steps: seq<Step>, g: nat, id: nat)
    requires Init(cfg, s) && Run(cfg, s, steps) && g < |cfg.maxRetries|
    requires id < Final(cfg, s, steps).groups[g].last
    ensures exists i: nat :: i < |steps| && HandsOut(cfg, s, steps, g, i, id)
  {
    if steps != [] {
      var n := |steps| - 1;
      var b := Final(cfg, s, steps[..n]);
      if id < b.groups[g].last {
        FirstListenReadsAll(cfg, s, steps[..n], g, id);
        var i: nat :| i < n && HandsOut(cfg, s, steps[..n], g, i, id);
        assert steps[..n][..i] == steps[..i];
        assert HandsOut(cfg, s, steps, g, i, id);
      } else {
        NewlyReadIsHanded(cfg, b, steps[n], g, id);
        assert HandsOut(cfg, s, steps, g, n, id);
      }
    }
  }

  lemma NewlyReadIsHanded(cfg: Cfg, s: State, step: Step, g: nat, id: nat)
    requires Can(cfg, s, step) && g < |s.groups| && s.groups[g].last <= id < Do(cfg, s, step).groups[g].last
    ensures id in Handed(s, step, g)
  {
    assert step.Read? && step.g == g;
  }

  ghost predicate HandsOut(cfg: Cfg, s: State, steps: seq<Step>, g: nat, i: nat, id: nat)
    requires i < |steps|
  {
    Run(cfg, s, steps[..i]) && id in Handed(Final(cfg, s, steps[..i]), steps[i], g)
  }
}
