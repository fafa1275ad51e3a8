/** The cache of remote data over the bus, as a machine: the source service changes
    items and announces the changes; readers fetch and store copies; the worker of this
    service runs the receivers of announced events, over any bus that behaves like
    AtLeastOnce. Readers, updates and dispatches interleave freely. */
module Coherence {
  import opened Wrappers
  import opened Events
  import opened Names
  import opened Registry
  import opened RemoteCache
  import Alo = AtLeastOnce

  datatype Item = Item(service: string, resource: string, pk: string)

  /** A published event; tag tells apart what the bus tells apart beyond the envelope. */
  datatype Note = Note(tag: nat, body: Envelope)

  /** The primary key an event names. */
  function IdOf(note: Note): Option<string> {
    if "id" in note.body.payload then Some(note.body.payload["id"]) else None
  }

  /** A remote field of a model; without a ttl of its own it takes the default one. */
  datatype Field = Field(target: Target, ttl: Option<int>)

  /** latency bounds the time between a fetch and the cache write following it. */
  datatype Cfg = Cfg(
    fields: set<Field>, defaultTtl: Option<int>, latency: nat,
    handlers: Handlers, wired: set<(Target, string)>, targets: map<Receiver, Target>)

  /** A fetched copy on its way into the cache, and later the record of where an entry
      came from. clean: no invalidation of the item ran between fetch and store. */
  datatype Copy = Copy(item: Item, data: Data, ttl: Option<int>, at: int, clean: bool)

  datatype State = State(
    now: int,
    source: map<Item, Data>,
    entries: map<string, Entry>,
    origin: map<string, Copy>,
    inFlight: map<nat, Copy>,     // per reader between fetch and store
    owed: set<Note>,              // announcements of committed updates not yet on the bus
    bus: Alo.Bus<Note>)

  datatype Step =
    | Tick(d: nat)
    | Update(item: Item, value: Option<Data>, note: Note)
    | Drift(item: Item, value: Option<Data>)    // a change of an item nobody watches
    | Publish(note: Note)
    | Fetch(reader: nat, field: Field, pk: string)
    | Store(reader: nat)
    | Abandon(reader: nat)
    | Dispatch(note: Note, raises: set<Receiver>)
    | Duplicate(note: Note)
    | Bury(note: Note)
    | Retire(note: Note)

  /** Events all of whose receivers were run at least once. */
  function Ran(bus: Alo.Bus<Note>): set<Note> { bus.done + bus.failed }

  function TargetOf(item: Item): Target { Target(item.service, item.resource) }
  function Key(item: Item): string { RemoteKey(item.service, item.resource, item.pk) }

  ghost predicate Plain(item: Item) { ':' !in item.service && ':' !in item.resource }

  ghost predicate Watched(cfg: Cfg, item: Item) { exists t :: (TargetOf(item), t) in cfg.wired }

  ghost predicate Announces(cfg: Cfg, note: Note, item: Item) {
    && (TargetOf(item), note.body.eventType) in cfg.wired
    && "id" in note.body.payload && note.body.payload["id"] == item.pk
  }

  /** Wiring as RegisterInvalidation leaves it, and names that cannot be confused. */
  ghost predicate WellFormed(cfg: Cfg) {
    && Consistent(cfg.handlers, cfg.wired, cfg.targets)
    && forall f | f in cfg.fields :: ':' !in f.target.service && ':' !in f.target.resource
  }

  function Effective(cfg: Cfg, field: Field): Option<int> {
    if field.ttl.Some? then field.ttl else cfg.defaultTtl
  }

  ghost function Put(m: map<Item, Data>, item: Item, value: Option<Data>): map<Item, Data> {
    if value.Some? then m[item := value.value] else m - {item}
  }

  /** One receiver: an invalidator deletes its entry, any other leaves the cache alone. */
  function RunOne(entries: map<string, Entry>, targets: map<Receiver, Target>, r: Receiver, id: Option<string>): map<string, Entry> {
    if r in targets && id.Some? then entries - {RemoteKey(targets[r].service, targets[r].resource, id.value)}
    else entries
  }

  function RunAll(entries: map<string, Entry>, targets: map<Receiver, Target>, rs: seq<Receiver>, id: Option<string>): map<string, Entry> {
    if rs == [] then entries
    else RunOne(RunAll(entries, targets, rs[..|rs| - 1], id), targets, rs[|rs| - 1], id)
  }

  /** The dispatcher on a cache: every receiver runs, failures are only counted.
      Invalidators delete from a cache whose deletes succeed, so they do not raise. */
  method RunReceivers(cache: Cache, registry: Registry, targets: map<Receiver, Target>, note: Note, raises: set<Receiver>)
    returns (failed: nat)
    requires registry.Valid() && forall r | r in raises :: r !in targets
    modifies cache`entries
    ensures cache.entries == RunAll(old(cache.entries), targets, registry.Of(note.body.eventType), IdOf(note))
    ensures failed == 0 <==> forall r | r in registry.Of(note.body.eventType) :: r !in raises
    ensures "id" !in note.body.payload ==> cache.entries == old(cache.entries)
    ensures "id" in note.body.payload ==>
              var t, id := note.body.eventType, note.body.payload["id"];
              && (t in registry.handlers ==> forall r | r in registry.handlers[t] && r in targets ::
                    RemoteKey(targets[r].service, targets[r].resource, id) !in cache.entries)
              && cache.entries.Keys <= old(cache.entries).Keys
              && forall key | key in old(cache.entries) ::
                   || (key in cache.entries && cache.entries[key] == old(cache.entries)[key])
                   || (t in registry.handlers && exists r ::
                         r in registry.handlers[t] && r in targets
                         && key == RemoteKey(targets[r].service, targets[r].resource, id))
  {
    var rs := registry.GetReceivers(note.body.eventType);
    forall key
      ensures key in RunAll(cache.entries, targets, rs, IdOf(note)) <==>
              && key in cache.entries
              && !(IdOf(note).Some? && exists r :: r in rs && Deletes(targets, r, IdOf(note).value, key))
      ensures key in RunAll(cache.entries, targets, rs, IdOf(note)) ==>
                RunAll(cache.entries, targets, rs, IdOf(note))[key] == cache.entries[key]
    {
      RunAllDeletes(cache.entries, targets, rs, IdOf(note), key);
    }
    failed := 0;
    for i := 0 to |rs|
      invariant cache.entries == RunAll(old(cache.entries), targets, rs[..i], IdOf(note))
      invariant failed == 0 <==> forall r | r in rs[..i] :: r !in raises
    {
      assert rs[..i + 1][..i] == rs[..i];
      if rs[i] in targets {
        cache.Invalidate(targets[rs[i]].service, targets[rs[i]].resource, IdOf(note));
      }
      if rs[i] in raises { failed := failed + 1; }
    }
    assert rs[..|rs|] == rs;
  }

  ghost predicate Deletes(targets: map<Receiver, Target>, r: Receiver, id: string, key: string) {
    r in targets && RemoteKey(targets[r].service, targets[r].resource, id) == key
  }

  /** What a dispatch deletes: exactly the entries of the announced targets. */
  lemma {:induction false} RunAllDeletes(
      entries: map<string, Entry>, targets: map<Receiver, Target>, rs: seq<Receiver>, id: Option<string>, key: string)
    ensures key in RunAll(entries, targets, rs, id) <==>
            && key in entries
            && !(id.Some? && exists r :: r in rs && Deletes(targets, r, id.value, key))
    ensures key in RunAll(entries, targets, rs, id) ==> RunAll(entries, targets, rs, id)[key] == entries[key]
  {
    if rs != [] {
      var n := |rs| - 1;
      RunAllDeletes(entries, targets, rs[..n], id, key);
      assert rs == rs[..n] + [rs[n]];
      assert forall r :: r in rs <==> r in rs[..n] || r == rs[n];
      assert id.Some? && Deletes(targets, rs[n], id.value, key) ==>
          key !in RunAll(entries, targets, rs, id);
    }
  }

  ghost function BusMove(cfg: Cfg, x: Step): Alo.Move<Note> {
    match x
    case Publish(note) => Alo.Publish(note)
    case Dispatch(note, raises) =>
      if forall r | r in ReceiversOf(cfg.handlers, note.body.eventType) :: r !in raises then Alo.Succeed(note) else Alo.Fail(note)
    case Duplicate(note) => Alo.Duplicate(note)
    case Bury(note) => Alo.Bury(note)
    case Retire(note) => Alo.Retire(note)
    case _ => Alo.Stutter
  }

  ghost predicate Can(cfg: Cfg, s: State, x: Step) {
    Alo.Can(s.bus, BusMove(cfg, x)) &&
    match x
    case Tick(_) => true
    case Update(item, _, note) => Announces(cfg, note, item) && note !in s.owed && note !in s.bus.published
    case Drift(item, _) => !Watched(cfg, item)
    case Publish(_) => true
    case Fetch(reader, field, pk) =>
      reader !in s.inFlight && field in cfg.fields && Item(field.target.service, field.target.resource, pk) in s.source
    case Store(reader) => reader in s.inFlight && s.now <= s.inFlight[reader].at + cfg.latency
    case Abandon(_) => true
    case Dispatch(note, raises) => note in s.bus.published && forall r | r in raises :: r !in cfg.targets
    case Duplicate(_) => true
    case Bury(_) => true
    case Retire(_) => true
  }

  ghost function Dirtied(cfg: Cfg, note: Note, c: Copy): Copy {
    if Announces(cfg, note, c.item) then c.(clean := false) else c
  }

  ghost function Do(cfg: Cfg, s: State, x: Step): State
    requires Can(cfg, s, x)
  {
    var t := s.(bus := Alo.Do(s.bus, BusMove(cfg, x)));
    match x
    case Tick(d) => t.(now := s.now + d)
    case Update(item, value, note) => t.(source := Put(s.source, item, value), owed := s.owed + {note})
    case Drift(item, value) => t.(source := Put(s.source, item, value))
    case Publish(note) => t.(owed := s.owed - {note})
    case Fetch(reader, field, pk) =>
      (var item := Item(field.target.service, field.target.resource, pk);
       t.(inFlight := s.inFlight[reader := Copy(item, s.source[item], Effective(cfg, field), s.now, true)]))
    case Store(reader) =>
      (var c := s.inFlight[reader];
       t.(entries := Stored(s.entries, Key(c.item), c.data, c.ttl, s.now),
          origin := s.origin[Key(c.item) := c],
          inFlight := s.inFlight - {reader}))
    case Abandon(reader) => t.(inFlight := s.inFlight - {reader})
    case Dispatch(note, _) =>
      t.(entries := RunAll(s.entries, cfg.targets, ReceiversOf(cfg.handlers, note.body.eventType), IdOf(note)),
         inFlight := map r | r in s.inFlight :: Dirtied(cfg, note, s.inFlight[r]))
    case Duplicate(_) => t
    case Bury(_) => t
    case Retire(_) => t
  }

  ghost predicate Start(s: State) {
    && s.entries == map[] && s.inFlight == map[] && s.owed == {}
    && Alo.Fresh(s.bus)
  }

  ghost predicate Run(cfg: Cfg, s: State, xs: seq<Step>)
    decreases |xs|, 0
  {
    xs == [] || (Run(cfg, s, xs[..|xs| - 1]) && Can(cfg, Final(cfg, s, xs[..|xs| - 1]), xs[|xs| - 1]))
  }

  ghost function Final(cfg: Cfg, s: State, xs: seq<Step>): State
    requires Run(cfg, s, xs)
    decreases |xs|, 1
  {
    if xs == [] then s else Do(cfg, Final(cfg, s, xs[..|xs| - 1]), xs[|xs| - 1])
  }

  // ----- coherence

  /** An announcement of a change of the item whose receivers did not run yet. */
  ghost predicate Pending(cfg: Cfg, s: State, item: Item) {
    exists n :: n in s.owed + s.bus.outstanding && n !in Ran(s.bus) && Announces(cfg, n, item)
  }

  ghost predicate UpToDate(s: State, c: Copy) { c.item in s.source && s.source[c.item] == c.data }

  ghost predicate Sound(cfg: Cfg, s: State, c: Copy) {
    && Plain(c.item)
    && (c.clean && Watched(cfg, c.item) ==> UpToDate(s, c) || Pending(cfg, s, c.item))
  }

  ghost predicate Inv(cfg: Cfg, s: State) {
    && (forall r | r in s.inFlight :: Sound(cfg, s, s.inFlight[r]))
    && (forall k | k in s.entries :: k in s.origin && Traced(k, s.entries[k], s.origin[k]) && Sound(cfg, s, s.origin[k]))
    && s.bus.dead <= s.bus.failed && Ran(s.bus) <= s.bus.published <= s.bus.outstanding + Ran(s.bus)
    && s.owed !! s.bus.published
  }

  ghost predicate Traced(k: string, e: Entry, c: Copy) { k == Key(c.item) && e.data == c.data }

  /** A copy stays sound unless its item changes unannounced or an announcement of it is
      run without touching the copy. */
  lemma SoundKept(cfg: Cfg, s: State, x: Step, c: Copy)
    requires Inv(cfg, s) && Can(cfg, s, x) && Sound(cfg, s, c)
    requires x.Dispatch? ==> !Announces(cfg, x.note, c.item)
    ensures Sound(cfg, Do(cfg, s, x), c)
  {
    var t := Do(cfg, s, x);
    if c.clean && Watched(cfg, c.item) {
      if Pending(cfg, s, c.item) {
        var n :| n in s.owed + s.bus.outstanding && n !in Ran(s.bus) && Announces(cfg, n, c.item);
        assert n in t.owed + t.bus.outstanding && n !in Ran(t.bus);
      } else if x.Update? && x.item == c.item {
        assert x.note in t.owed && x.note !in Ran(t.bus);
      }
    }
  }

  lemma StepKeepsInv(cfg: Cfg, s: State, x: Step)
    requires WellFormed(cfg) && Inv(cfg, s) && Can(cfg, s, x)
    ensures Inv(cfg, Do(cfg, s, x))
  {
    var t := Do(cfg, s, x);
    forall r | r in t.inFlight ensures Sound(cfg, t, t.inFlight[r]) {
      if r in s.inFlight {
        var c := s.inFlight[r];
        if x.Dispatch? && Announces(cfg, x.note, c.item) {
        } else {
          SoundKept(cfg, s, x, c);
        }
      }
    }
    forall k | k in t.entries
      ensures k in t.origin && Traced(k, t.entries[k], t.origin[k]) && Sound(cfg, t, t.origin[k])
    {
      if x.Store? && k == Key(s.inFlight[x.reader].item) {
        SoundKept(cfg, s, x, s.inFlight[x.reader]);
      } else {
        EntryKept(cfg, s, x, k);
      }
    }
  }

  lemma EntryKept(cfg: Cfg, s: State, x: Step, k: string)
    requires WellFormed(cfg) && Inv(cfg, s) && Can(cfg, s, x) && k in Do(cfg, s, x).entries
    requires !(x.Store? && k == Key(s.inFlight[x.reader].item))
    ensures k in s.entries && Do(cfg, s, x).entries[k] == s.entries[k]
    ensures Sound(cfg, Do(cfg, s, x), s.origin[k])
  {
    if x.Dispatch? {
      assert k in s.entries by { RunAllDeletes(s.entries, cfg.targets, ReceiversOf(cfg.handlers, x.note.body.eventType), IdOf(x.note), k); }
      var item := s.origin[k].item;
      var rs := ReceiversOf(cfg.handlers, x.note.body.eventType);
      assert Announces(cfg, x.note, item) ==> IsWired(cfg.handlers, cfg.targets, TargetOf(item), x.note.body.eventType);
      RunAllDeletes(s.entries, cfg.targets, rs, IdOf(x.note), k);
      assert IdOf(x.note).Some? ==> forall r | r in rs :: !Deletes(cfg.targets, r, IdOf(x.note).value, k);
      assert !Announces(cfg, x.note, item);
    }
    SoundKept(cfg, s, x, s.origin[k]);
  }

  lemma {:induction false} RunKeepsInv(cfg: Cfg, s: State, xs: seq<Step>)
    requires WellFormed(cfg) && Start(s) && Run(cfg, s, xs)
    ensures Inv(cfg, Final(cfg, s, xs))
  {
    if xs != [] {
      RunKeepsInv(cfg, s, xs[..|xs| - 1]);
      StepKeepsInv(cfg, Final(cfg, s, xs[..|xs| - 1]), xs[|xs| - 1]);
    }
  }

  /** Cache coherence. In every run, what a reader finds in the cache for a watched
      item is the source's present value, or an announcement of a change of that item is
      still on its way with its receivers not yet run, or the entry was written by a
      reader that an invalidation of that very item overtook between fetch and store.
      It does not matter whether other receivers of the event raise, nor whether the
      event ends in the dead letters. */
  lemma Coherent(cfg: Cfg, s: State, xs: seq<Step>, item: Item, data: Data)
    requires WellFormed(cfg) && Start(s) && Run(cfg, s, xs) && Plain(item) && Watched(cfg, item)
    requires var t := Final(cfg, s, xs); Alive(t.entries, Key(item), t.now) == Some(data)
    ensures var t := Final(cfg, s, xs);
            && Key(item) in t.origin && t.origin[Key(item)].item == item
            && ((item in t.source && t.source[item] == data)
                || Pending(cfg, t, item)
                || !t.origin[Key(item)].clean)
  {
    RunKeepsInv(cfg, s, xs);
    var c := Final(cfg, s, xs).origin[Key(item)];
    RemoteKeyInjective(c.item.service, c.item.resource, c.item.pk, item.service, item.resource, item.pk);
  }

  /** No dispatch overtakes a reader between fetch and store. */
  ghost predicate Undisturbed(cfg: Cfg, s: State, xs: seq<Step>)
    requires Run(cfg, s, xs)
  {
    forall i: nat :: i < |xs| && xs[i].Dispatch? ==> Quiet(cfg, s, xs, i)
  }

  ghost predicate Quiet(cfg: Cfg, s: State, xs: seq<Step>, i: nat)
    requires i < |xs|
  {
    Run(cfg, s, xs[..i]) && Final(cfg, s, xs[..i]).inFlight == map[]
  }

  ghost predicate AllClean(s: State) {
    && (forall r | r in s.inFlight :: s.inFlight[r].clean)
    && (forall k | k in s.origin :: k in s.entries ==> s.origin[k].clean)
  }

  lemma {:induction false} UndisturbedIsClean(cfg: Cfg, s: State, xs: seq<Step>)
    requires WellFormed(cfg) && Start(s) && Run(cfg, s, xs) && Undisturbed(cfg, s, xs)
    ensures AllClean(Final(cfg, s, xs))
  {
    if xs != [] {
      var n := |xs| - 1;
      var b := Final(cfg, s, xs[..n]);
      forall i: nat | i < n && xs[..n][i].Dispatch? ensures Quiet(cfg, s, xs[..n], i) {
        assert xs[..n][..i] == xs[..i] && Quiet(cfg, s, xs, i);
      }
      UndisturbedIsClean(cfg, s, xs[..n]);
      RunKeepsInv(cfg, s, xs[..n]);
      var x, t := xs[n], Final(cfg, s, xs);
      if x.Dispatch? { assert Quiet(cfg, s, xs, n); }
      forall k | k in t.origin && k in t.entries ensures t.origin[k].clean {
        if !(x.Store? && k == Key(b.inFlight[x.reader].item)) { EntryKept(cfg, b, x, k); }
      }
    }
  }

  /** Once every announced change has been published and dispatched once, successfully
      or not, whatever undisturbed readers left in the cache equals the source. */
  lemma CoherentWhenDrained(cfg: Cfg, s: State, xs: seq<Step>, item: Item, data: Data)
    requires WellFormed(cfg) && Start(s) && Run(cfg, s, xs) && Undisturbed(cfg, s, xs)
    requires Plain(item) && Watched(cfg, item)
    requires var t := Final(cfg, s, xs);
             t.owed == {} && t.bus.outstanding <= Ran(t.bus) && Alive(t.entries, Key(item), t.now) == Some(data)
    ensures var t := Final(cfg, s, xs); item in t.source && t.source[item] == data
  {
    UndisturbedIsClean(cfg, s, xs);
    Coherent(cfg, s, xs, item, data);
  }

  /** The bus part of a run is a run of the abstract bus. */
  lemma {:induction false} BusRefines(cfg: Cfg, s: State, xs: seq<Step>) returns (moves: seq<Alo.Move<Note>>)
    requires Run(cfg, s, xs)
    ensures |moves| == |xs| && forall i | 0 <= i < |xs| :: moves[i] == BusMove(cfg, xs[i])
    ensures Alo.Legal(s.bus, moves) && Alo.After(s.bus, moves) == Final(cfg, s, xs).bus
  {
    moves := [];
    if xs != [] {
      var n := |xs| - 1;
      var before := BusRefines(cfg, s, xs[..n]);
      moves := before + [BusMove(cfg, xs[n])];
      assert moves[..n] == before;
    }
  }

  /** A receiver of the type that is no invalidator, so that may raise. */
  ghost predicate MayRaise(cfg: Cfg, eventType: string) {
    exists r :: r in ReceiversOf(cfg.handlers, eventType) && r !in cfg.targets
  }

  /** And the other way round: whatever a bus can do next, it can do in this machine, at
      any moment and whatever readers and updates are under way. Only a failing dispatch
      takes a receiver that may raise, for deleting from the cache does not. */
  lemma BusIsFree(cfg: Cfg, s: State, m: Alo.Move<Note>) returns (x: Step)
    requires Alo.Can(s.bus, m) && (m.Fail? ==> MayRaise(cfg, m.e.body.eventType))
    ensures Can(cfg, s, x) && BusMove(cfg, x) == m && Do(cfg, s, x).bus == Alo.Do(s.bus, m)
    ensures Do(cfg, s, x).source == s.source && Do(cfg, s, x).now == s.now
  {
    match m
    case Stutter => x := Tick(0);
    case Publish(e) => x := Publish(e);
    case Duplicate(e) => x := Duplicate(e);
    case Succeed(e) => x := Dispatch(e, {});
    case Fail(e) =>
      var r :| r in ReceiversOf(cfg.handlers, e.body.eventType) && r !in cfg.targets;
      x := Dispatch(e, {r});
    case Bury(e) => x := Bury(e);
    case Retire(e) => x := Retire(e);
  }

  lemma RunExtends(cfg: Cfg, s: State, xs: seq<Step>, x: Step)
    requires Run(cfg, s, xs) && Can(cfg, Final(cfg, s, xs), x)
    ensures Run(cfg, s, xs + [x]) && Final(cfg, s, xs + [x]) == Do(cfg, Final(cfg, s, xs), x)
  {
    assert (xs + [x])[..|xs|] == xs;
  }

  function Announcement(eventType: string, pk: string): Note { Note(0, Envelope("", eventType, map["id" := pk])) }

  /** A reader holds old', the source moved on to new', and note announces it. */
  ghost predicate Overtaking(cfg: Cfg, t: State, item: Item, old': Data, ttl: Option<int>, new': Data, note: Note) {
    && t.inFlight.Keys == {0} && t.inFlight[0].(clean := true) == Copy(item, old', ttl, t.now, true)
    && item in t.source && t.source[item] == new'
    && t.entries == map[] && t.owed == {} && t.bus.published == {note}
  }

  lemma {:induction false} OvertakeUpToPublish(
      cfg: Cfg, s: State, field: Field, pk: string, t: string, old': Data, new': Data)
    returns (xs: seq<Step>)
    requires WellFormed(cfg) && Start(s) && s.bus.published == {} && field in cfg.fields && (field.target, t) in cfg.wired
    requires var item := Item(field.target.service, field.target.resource, pk);
             item in s.source && s.source[item] == old'
    ensures Run(cfg, s, xs)
    ensures var e, item, note := Final(cfg, s, xs), Item(field.target.service, field.target.resource, pk), Announcement(t, pk);
            Overtaking(cfg, e, item, old', Effective(cfg, field), new', note)
            && e.bus == Alo.Bus({note}, {note}, {}, {}, {})
  {
    var item, note := Item(field.target.service, field.target.resource, pk), Announcement(t, pk);
    assert TargetOf(item) == field.target;
    var x := Fetch(0, field, pk);
    RunExtends(cfg, s, [], x);
    var y := Update(item, Some(new'), note);
    RunExtends(cfg, s, [] + [x], y);
    RunExtends(cfg, s, [] + [x] + [y], Publish(note));
    xs := [] + [x] + [y] + [Publish(note)];
  }

  lemma NothingToDelete(targets: map<Receiver, Target>, rs: seq<Receiver>, id: Option<string>)
    ensures RunAll(map[], targets, rs, id) == map[]
  {
    forall k ensures k !in RunAll(map[], targets, rs, id) { RunAllDeletes(map[], targets, rs, id, k); }
  }

  lemma OvertakeFromDispatch(
      cfg: Cfg, s: State, xs: seq<Step>, item: Item, old': Data, ttl: Option<int>, new': Data, note: Note)
    returns (ys: seq<Step>)
    requires Run(cfg, s, xs) && Overtaking(cfg, Final(cfg, s, xs), item, old', ttl, new', note)
    requires Final(cfg, s, xs).bus == Alo.Bus({note}, {note}, {}, {}, {})
    ensures Run(cfg, s, ys) && Overtaking(cfg, Final(cfg, s, ys), item, old', ttl, new', note)
    ensures Final(cfg, s, ys).bus.outstanding == {}
  {
    var t := Final(cfg, s, xs);
    OvertakenByDispatch(cfg, t, item, old', ttl, new', note);
    RunExtends(cfg, s, xs, Dispatch(note, {}));
    ys := xs + [Dispatch(note, {})];
    RunExtends(cfg, s, ys, Retire(note));
    ys := ys + [Retire(note)];
  }

  lemma OvertakenByDispatch(cfg: Cfg, t: State, item: Item, old': Data, ttl: Option<int>, new': Data, note: Note)
    requires Overtaking(cfg, t, item, old', ttl, new', note) && t.bus == Alo.Bus({note}, {note}, {}, {}, {})
    ensures Can(cfg, t, Dispatch(note, {}))
    ensures var u := Do(cfg, t, Dispatch(note, {}));
            && Can(cfg, u, Retire(note)) && Overtaking(cfg, Do(cfg, u, Retire(note)), item, old', ttl, new', note)
            && Do(cfg, u, Retire(note)).bus.outstanding == {}
  {
    NothingToDelete(cfg.targets, ReceiversOf(cfg.handlers, note.body.eventType), IdOf(note));
    var u := Do(cfg, t, Dispatch(note, {}));
    assert u.bus == Alo.Bus({note}, {note}, {note}, {}, {});
    assert u.inFlight.Keys == {0};
  }

  /** The clean condition is needed: a reader that fetched before an update and stores
      after its announcement was dispatched leaves an old value, with nothing
      outstanding that would remove it. Only the TTL ends this. */
  lemma OvertakenReaderLeavesOldValue(cfg: Cfg, s: State, field: Field, pk: string, t: string, old': Data, new': Data)
    returns (xs: seq<Step>)
    requires WellFormed(cfg) && Start(s) && s.bus.published == {} && old' != new'
    requires field in cfg.fields && (field.target, t) in cfg.wired
    requires Effective(cfg, field).None? || Effective(cfg, field).value > 0
    requires var item := Item(field.target.service, field.target.resource, pk);
             item in s.source && s.source[item] == old'
    ensures Run(cfg, s, xs)
    ensures var e, item := Final(cfg, s, xs), Item(field.target.service, field.target.resource, pk);
            && e.owed == {} && e.bus.outstanding == {} && e.inFlight == map[]
            && Alive(e.entries, Key(item), e.now) == Some(old')
            && item in e.source && e.source[item] == new'
  {
    var item, note := Item(field.target.service, field.target.resource, pk), Announcement(t, pk);
    var before := OvertakeUpToPublish(cfg, s, field, pk, t, old', new');
    var ys := OvertakeFromDispatch(cfg, s, before, item, old', Effective(cfg, field), new', note);
    RunExtends(cfg, s, ys, Store(0));
    xs := ys + [Store(0)];
  }
}
