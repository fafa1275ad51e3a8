/** Reading remote data through the cache, and the invalidation of cached entries by
    events of the bus. */
module RemoteCache {
  import opened Wrappers
  import opened Names
  import opened Registry

  type Data = string

  /** What the transport answers: the data, "not found", or an exception. */
  datatype Fetch = Found(data: Data) | Missing | Unavailable

  /** expires is None for an entry that never expires. */
  datatype Entry = Entry(data: Data, expires: Option<int>)

  /** The shared Django cache with its clock. */
  class Cache {
    var entries: map<string, Entry>
    var now: int

    constructor ()
      ensures entries == map[] && now == 0
    {
      entries, now := map[], 0;
    }

    method Get(key: string) returns (r: Option<Data>)
      ensures r == Alive(entries, key, now)
    {
      r := Alive(entries, key, now);
    }

    /** A timeout of zero or less stores nothing that could be read back. */
    method Set(key: string, data: Data, timeout: Option<int>)
      modifies this`entries
      ensures entries == Stored(old(entries), key, data, timeout, now)
      ensures forall k | k != key :: (k in entries <==> k in old(entries)) && (k in entries ==> entries[k] == old(entries)[k])
    {
      entries := Stored(entries, key, data, timeout, now);
    }

    method Delete(key: string)
      modifies this`entries
      ensures entries == old(entries) - {key}
    {
      entries := entries - {key};
    }

    /** Look in the cache, else ask the transport and remember what it found. A missing
        resource is not remembered, and an exception of the transport is passed on. */
    method Resolve(
        service: string, resource: string, pk: string, ttl: Option<int>, defaultTtl: Option<int>, answer: Fetch)
      returns (r: Result<Option<Data>, ()>)
      modifies this`entries
      ensures var key := RemoteKey(service, resource, pk);
              match Alive(old(entries), key, now)
              case Some(data) => r == Ok(Some(data)) && entries == old(entries)
              case None =>
                match answer
                case Unavailable => r == Raised(()) && entries == old(entries)
                case Missing => r == Ok(None) && entries == old(entries)
                case Found(data) =>
                  var effective := if ttl.Some? then ttl else defaultTtl;
                  && r == Ok(Some(data))
                  && (forall u | now <= u ::
                        Alive(entries, key, u) ==
                        if effective.None? || u < now + effective.value then Some(data) else None)
                  && entries.Keys == old(entries).Keys + {key}
                  && (forall k | k in old(entries) && k != key :: entries[k] == old(entries)[k])
                  && entries == Stored(old(entries), key, data, effective, now)
    {
      var key := RemoteKey(service, resource, pk);
      var cached := Get(key);
      if cached.Some? { return Ok(cached); }
      match answer {
        case Unavailable => return Raised(());
        case Missing => return Ok(None);
        case Found(data) =>
          var effective := if ttl.Some? then ttl else defaultTtl;
          Set(key, data, effective);
          return Ok(Some(data));
      }
    }

    /** The receiver registered for a resource: an event without an id is ignored. */
    method Invalidate(service: string, resource: string, id: Option<string>)
      modifies this`entries
      ensures entries == if id.None? then old(entries) else old(entries) - {RemoteKey(service, resource, id.value)}
    {
      if id.None? { return; }
      Delete(RemoteKey(service, resource, id.value));
    }
  }

  function Alive(entries: map<string, Entry>, key: string, now: int): Option<Data> {
    if key in entries && (entries[key].expires.None? || now < entries[key].expires.value)
    then Some(entries[key].data) else None
  }

  function Stored(entries: map<string, Entry>, key: string, data: Data, timeout: Option<int>, now: int): map<string, Entry> {
    entries[key := Entry(data, if timeout.None? then None else Some(now + timeout.value))]
  }

  // ----- wiring

  datatype Target = Target(service: string, resource: string)

  /** targets says which receivers are invalidators, and of what. */
  ghost predicate IsWired(handlers: Handlers, targets: map<Receiver, Target>, target: Target, eventType: string) {
    exists r :: r in ReceiversOf(handlers, eventType) && r in targets && targets[r] == target
  }

  ghost predicate OnlyOnce(receivers: seq<Receiver>, targets: map<Receiver, Target>) {
    forall r, q | r in receivers && q in receivers && r in targets && q in targets && targets[r] == targets[q] :: r == q
  }

  ghost predicate IsNew(handlers: Handlers, targets: map<Receiver, Target>, r: Receiver) {
    r !in targets && forall t | t in handlers :: r !in handlers[t]
  }

  /** The set of wired triples is exact, and no triple has two receivers. */
  ghost predicate Consistent(handlers: Handlers, wired: set<(Target, string)>, targets: map<Receiver, Target>) {
    && (forall target, t :: (target, t) in wired <==> IsWired(handlers, targets, target, t))
    && (forall t :: OnlyOnce(ReceiversOf(handlers, t), targets))
  }

  lemma WiringKeepsConsistent(
      handlers: Handlers, wired: set<(Target, string)>, targets: map<Receiver, Target>,
      target: Target, eventType: string, r: Receiver)
    requires Consistent(handlers, wired, targets) && IsNew(handlers, targets, r) && (target, eventType) !in wired
    ensures var hs := handlers[eventType := Registered(ReceiversOf(handlers, eventType), r)];
            Consistent(hs, wired + {(target, eventType)}, targets[r := target])
  {
    var hs := handlers[eventType := Registered(ReceiversOf(handlers, eventType), r)];
    var ts := targets[r := target];
    forall t, u ensures (t, u) in wired + {(target, eventType)} <==> IsWired(hs, ts, t, u) {
      if IsWired(handlers, targets, t, u) {
        var q :| q in ReceiversOf(handlers, u) && q in targets && targets[q] == t;
        assert q in ReceiversOf(hs, u) && q in ts && ts[q] == t;
      }
      if t == target && u == eventType {
        assert r in ReceiversOf(hs, u) && r in ts && ts[r] == t;
      }
      if IsWired(hs, ts, t, u) && (t, u) != (target, eventType) {
        var q :| q in ReceiversOf(hs, u) && q in ts && ts[q] == t;
        assert q != r && q in ReceiversOf(handlers, u);
      }
    }
    forall u ensures OnlyOnce(ReceiversOf(hs, u), ts) {
      assert OnlyOnce(ReceiversOf(handlers, u), targets);
      if u == eventType {
        forall q | q in ReceiversOf(handlers, u) && q in targets ensures targets[q] != target {
          assert !IsWired(handlers, targets, target, u);
        }
      }
    }
  }

  class Invalidation {
    const registry: Registry
    var wired: set<(Target, string)>
    ghost var targets: map<Receiver, Target>

    ghost predicate Valid()
      reads this, registry
    {
      registry.Valid() && Consistent(registry.handlers, wired, targets)
    }

    constructor (registry: Registry)
      requires registry.Valid()
      ensures Valid() && this.registry == registry && wired == {} && targets == map[]
    {
      this.registry, wired, targets := registry, {}, map[];
    }

    method WireOne(target: Target, eventType: string, partial: Receiver)
      requires Valid() && IsNew(registry.handlers, targets, partial)
      modifies this, registry
      ensures Valid() && wired == old(wired) + {(target, eventType)}
      ensures forall r | r != partial && IsNew(old(registry.handlers), old(targets), r) ::
                IsNew(registry.handlers, targets, r)
      ensures forall t :: ReceiversOf(old(registry.handlers), t) <= ReceiversOf(registry.handlers, t)
    {
      if (target, eventType) !in wired {
        WiringKeepsConsistent(registry.handlers, wired, targets, target, eventType, partial);
        wired := wired + {(target, eventType)};
        registry.Register(eventType, partial);
        targets := targets[partial := target];
      }
    }

    /** Afterwards every listed type has exactly one receiver deleting entries of the
        target, however often the same target and type were listed; nothing that was
        registered before is removed or moved. partials are the callables that
        functools.partial makes, each a new object. */
    method RegisterInvalidation(service: string, resource: string, eventTypes: seq<string>, partials: seq<Receiver>)
      requires Valid() && |partials| == |eventTypes| && NoDuplicates(partials)
      requires forall p | p in partials :: IsNew(registry.handlers, targets, p)
      modifies this, registry
      ensures Valid()
      ensures wired == old(wired) + set t | t in eventTypes :: (Target(service, resource), t)
      ensures forall t | t in eventTypes :: IsWired(registry.handlers, targets, Target(service, resource), t)
      ensures forall t :: ReceiversOf(old(registry.handlers), t) <= ReceiversOf(registry.handlers, t)
    {
      var target := Target(service, resource);
      for i := 0 to |eventTypes|
        invariant Valid()
        invariant wired == old(wired) + set t | t in eventTypes[..i] :: (target, t)
        invariant forall k | i <= k < |partials| :: IsNew(registry.handlers, targets, partials[k])
        invariant forall t :: ReceiversOf(old(registry.handlers), t) <= ReceiversOf(registry.handlers, t)
      {
        assert eventTypes[..i + 1] == eventTypes[..i] + [eventTypes[i]];
        WireOne(target, eventTypes[i], partials[i]);
      }
      assert eventTypes[..|eventTypes|] == eventTypes;
      forall t | t in eventTypes ensures IsWired(registry.handlers, targets, target, t) {
        assert (target, t) in wired;
      }
    }
  }
}
