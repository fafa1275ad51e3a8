/** How old a value can be when invalidation is not relied upon at all. */
module Staleness {
  import opened Wrappers
  import opened Names
  import opened RemoteCache
  import opened Coherence

  /** Every field of the target keeps what it caches for at most ttl. */
  ghost predicate TtlAtMost(cfg: Cfg, target: Target, ttl: int) {
    forall f | f in cfg.fields && f.target == target :: Effective(cfg, f).Some? && Effective(cfg, f).value <= ttl
  }

  /** At instant at, somewhere in the run, the source held data for the item. */
  ghost predicate Held(cfg: Cfg, s: State, xs: seq<Step>, item: Item, data: Data, at: int)
    requires Run(cfg, s, xs)
  {
    exists k: nat :: k <= |xs| && HeldAfter(cfg, s, xs[..k], item, data, at)
  }

  ghost predicate HeldAfter(cfg: Cfg, s: State, xs: seq<Step>, item: Item, data: Data, at: int) {
    && Run(cfg, s, xs)
    && var t := Final(cfg, s, xs);
       t.now == at && item in t.source && t.source[item] == data
  }

  /** Where a copy comes from, and how long an entry made from it can be read. */
  ghost predicate Dated(cfg: Cfg, s: State, xs: seq<Step>, c: Copy)
    requires Run(cfg, s, xs)
  {
    && Plain(c.item)
    && Held(cfg, s, xs, c.item, c.data, c.at)
    && forall ttl | TtlAtMost(cfg, TargetOf(c.item), ttl) :: c.ttl.Some? && c.ttl.value <= ttl
  }

  ghost predicate Expires(cfg: Cfg, k: string, e: Entry, c: Copy) {
    && Traced(k, e, c)
    && (c.ttl.Some? ==> e.expires.Some? && e.expires.value <= c.at + cfg.latency + c.ttl.value)
  }

  ghost predicate Inv(cfg: Cfg, s: State, xs: seq<Step>)
    requires Run(cfg, s, xs)
  {
    var t := Final(cfg, s, xs);
    && (forall r | r in t.inFlight :: Dated(cfg, s, xs, t.inFlight[r]))
    && (forall k | k in t.entries ::
          k in t.origin && Expires(cfg, k, t.entries[k], t.origin[k]) && Dated(cfg, s, xs, t.origin[k]))
  }

  lemma HeldLater(cfg: Cfg, s: State, xs: seq<Step>, x: Step, item: Item, data: Data, at: int)
    requires Run(cfg, s, xs) && Run(cfg, s, xs + [x]) && Held(cfg, s, xs, item, data, at)
    ensures Held(cfg, s, xs + [x], item, data, at)
  {
    var k: nat :| k <= |xs| && HeldAfter(cfg, s, xs[..k], item, data, at);
    assert (xs + [x])[..k] == xs[..k];
  }

  lemma FlightDated(cfg: Cfg, s: State, xs: seq<Step>, x: Step, r: nat)
    requires WellFormed(cfg) && Run(cfg, s, xs) && Inv(cfg, s, xs) && Can(cfg, Final(cfg, s, xs), x)
    requires Run(cfg, s, xs + [x]) && Final(cfg, s, xs + [x]) == Do(cfg, Final(cfg, s, xs), x)
    requires r in Final(cfg, s, xs + [x]).inFlight
    ensures Dated(cfg, s, xs + [x], Final(cfg, s, xs + [x]).inFlight[r])
  {
    var b, c := Final(cfg, s, xs), Final(cfg, s, xs + [x]).inFlight[r];
    if x.Fetch? && r == x.reader {
      assert xs + [x] == (xs + [x])[..|xs| + 1];
      assert HeldAfter(cfg, s, (xs + [x])[..|xs| + 1], c.item, c.data, c.at);
    } else {
      assert Dated(cfg, s, xs, b.inFlight[r]);
      HeldLater(cfg, s, xs, x, c.item, c.data, c.at);
    }
  }

  lemma EntryDated(cfg: Cfg, s: State, xs: seq<Step>, x: Step, k: string)
    requires WellFormed(cfg) && Run(cfg, s, xs) && Inv(cfg, s, xs) && Can(cfg, Final(cfg, s, xs), x)
    requires Run(cfg, s, xs + [x]) && Final(cfg, s, xs + [x]) == Do(cfg, Final(cfg, s, xs), x)
    requires k in Final(cfg, s, xs + [x]).entries
    ensures var t := Final(cfg, s, xs + [x]);
            k in t.origin && Expires(cfg, k, t.entries[k], t.origin[k]) && Dated(cfg, s, xs + [x], t.origin[k])
  {
    var b, t := Final(cfg, s, xs), Final(cfg, s, xs + [x]);
    if x.Dispatch? {
      RunAllDeletes(b.entries, cfg.targets, Registry.ReceiversOf(cfg.handlers, x.note.body.eventType), IdOf(x.note), k);
    }
    if x.Store? && k == Key(b.inFlight[x.reader].item) {
      var c := b.inFlight[x.reader];
      assert Dated(cfg, s, xs, c) && t.origin[k] == c;
      HeldLater(cfg, s, xs, x, c.item, c.data, c.at);
    } else {
      assert k in b.entries && t.entries[k] == b.entries[k] && t.origin[k] == b.origin[k];
      assert Dated(cfg, s, xs, b.origin[k]);
      HeldLater(cfg, s, xs, x, b.origin[k].item, b.origin[k].data, b.origin[k].at);
    }
  }

  lemma StepKeepsInv(cfg: Cfg, s: State, xs: seq<Step>, x: Step)
    requires WellFormed(cfg) && Run(cfg, s, xs) && Inv(cfg, s, xs) && Can(cfg, Final(cfg, s, xs), x)
    requires Run(cfg, s, xs + [x]) && Final(cfg, s, xs + [x]) == Do(cfg, Final(cfg, s, xs), x)
    ensures Inv(cfg, s, xs + [x])
  {
    var t := Final(cfg, s, xs + [x]);
    forall r | r in t.inFlight ensures Dated(cfg, s, xs + [x], t.inFlight[r]) {
      FlightDated(cfg, s, xs, x, r);
    }
    forall k | k in t.entries
      ensures k in t.origin && Expires(cfg, k, t.entries[k], t.origin[k]) && Dated(cfg, s, xs + [x], t.origin[k])
    {
      EntryDated(cfg, s, xs, x, k);
    }
  }

  lemma {:induction false} RunKeepsInv(cfg: Cfg, s: State, xs: seq<Step>)
    requires WellFormed(cfg) && Start(s) && Run(cfg, s, xs)
    ensures Inv(cfg, s, xs)
  {
    if xs != [] {
      var n := |xs| - 1;
      RunKeepsInv(cfg, s, xs[..n]);
      assert xs == xs[..n] + [xs[n]];
      StepKeepsInv(cfg, s, xs[..n], xs[n]);
    }
  }

  /** What a reader may return now: a cached value, or the one it has just stored. */
  ghost predicate MayReturn(cfg: Cfg, t: State, item: Item, data: Data) {
    || Alive(t.entries, Key(item), t.now) == Some(data)
    || exists r :: r in t.inFlight && t.inFlight[r].item == item && t.inFlight[r].data == data
                   && t.now <= t.inFlight[r].at + cfg.latency
  }

  /** Bounded staleness. Whatever the interleaving, and even if no announcement is ever
      published, delivered or dispatched, a value returned now was the source's value at
      an instant later than now - ttl - latency, for any ttl that bounds the effective
      TTLs of all fields sharing the entry. */
  lemma StalenessBounded(cfg: Cfg, s: State, xs: seq<Step>, item: Item, data: Data, ttl: nat)
    requires WellFormed(cfg) && Start(s) && Run(cfg, s, xs) && Plain(item)
    requires 0 < ttl && TtlAtMost(cfg, TargetOf(item), ttl)
    requires MayReturn(cfg, Final(cfg, s, xs), item, data)
    ensures exists at: int :: Final(cfg, s, xs).now - ttl - cfg.latency < at && Held(cfg, s, xs, item, data, at)
  {
    RunKeepsInv(cfg, s, xs);
    var t := Final(cfg, s, xs);
    if Alive(t.entries, Key(item), t.now) == Some(data) {
      var c := t.origin[Key(item)];
      RemoteKeyInjective(c.item.service, c.item.resource, c.item.pk, item.service, item.resource, item.pk);
      assert Held(cfg, s, xs, item, data, c.at);
    } else {
      var r :| r in t.inFlight && t.inFlight[r].item == item && t.inFlight[r].data == data
               && t.now <= t.inFlight[r].at + cfg.latency;
      assert Held(cfg, s, xs, item, data, t.inFlight[r].at);
    }
  }
}
