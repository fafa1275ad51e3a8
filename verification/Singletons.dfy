/** Double-checked locking as three places of the code use it: one object per key (the
    broker, for which one key exists; a transport per name; a gRPC channel per service),
    looked up without the lock, created under the lock, closed and forgotten under the
    lock. Threads interleave between any two reads or writes of shared data. */
module Singletons {
  import opened Wrappers

  type Key = string
  type Obj = nat
  type Thread = nat

  /** local: the getter returns the object it saw or made (channels). Otherwise it reads
      the shared table once more to return (broker, transports), and what it finds there
      is what the caller gets: None, or a KeyError, if it is gone. */
  datatype Cfg = Cfg(local: bool)

  datatype Pc =
    | Idle
    | Want(key: Key)                   // saw nothing, about to take the lock
    | Inside(key: Key)
    | Making(key: Key)                 // saw nothing under the lock either
    | Assigning(key: Key, obj: Obj)
    | Leaving(key: Key, obj: Obj)
    | Reading(key: Key)                // about to read the table for the return
    | Returned(key: Key, got: Option<Obj>)
    | WantClose
    | Closing(todo: set<Key>)
    | Cleared

  datatype State = State(
    table: map<Key, Obj>,
    lock: Option<Thread>,
    home: map<Obj, Key>,      // every object ever created, and for which key
    closed: set<Obj>,
    pcs: map<Thread, Pc>)

  datatype Step =
    | Call(t: Thread, key: Key)
    | Acquire(t: Thread)
    | Check(t: Thread)
    | Make(t: Thread, obj: Obj)
    | MakeRaises(t: Thread)
    | Assign(t: Thread)
    | Release(t: Thread)
    | Read(t: Thread)
    | CallClose(t: Thread)
    | CloseOne(t: Thread, key: Key)
    | CloseRaises(t: Thread)
    | Clear(t: Thread)

  function At(s: State, t: Thread): Pc { if t in s.pcs then s.pcs[t] else Idle }

  function Find(table: map<Key, Obj>, key: Key): Option<Obj> {
    if key in table then Some(table[key]) else None
  }

  ghost predicate Can(s: State, x: Step) {
    var pc := At(s, x.t);
    match x
    case Call(_, _) => pc.Idle? || pc.Returned?
    case Acquire(_) => (pc.Want? || pc.WantClose?) && s.lock.None?
    case Check(_) => pc.Inside?
    case Make(_, obj) => pc.Making? && obj !in s.home
    case MakeRaises(_) => pc.Making?
    case Assign(_) => pc.Assigning?
    case Release(_) => pc.Leaving? || pc.Cleared?
    case Read(_) => pc.Reading?
    case CallClose(_) => pc.Idle? || pc.Returned?
    case CloseOne(_, key) => pc.Closing? && key in pc.todo && key in s.table
    case CloseRaises(_) => pc.Closing? && pc.todo != {}
    case Clear(_) => pc.Closing? && pc.todo == {}
  }

  ghost function Moved(s: State, t: Thread, pc: Pc): State { s.(pcs := s.pcs[t := pc]) }

  ghost function Do(cfg: Cfg, s: State, x: Step): State
    requires Can(s, x)
  {
    var pc := At(s, x.t);
    match x
    case Call(t, key) =>
      (if key !in s.table then Moved(s, t, Want(key))
       else if cfg.local then Moved(s, t, Returned(key, Some(s.table[key])))
       else Moved(s, t, Reading(key)))
    case Acquire(t) => Moved(s, t, if pc.Want? then Inside(pc.key) else Closing(s.table.Keys)).(lock := Some(t))
    case Check(t) => Moved(s, t, if pc.key in s.table then Leaving(pc.key, s.table[pc.key]) else Making(pc.key))
    case Make(t, obj) => Moved(s, t, Assigning(pc.key, obj)).(home := s.home[obj := pc.key])
    case MakeRaises(t) => Moved(s, t, Idle).(lock := None)
    case Assign(t) => Moved(s, t, Leaving(pc.key, pc.obj)).(table := s.table[pc.key := pc.obj])
    case Release(t) =>
      (var next := if pc.Cleared? then Idle
                   else if cfg.local then Returned(pc.key, Some(pc.obj)) else Reading(pc.key);
       Moved(s, t, next).(lock := None))
    case Read(t) => Moved(s, t, Returned(pc.key, Find(s.table, pc.key)))
    case CallClose(t) => Moved(s, t, WantClose)
    case CloseOne(t, key) => Moved(s, t, Closing(pc.todo - {key})).(closed := s.closed + {s.table[key]})
    case CloseRaises(t) => Moved(s, t, Idle).(lock := None)
    case Clear(t) => Moved(s, t, Cleared).(table := map[])
  }

  ghost predicate Start(s: State) {
    s == State(map[], None, map[], {}, map[])
  }

  ghost predicate Run(cfg: Cfg, s: State, xs: seq<Step>)
    decreases |xs|, 0
  {
    xs == [] || (Run(cfg, s, xs[..|xs| - 1]) && Can(Final(cfg, s, xs[..|xs| - 1]), xs[|xs| - 1]))
  }

  ghost function Final(cfg: Cfg, s: State, xs: seq<Step>): State
    requires Run(cfg, s, xs)
    decreases |xs|, 1
  {
    if xs == [] then s else Do(cfg, Final(cfg, s, xs[..|xs| - 1]), xs[|xs| - 1])
  }

  lemma RunExtends(cfg: Cfg, s: State, xs: seq<Step>, x: Step)
    requires Run(cfg, s, xs) && Can(Final(cfg, s, xs), x)
    ensures Run(cfg, s, xs + [x]) && Final(cfg, s, xs + [x]) == Do(cfg, Final(cfg, s, xs), x)
  {
    assert (xs + [x])[..|xs|] == xs;
  }

  // ----- what every step keeps

  ghost predicate Locked(pc: Pc) {
    pc.Inside? || pc.Making? || pc.Assigning? || pc.Leaving? || pc.Closing? || pc.Cleared?
  }

  /** What a thread inside the lock can rely on. */
  ghost predicate Holds(s: State, pc: Pc) {
    match pc
    case Making(key) => key !in s.table
    case Assigning(key, obj) =>
      key !in s.table && obj in s.home && s.home[obj] == key && obj !in s.closed && obj !in s.table.Values
    case Leaving(key, obj) => key in s.table && s.table[key] == obj
    case Closing(todo) =>
      todo <= s.table.Keys && forall k | k in s.table && k !in todo :: s.table[k] in s.closed
    case _ => true
  }

  /** Where an object can be: in the table under its own key, closed, or in the hands
      of the thread that holds the lock. */
  ghost predicate Accounted(s: State, o: Obj)
    requires o in s.home
  {
    || (s.home[o] in s.table && s.table[s.home[o]] == o)
    || o in s.closed
    || (s.lock.Some? && At(s, s.lock.value) == Assigning(s.home[o], o))
  }

  ghost predicate Inv(s: State) {
    && (forall t: Thread :: Locked(At(s, t)) <==> s.lock == Some(t))
    && (s.lock.Some? ==> Holds(s, At(s, s.lock.value)))
    && (forall k | k in s.table :: s.table[k] in s.home && s.home[s.table[k]] == k)
    && (forall o | o in s.home :: Accounted(s, o))
    && (forall o | o in s.closed :: o in s.home)
  }

  lemma StepKeepsInv(cfg: Cfg, s: State, x: Step)
    requires Inv(s) && Can(s, x)
    ensures Inv(Do(cfg, s, x))
  {
    var e := Do(cfg, s, x);
    assert Locked(At(s, x.t)) <==> s.lock == Some(x.t);
    forall t: Thread ensures Locked(At(e, t)) <==> e.lock == Some(t) { LockKept(cfg, s, x, t); }
    HoldsKept(cfg, s, x);
    forall o | o in e.home ensures Accounted(e, o) {
      if o in s.home { assert Accounted(s, o); }
    }
  }

  lemma LockKept(cfg: Cfg, s: State, x: Step, t: Thread)
    requires Can(s, x)
    requires Locked(At(s, t)) <==> s.lock == Some(t)
    requires Locked(At(s, x.t)) <==> s.lock == Some(x.t)
    ensures Locked(At(Do(cfg, s, x), t)) <==> Do(cfg, s, x).lock == Some(t)
  {
    assert t != x.t ==> At(Do(cfg, s, x), t) == At(s, t);
  }

  lemma HoldsKept(cfg: Cfg, s: State, x: Step)
    requires Inv(s) && Can(s, x)
    ensures var e := Do(cfg, s, x); e.lock.Some? ==> Holds(e, At(e, e.lock.value))
  {
    var e := Do(cfg, s, x);
    assert Locked(At(s, x.t)) <==> s.lock == Some(x.t);
    if e.lock.Some? && e.lock.value != x.t {
      assert At(e, e.lock.value) == At(s, e.lock.value);
    }
  }

  lemma {:induction false} RunKeepsInv(cfg: Cfg, s: State, xs: seq<Step>)
    requires Start(s) && Run(cfg, s, xs)
    ensures Inv(Final(cfg, s, xs))
  {
    if xs != [] {
      RunKeepsInv(cfg, s, xs[..|xs| - 1]);
      StepKeepsInv(cfg, Final(cfg, s, xs[..|xs| - 1]), xs[|xs| - 1]);
    }
  }

  // ----- at most one live object per key

  ghost predicate IsLive(s: State, o: Obj) { o in s.home && o !in s.closed }

  /** At every moment of every run, whatever was created and is not closed is the current
      object of its key or is being put there; so no key ever has two live objects, none
      is leaked unclosed, and a channel or broker replaced by another was closed first. */
  lemma OneLivePerKey(cfg: Cfg, s: State, xs: seq<Step>, o: Obj, p: Obj)
    requires Start(s) && Run(cfg, s, xs)
    requires var e := Final(cfg, s, xs); IsLive(e, o) && IsLive(e, p) && e.home[o] == e.home[p]
    ensures o == p
    ensures var e := Final(cfg, s, xs);
            e.lock.None? ==> e.home[o] in e.table && e.table[e.home[o]] == o
  {
    RunKeepsInv(cfg, s, xs);
    var e := Final(cfg, s, xs);
    assert Accounted(e, o) && Accounted(e, p);
  }

  // ----- what callers get

  ghost predicate IsFor(s: State, o: Obj, key: Key) { o in s.home && s.home[o] == key }

  /** A thread of a local getter carries an object of its own key from the moment it
      found or made one. */
  ghost predicate Carries(s: State, t: Thread) {
    match At(s, t)
    case Reading(_) => false
    case Leaving(key, obj) => IsFor(s, obj, key)
    case Returned(key, got) => got.Some? && IsFor(s, got.value, key)
    case _ => true
  }

  lemma StepKeepsCarries(cfg: Cfg, s: State, x: Step, t: Thread)
    requires cfg.local && Inv(s) && Can(s, x) && Carries(s, t)
    ensures Carries(Do(cfg, s, x), t)
  {
    var e := Do(cfg, s, x);
    assert forall o | o in s.home :: o in e.home && e.home[o] == s.home[o];
    if t == x.t {
      assert Locked(At(s, t)) <==> s.lock == Some(t);
    } else {
      assert At(e, t) == At(s, t);
    }
  }

  /** A channel getter never returns None, whoever closes meanwhile: what it returns is
      a channel created for that service. */
  lemma {:induction false} ChannelNeverNull(cfg: Cfg, s: State, xs: seq<Step>, t: Thread)
    requires cfg.local && Start(s) && Run(cfg, s, xs)
    ensures Carries(Final(cfg, s, xs), t)
  {
    if xs != [] {
      RunKeepsInv(cfg, s, xs[..|xs| - 1]);
      ChannelNeverNull(cfg, s, xs[..|xs| - 1], t);
      StepKeepsCarries(cfg, Final(cfg, s, xs[..|xs| - 1]), xs[|xs| - 1], t);
    }
  }

  /** Nothing was forgotten from step from on: no reset took place. */
  ghost predicate NoClear(xs: seq<Step>, from: nat) { forall i | from <= i < |xs| :: !xs[i].Clear? }

  ghost predicate CalledSince(xs: seq<Step>, from: nat, t: Thread) {
    exists i :: from <= i < |xs| && xs[i].Call? && xs[i].t == t
  }

  /** A thread that returns, or is about to, does so with the present object. */
  ghost predicate Agrees(s: State, t: Thread) {
    match At(s, t)
    case Reading(key) => key in s.table
    case Returned(key, got) => got.Some? && got == Find(s.table, key)
    case _ => true
  }

  /** Only forgetting the table can make a thread disagree with it. */
  lemma StepKeepsAgreement(cfg: Cfg, s: State, x: Step, t: Thread)
    requires Inv(s) && Can(s, x) && Agrees(s, t) && !x.Clear?
    ensures Agrees(Do(cfg, s, x), t)
  {
    var e := Do(cfg, s, x);
    assert Locked(At(s, x.t)) <==> s.lock == Some(x.t);
    assert forall k | k in s.table :: k in e.table && e.table[k] == s.table[k];
    if t != x.t { assert At(e, t) == At(s, t); }
  }

  lemma CallAgrees(cfg: Cfg, s: State, x: Step)
    requires Inv(s) && Can(s, x) && x.Call?
    ensures Agrees(Do(cfg, s, x), x.t)
  {
  }

  /** Every thread whose last call was made after the last reset gets the one present
      object of its key. */
  lemma {:induction false} OneInstance(cfg: Cfg, s: State, xs: seq<Step>, from: nat, t: Thread)
    requires Start(s) && Run(cfg, s, xs) && NoClear(xs, from) && CalledSince(xs, from, t)
    ensures Agrees(Final(cfg, s, xs), t)
  {
    var n := |xs| - 1;
    RunKeepsInv(cfg, s, xs[..n]);
    if xs[n].Call? && xs[n].t == t {
      CallAgrees(cfg, Final(cfg, s, xs[..n]), xs[n]);
    } else {
      var i :| from <= i < |xs| && xs[i].Call? && xs[i].t == t;
      assert xs[..n][i] == xs[i];
      OneInstance(cfg, s, xs[..n], from, t);
      assert !xs[n].Clear?;
      StepKeepsAgreement(cfg, Final(cfg, s, xs[..n]), xs[n], t);
    }
  }

  // ----- when a getter that reads twice finds nothing

  lemma {:induction false} RunPrefix(cfg: Cfg, s: State, xs: seq<Step>, k: nat)
    requires Run(cfg, s, xs) && k <= |xs|
    ensures Run(cfg, s, xs[..k])
  {
    if k < |xs| {
      var n := |xs| - 1;
      RunPrefix(cfg, s, xs[..n], k);
      assert xs[..n][..k] == xs[..k];
    } else {
      assert xs[..k] == xs;
    }
  }

  /** Step k puts an object for the key into the table. */
  ghost predicate Assigns(cfg: Cfg, s: State, xs: seq<Step>, k: nat, key: Key) {
    && k < |xs| && xs[k].Assign? && Run(cfg, s, xs[..k])
    && var pc := At(Final(cfg, s, xs[..k]), xs[k].t); pc.Assigning? && pc.key == key
  }

  /** From step from on there was a reset, and the key got no object after it. */
  ghost predicate Forgotten(cfg: Cfg, s: State, xs: seq<Step>, from: nat, key: Key) {
    exists i: nat :: from <= i < |xs| && ForgottenAt(cfg, s, xs, i, key)
  }

  ghost predicate ForgottenAt(cfg: Cfg, s: State, xs: seq<Step>, i: nat, key: Key)
    requires i < |xs|
  {
    xs[i].Clear? && forall k: nat | i < k < |xs| :: !Assigns(cfg, s, xs, k, key)
  }

  lemma ForgottenPrefix(cfg: Cfg, s: State, xs: seq<Step>, from: nat, key: Key)
    requires from < |xs| && !xs[|xs| - 1].Clear?
    ensures Forgotten(cfg, s, xs, from, key) <==>
            Forgotten(cfg, s, xs[..|xs| - 1], from, key) && !Assigns(cfg, s, xs, |xs| - 1, key)
  {
    var n, ys := |xs| - 1, xs[..|xs| - 1];
    forall k: nat | k < n ensures Assigns(cfg, s, xs, k, key) <==> Assigns(cfg, s, ys, k, key) {
      assert ys[..k] == xs[..k];
    }
    if Forgotten(cfg, s, xs, from, key) {
      var i: nat :| from <= i < |xs| && ForgottenAt(cfg, s, xs, i, key);
      assert ForgottenAt(cfg, s, ys, i, key);
    }
    if Forgotten(cfg, s, ys, from, key) && !Assigns(cfg, s, xs, n, key) {
      var i: nat :| from <= i < |ys| && ForgottenAt(cfg, s, ys, i, key);
      assert ForgottenAt(cfg, s, xs, i, key);
    }
  }

  lemma {:induction false} KeyGoneIff(cfg: Cfg, s: State, xs: seq<Step>, from: nat, key: Key)
    requires Start(s) && Run(cfg, s, xs) && from <= |xs|
    requires Run(cfg, s, xs[..from]) && key in Final(cfg, s, xs[..from]).table
    ensures key !in Final(cfg, s, xs).table <==> Forgotten(cfg, s, xs, from, key)
  {
    if from == |xs| {
      assert xs[..from] == xs;
    } else {
      var n := |xs| - 1;
      assert xs[..n][..from] == xs[..from];
      KeyGoneIff(cfg, s, xs[..n], from, key);
      TableChange(cfg, Final(cfg, s, xs[..n]), xs[n], key);
      if xs[n].Clear? {
        assert ForgottenAt(cfg, s, xs, n, key);
      } else {
        ForgottenPrefix(cfg, s, xs, from, key);
      }
    }
  }

  lemma TableChange(cfg: Cfg, s: State, x: Step, key: Key)
    requires Can(s, x)
    ensures key in Do(cfg, s, x).table <==>
            !x.Clear? && (key in s.table || (x.Assign? && At(s, x.t).key == key))
  {
  }

  /** The thread looked and found an object; the table still holds it. */
  lemma LookFound(cfg: Cfg, s: State, x: Step)
    requires Inv(s) && Can(s, x) && At(Do(cfg, s, x), x.t).Reading?
    ensures At(Do(cfg, s, x), x.t).key in Do(cfg, s, x).table
  {
    assert Locked(At(s, x.t)) <==> s.lock == Some(x.t);
  }

  lemma {:induction false} StillReading(cfg: Cfg, s: State, xs: seq<Step>, from: nat, t: Thread)
    requires Run(cfg, s, xs) && from <= |xs| && forall k | from <= k < |xs| :: xs[k].t != t
    ensures Run(cfg, s, xs[..from]) && At(Final(cfg, s, xs), t) == At(Final(cfg, s, xs[..from]), t)
  {
    if from == |xs| {
      assert xs[..from] == xs;
    } else {
      var n := |xs| - 1;
      assert forall k | from <= k < n :: xs[..n][k] == xs[k];
      StillReading(cfg, s, xs[..n], from, t);
      assert xs[..n][..from] == xs[..from];
      assert xs[n].t != t;
    }
  }

  /** A getter that looked at step from - 1, and then had to wait for the others before its
      second read, returns nothing exactly when a reset took place in between and nobody
      made a new object for its key after that. Resets before the look do not matter. */
  lemma GetterFindsNothingIff(cfg: Cfg, s: State, xs: seq<Step>, from: nat, t: Thread)
    requires Start(s) && Run(cfg, s, xs) && 0 < from <= |xs|
    requires xs[from - 1].t == t && forall k | from <= k < |xs| :: xs[k].t != t
    requires At(Final(cfg, s, xs), t).Reading?
    ensures var key := At(Final(cfg, s, xs), t).key;
            && Can(Final(cfg, s, xs), Read(t))
            && (At(Do(cfg, Final(cfg, s, xs), Read(t)), t) == Returned(key, None)
                <==> Forgotten(cfg, s, xs, from, key))
  {
    var key := At(Final(cfg, s, xs), t).key;
    StillReading(cfg, s, xs, from, t);
    var look := xs[..from];
    assert look[..from - 1] == xs[..from - 1] && look[from - 1] == xs[from - 1];
    RunPrefix(cfg, s, xs, from - 1);
    RunKeepsInv(cfg, s, xs[..from - 1]);
    LookFound(cfg, Final(cfg, s, xs[..from - 1]), xs[from - 1]);
    KeyGoneIff(cfg, s, xs, from, key);
  }

  // ----- callers of one key

  /** Not closed and replaced either: still in the table, or on its way there. */
  ghost predicate Kept(s: State, o: Obj)
    requires o in s.home
  {
    || (s.home[o] in s.table && s.table[s.home[o]] == o)
    || (s.lock.Some? && At(s, s.lock.value) == Assigning(s.home[o], o))
  }

  lemma {:induction false} EverythingKept(cfg: Cfg, s: State, xs: seq<Step>)
    requires Start(s) && Run(cfg, s, xs) && NoClear(xs, 0)
    ensures forall o | o in Final(cfg, s, xs).home :: Kept(Final(cfg, s, xs), o)
  {
    if xs != [] {
      var n := |xs| - 1;
      RunKeepsInv(cfg, s, xs[..n]);
      EverythingKept(cfg, s, xs[..n]);
      assert !xs[n].Clear?;
      StepKeepsKept(cfg, Final(cfg, s, xs[..n]), xs[n]);
    }
  }

  lemma StepKeepsKept(cfg: Cfg, s: State, x: Step)
    requires Inv(s) && Can(s, x) && !x.Clear? && forall o | o in s.home :: Kept(s, o)
    ensures forall o | o in Do(cfg, s, x).home :: Kept(Do(cfg, s, x), o)
  {
    var e := Do(cfg, s, x);
    assert Locked(At(s, x.t)) <==> s.lock == Some(x.t);
    forall o | o in e.home ensures Kept(e, o) {
      if o in s.home { assert Kept(s, o); }
    }
  }

  /** Two callers, as seen from outside, that both called after the last reset: they get
      the same object, and no other object of their key is live; if there never was a
      reset, none other was ever created. */
  lemma CallersShare(cfg: Cfg, s: State, xs: seq<Step>, from: nat, t: Thread, u: Thread)
    requires Start(s) && Run(cfg, s, xs) && NoClear(xs, from)
    requires CalledSince(xs, from, t) && CalledSince(xs, from, u)
    requires var e := Final(cfg, s, xs);
             At(e, t).Returned? && At(e, u).Returned? && At(e, t).key == At(e, u).key
    ensures var e := Final(cfg, s, xs);
            && At(e, t).got.Some? && At(e, t).got == At(e, u).got
            && (forall o | IsLive(e, o) && e.home[o] == At(e, t).key :: o == At(e, t).got.value)
            && (from == 0 ==> forall o | o in e.home && e.home[o] == At(e, t).key :: o == At(e, t).got.value)
  {
    OneInstance(cfg, s, xs, from, t);
    OneInstance(cfg, s, xs, from, u);
    RunKeepsInv(cfg, s, xs);
    var e := Final(cfg, s, xs);
    forall o | IsLive(e, o) && e.home[o] == At(e, t).key ensures o == At(e, t).got.value {
      assert Accounted(e, o);
    }
    if from == 0 {
      EverythingKept(cfg, s, xs);
      forall o | o in e.home && e.home[o] == At(e, t).key ensures o == At(e, t).got.value { assert Kept(e, o); }
    }
  }

  /** The second read of the table is the weak spot of the getters that have one: a
      reset between it and the first read makes the getter return nothing. */
  lemma ResetBetweenReads() returns (xs: seq<Step>)
    ensures var s := State(map[], None, map[], {}, map[]);
            && Run(Cfg(false), s, xs)
            && At(Final(Cfg(false), s, xs), 0) == Returned("", None)
  {
    var s, cfg := State(map[], None, map[], {}, map[]), Cfg(false);
    xs := [];
    RunExtends(cfg, s, xs, Call(0, ""));
    xs := xs + [Call(0, "")];
    RunExtends(cfg, s, xs, Acquire(0));
    xs := xs + [Acquire(0)];
    RunExtends(cfg, s, xs, Check(0));
    xs := xs + [Check(0)];
    RunExtends(cfg, s, xs, Make(0, 7));
    xs := xs + [Make(0, 7)];
    RunExtends(cfg, s, xs, Assign(0));
    xs := xs + [Assign(0)];
    RunExtends(cfg, s, xs, Release(0));
    xs := xs + [Release(0)];
    var mid := Final(cfg, s, xs);
    assert mid.table == map["" := 7] && mid.lock == None && At(mid, 0) == Reading("") && At(mid, 1) == Idle;
    RunExtends(cfg, s, xs, CallClose(1));
    xs := xs + [CallClose(1)];
    RunExtends(cfg, s, xs, Acquire(1));
    xs := xs + [Acquire(1)];
    RunExtends(cfg, s, xs, CloseOne(1, ""));
    xs := xs + [CloseOne(1, "")];
    RunExtends(cfg, s, xs, Clear(1));
    xs := xs + [Clear(1)];
    RunExtends(cfg, s, xs, Read(0));
    xs := xs + [Read(0)];
  }

  // ----- the code, as one thread runs it

  /** A table of channels. The ghost fields record the run of the machine that the calls
      amount to, each call being made by a thread that is not interrupted. */
  class Channels {
    var channels: map<Key, Obj>
    var closed: set<Obj>
    var next: Obj                       // the next object the library will make
    ghost var home: map<Obj, Key>
    ghost var pcs: map<Thread, Pc>
    ghost var lock: Option<Thread>
    ghost var log: seq<Step>

    ghost function View(): State
      reads this
    {
      State(channels, lock, home, closed, pcs)
    }

    /** The recorded steps lead to this state. */
    ghost predicate Logged(s: State)
      reads this`log
    {
      && Run(Cfg(true), State(map[], None, map[], {}, map[]), log)
      && s == Final(Cfg(true), State(map[], None, map[], {}, map[]), log)
    }

    ghost predicate Valid()
      reads this
    {
      Logged(View()) && forall o | o in home :: o < next
    }

    constructor ()
      ensures Valid() && lock.None? && channels == map[]
    {
      channels, closed, next, home, pcs, lock, log := map[], {}, 0, map[], map[], None, [];
    }

    /** One step of the machine whose effect on the real fields is done already. */
    ghost method Note(x: Step, was: State)
      requires Logged(was) && Can(was, x)
      requires var e := Do(Cfg(true), was, x);
               channels == e.table && closed == e.closed && forall o | o in e.home :: o < next
      modifies this`home, this`pcs, this`lock, this`log
      ensures Valid() && View() == Do(Cfg(true), was, x)
    {
      RunExtends(Cfg(true), State(map[], None, map[], {}, map[]), log, x);
      var e := Do(Cfg(true), was, x);
      home, pcs, lock, log := e.home, e.pcs, e.lock, log + [x];
    }

    /** The channel of a service, made when there is none. */
    method Channel(t: Thread, service: Key) returns (channel: Obj)
      requires Valid() && lock.None? && (At(View(), t).Idle? || At(View(), t).Returned?)
      modifies this
      ensures Valid() && lock.None? && At(View(), t) == Returned(service, Some(channel))
      ensures channels == old(channels)[service := channel] && closed == old(closed)
      ensures service in old(channels) ==> channel == old(channels)[service]
      ensures service !in old(channels) ==> channel !in old(home)
    {
      if service in channels {
        channel := channels[service];
        Note(Call(t, service), View());
        return;
      }
      Note(Call(t, service), View());
      Note(Acquire(t), View());
      Note(Check(t), View());
      channel := Open(t, service);
      Note(Release(t), View());
    }

    /** What happens under the lock when the service has no channel yet. */
    method Open(t: Thread, service: Key) returns (channel: Obj)
      requires Valid() && At(View(), t) == Making(service)
      modifies this
      ensures Valid() && lock == old(lock) && At(View(), t) == Leaving(service, channel)
      ensures channels == old(channels)[service := channel] && closed == old(closed) && channel !in old(home)
    {
      ghost var was := View();
      channel := next;
      next := next + 1;
      Note(Make(t, channel), was);
      was := View();
      channels := channels[service := channel];
      Note(Assign(t), was);
    }

    /** Closing closes every channel, each once, and forgets them all. If closing one of
        them raises, the lock is given back and the table kept, closed channels included. */
    method Close(t: Thread, bad: set<Obj>) returns (r: Result<(), ()>)
      requires Valid() && lock.None? && (At(View(), t).Idle? || At(View(), t).Returned?)
      modifies this
      ensures Valid() && lock.None? && At(View(), t).Idle? && home == old(home)
      ensures r.Ok? <==> old(channels.Values) !! bad
      ensures r.Ok? ==> channels == map[] && closed == old(closed) + old(channels.Values) && forall o | o in home :: o in closed
      ensures r.Raised? ==> channels == old(channels) && old(closed) <= closed <= old(closed) + channels.Values
    {
      Note(CallClose(t), View());
      Note(Acquire(t), View());
      r := CloseEach(t, bad);
      if r.Ok? { ForgetAll(t); }
    }

    method ForgetAll(t: Thread)
      requires Valid() && lock == Some(t) && At(View(), t) == Closing({})
      modifies this
      ensures Valid() && lock.None? && At(View(), t).Idle? && home == old(home) && closed == old(closed)
      ensures channels == map[] && forall o | o in home :: o in closed
    {
      ghost var was := View();
      channels := map[];
      Note(Clear(t), was);
      Note(Release(t), View());
      AllClosed();
    }

    /** The loop under the lock. */
    method CloseEach(t: Thread, bad: set<Obj>) returns (r: Result<(), ()>)
      requires Valid() && At(View(), t) == Closing(channels.Keys)
      modifies this
      ensures Valid() && channels == old(channels) && home == old(home)
      ensures r.Ok? <==> channels.Values !! bad
      ensures r.Ok? ==> lock == old(lock) && At(View(), t) == Closing({}) && closed == old(closed) + channels.Values
      ensures r.Raised? ==> lock.None? && At(View(), t).Idle? && old(closed) <= closed <= old(closed) + channels.Values
    {
      var todo := channels.Keys;
      while todo != {}
        invariant Valid() && channels == old(channels) && home == old(home) && lock == old(lock)
        invariant todo <= channels.Keys && At(View(), t) == Closing(todo)
        invariant closed == old(closed) + set k | k in channels && k !in todo :: channels[k]
        invariant forall k | k in channels && k !in todo :: channels[k] !in bad
        decreases |todo|
      {
        var k :| k in todo;
        if channels[k] in bad {
          Note(CloseRaises(t), View());
          assert channels[k] in channels.Values;
          return Raised(());
        }
        todo := CloseNext(t, todo, k);
      }
      r := Ok(());
    }

    method CloseNext(t: Thread, todo: set<Key>, k: Key) returns (left: set<Key>)
      requires Valid() && At(View(), t) == Closing(todo) && k in todo && k in channels
      modifies this
      ensures Valid() && channels == old(channels) && home == old(home) && lock == old(lock)
      ensures left == todo - {k} && At(View(), t) == Closing(left) && closed == old(closed) + {channels[k]}
    {
      ghost var was := View();
      closed := closed + {channels[k]};
      left := todo - {k};
      Note(CloseOne(t, k), was);
    }

    ghost method AllClosed()
      requires Valid() && channels == map[] && lock.None?
      ensures forall o | o in home :: o in closed
    {
      RunKeepsInv(Cfg(true), State(map[], None, map[], {}, map[]), log);
      forall o | o in home ensures o in closed { assert Accounted(View(), o); }
    }
  }
}
