/** The coarse fixed-window rate limiter: its two cache operations under any
    interleaving of callers. Time is counted in ticks; window and ttl are given in ticks. */
module RateLimit {
  import opened Wrappers
  import opened Sums

  /** The code always uses ttl == 2 * window. */
  datatype Cfg = Cfg(limit: int, window: int, ttl: int)

  datatype Counter = Counter(count: int, expires: int)

  type Slot = (string, int)   // caller and window
  type Counters = map<Slot, Counter>

  datatype Stage = Ready | Refused | Finished

  /** at is what the caller read on the clock. */
  datatype Call = Call(key: string, at: int, stage: Stage)
  datatype Answer = Answer(key: string, at: int, allowed: bool)

  /** answers are in the order of the counting operations; surprised records that the
      counter was found expired between add and incr. */
  datatype State = State(now: int, counters: Counters, calls: map<nat, Call>, answers: seq<Answer>, surprised: bool)

  datatype Step =
    | Tick(d: nat)
    | Read(call: nat, key: string)
    | Add(call: nat)
    | Incr(call: nat)

  function WindowOf(cfg: Cfg, at: int): int
    requires cfg.window > 0
  {
    at / cfg.window
  }

  function SlotOf(cfg: Cfg, c: Call): Slot
    requires cfg.window > 0
  {
    (c.key, WindowOf(cfg, c.at))
  }

  predicate Live(counters: Counters, slot: Slot, now: int) {
    slot in counters && now < counters[slot].expires
  }

  /** cache.add: stores only when there is no live entry. */
  function Added(counters: Counters, slot: Slot, ttl: int, now: int): Counters {
    if Live(counters, slot, now) then counters else counters[slot := Counter(1, now + ttl)]
  }

  /** cache.incr keeps the expiry. */
  function Incremented(counters: Counters, slot: Slot): Counters
    requires slot in counters
  {
    counters[slot := counters[slot].(count := counters[slot].count + 1)]
  }

  /** Each cache operation of a call happens within one window of its clock reading. */
  ghost predicate Can(cfg: Cfg, s: State, x: Step) {
    match x
    case Tick(_) => true
    case Read(call, _) => call !in s.calls
    case Add(call) => call in s.calls && s.calls[call].stage.Ready? && s.now <= s.calls[call].at + cfg.window
    case Incr(call) => call in s.calls && s.calls[call].stage.Refused? && s.now <= s.calls[call].at + cfg.window
  }

  ghost function Answered(cfg: Cfg, s: State, call: nat, counters: Counters, count: int): State
    requires call in s.calls
  {
    var c := s.calls[call];
    s.(counters := counters,
       calls := s.calls[call := c.(stage := Finished)],
       answers := s.answers + [Answer(c.key, c.at, count <= cfg.limit)])
  }

  ghost function Do(cfg: Cfg, s: State, x: Step): State
    requires cfg.window > 0 && Can(cfg, s, x)
  {
    match x
    case Tick(d) => s.(now := s.now + d)
    case Read(call, key) => s.(calls := s.calls[call := Call(key, s.now, Ready)])
    case Add(call) =>
      (var slot := SlotOf(cfg, s.calls[call]);
       if Live(s.counters, slot, s.now) then s.(calls := s.calls[call := s.calls[call].(stage := Refused)])
       else Answered(cfg, s, call, Added(s.counters, slot, cfg.ttl, s.now), 1))
    case Incr(call) =>
      (var slot := SlotOf(cfg, s.calls[call]);
       if Live(s.counters, slot, s.now) then
         Answered(cfg, s, call, Incremented(s.counters, slot), s.counters[slot].count + 1)
       else
         Answered(cfg, s.(surprised := true), call, Added(s.counters, slot, cfg.ttl, s.now), 1))
  }

  ghost predicate Start(s: State) {
    s.now >= 0 && s.counters == map[] && s.calls == map[] && s.answers == [] && !s.surprised
  }

  ghost predicate Run(cfg: Cfg, s: State, xs: seq<Step>)
    requires cfg.window > 0
    decreases |xs|, 0
  {
    xs == [] || (Run(cfg, s, xs[..|xs| - 1]) && Can(cfg, Final(cfg, s, xs[..|xs| - 1]), xs[|xs| - 1]))
  }

  ghost function Final(cfg: Cfg, s: State, xs: seq<Step>): State
    requires cfg.window > 0 && Run(cfg, s, xs)
    decreases |xs|, 1
  {
    if xs == [] then s else Do(cfg, Final(cfg, s, xs[..|xs| - 1]), xs[|xs| - 1])
  }

  lemma RunExtends(cfg: Cfg, s: State, xs: seq<Step>, x: Step)
    requires cfg.window > 0 && Run(cfg, s, xs) && Can(cfg, Final(cfg, s, xs), x)
    ensures Run(cfg, s, xs + [x]) && Final(cfg, s, xs + [x]) == Do(cfg, Final(cfg, s, xs), x)
  {
    assert (xs + [x])[..|xs|] == xs;
  }

  // ----- counting answers

  ghost function In(cfg: Cfg, slot: Slot): Answer -> int
    requires cfg.window > 0
  {
    (a: Answer) => if (a.key, WindowOf(cfg, a.at)) == slot then 1 else 0
  }

  ghost function AllowedIn(cfg: Cfg, slot: Slot): Answer -> int
    requires cfg.window > 0
  {
    (a: Answer) => if a.allowed && (a.key, WindowOf(cfg, a.at)) == slot then 1 else 0
  }

  /** The answers given to one caller for one window. */
  ghost function AnswersIn(cfg: Cfg, answers: seq<Answer>, slot: Slot): set<nat>
    requires cfg.window > 0
  {
    set i: nat | i < |answers| && answers[i].key == slot.0 && answers[i].at / cfg.window == slot.1
  }

  lemma {:induction false} TotalIsCount(cfg: Cfg, answers: seq<Answer>, slot: Slot)
    requires cfg.window > 0
    ensures Total(answers, In(cfg, slot)) == |AnswersIn(cfg, answers, slot)|
  {
    if answers != [] {
      var n := |answers| - 1;
      TotalIsCount(cfg, answers[..n], slot);
      var before, all := AnswersIn(cfg, answers[..n], slot), AnswersIn(cfg, answers, slot);
      assert all == before + if answers[n].key == slot.0 && answers[n].at / cfg.window == slot.1 then {n} else {};
    } else {
      assert AnswersIn(cfg, answers, slot) == {};
    }
  }

  ghost function Calls(cfg: Cfg, s: State, slot: Slot): int
    requires cfg.window > 0
  {
    Total(s.answers, In(cfg, slot))
  }

  ghost function Admitted(cfg: Cfg, s: State, slot: Slot): int
    requires cfg.window > 0
  {
    Total(s.answers, AllowedIn(cfg, slot))
  }

  function Min(a: int, b: int): int { if a <= b then a else b }
  function Budget(cfg: Cfg): int { if cfg.limit > 0 then cfg.limit else 0 }

  // ----- exactness

  ghost predicate Counted(cfg: Cfg, s: State, slot: Slot)
    requires cfg.window > 0
  {
    && Calls(cfg, s, slot) == (if slot in s.counters then s.counters[slot].count else 0)
    && (slot in s.counters ==> s.counters[slot].expires >= slot.1 * cfg.window + 2 * cfg.window)
    && Admitted(cfg, s, slot) == Min(Calls(cfg, s, slot), Budget(cfg))
    && Calls(cfg, s, slot) >= 0
  }

  ghost predicate Inv(cfg: Cfg, s: State)
    requires cfg.window > 0
  {
    && !s.surprised
    && (forall c | c in s.calls :: s.calls[c].at <= s.now)
    && (forall c | c in s.calls && s.calls[c].stage.Refused? :: SlotOf(cfg, s.calls[c]) in s.counters)
    && (forall slot :: Counted(cfg, s, slot))
  }

  lemma InsideWindow(cfg: Cfg, at: int)
    requires cfg.window > 0
    ensures var w := WindowOf(cfg, at); w * cfg.window <= at < w * cfg.window + cfg.window
  {
  }

  lemma StillLive(cfg: Cfg, s: State, call: nat)
    requires cfg.window > 0 && Inv(cfg, s) && call in s.calls && s.now <= s.calls[call].at + cfg.window
    requires SlotOf(cfg, s.calls[call]) in s.counters
    ensures Live(s.counters, SlotOf(cfg, s.calls[call]), s.now)
  {
    InsideWindow(cfg, s.calls[call].at);
    assert Counted(cfg, s, SlotOf(cfg, s.calls[call]));
  }

  /** One more answer for the call's own slot, carrying the next count. */
  lemma AnswerCounted(cfg: Cfg, s: State, call: nat, counters: Counters)
    requires cfg.window > 0 && call in s.calls
    requires var own := SlotOf(cfg, s.calls[call]);
             && Counted(cfg, s, own)
             && own in counters && counters[own].count == Calls(cfg, s, own) + 1
             && counters[own].expires >= own.1 * cfg.window + 2 * cfg.window
    ensures var own := SlotOf(cfg, s.calls[call]);
            Counted(cfg, Answered(cfg, s, call, counters, Calls(cfg, s, own) + 1), own)
  {
    var own, c := SlotOf(cfg, s.calls[call]), s.calls[call];
    var a := Answer(c.key, c.at, Calls(cfg, s, own) + 1 <= cfg.limit);
    TotalAppend(s.answers, a, In(cfg, own));
    TotalAppend(s.answers, a, AllowedIn(cfg, own));
  }

  /** The slots of other callers and other windows are not concerned. */
  lemma OthersCounted(cfg: Cfg, s: State, call: nat, counters: Counters, count: int, slot: Slot)
    requires cfg.window > 0 && call in s.calls && slot != SlotOf(cfg, s.calls[call]) && Counted(cfg, s, slot)
    requires slot in counters <==> slot in s.counters
    requires slot in counters ==> counters[slot] == s.counters[slot]
    ensures Counted(cfg, Answered(cfg, s, call, counters, count), slot)
  {
    var c := s.calls[call];
    var a := Answer(c.key, c.at, count <= cfg.limit);
    TotalAppend(s.answers, a, In(cfg, slot));
    TotalAppend(s.answers, a, AllowedIn(cfg, slot));
  }

  lemma StepKeepsInv(cfg: Cfg, s: State, x: Step)
    requires cfg.window > 0 && cfg.ttl >= 2 * cfg.window && Inv(cfg, s) && Can(cfg, s, x)
    ensures Inv(cfg, Do(cfg, s, x))
  {
    var t := Do(cfg, s, x);
    if x.Tick? || x.Read? {
      forall slot ensures Counted(cfg, t, slot) { assert Counted(cfg, s, slot); }
    } else {
      var slot := SlotOf(cfg, s.calls[x.call]);
      assert Counted(cfg, s, slot);
      InsideWindow(cfg, s.calls[x.call].at);
      if slot in s.counters { StillLive(cfg, s, x.call); }
      forall o ensures Counted(cfg, t, o) {
        if x.Add? && slot in s.counters {
          assert Counted(cfg, s, o);
        } else if o == slot {
          AnswerCounted(cfg, s, x.call, t.counters);
        } else {
          assert Counted(cfg, s, o);
          OthersCounted(cfg, s, x.call, t.counters, if x.Add? then 1 else s.counters[slot].count + 1, o);
        }
      }
    }
  }

  lemma {:induction false} RunKeepsInv(cfg: Cfg, s: State, xs: seq<Step>)
    requires cfg.window > 0 && cfg.ttl >= 2 * cfg.window && Start(s) && Run(cfg, s, xs)
    ensures Inv(cfg, Final(cfg, s, xs))
  {
    if xs != [] {
      RunKeepsInv(cfg, s, xs[..|xs| - 1]);
      StepKeepsInv(cfg, Final(cfg, s, xs[..|xs| - 1]), xs[|xs| - 1]);
    } else {
      forall slot ensures Counted(cfg, s, slot) {}
    }
  }

  /** Exactness. Of the calls made by one caller in one aligned window, exactly as many
      as the limit allows return True, whatever the interleaving with other calls; and
      no call ever finds its counter expired between add and incr. */
  lemma Exact(cfg: Cfg, s: State, xs: seq<Step>, key: string, window: int)
    requires cfg.window > 0 && cfg.ttl == 2 * cfg.window && Start(s) && Run(cfg, s, xs)
    ensures !Final(cfg, s, xs).surprised
    ensures Admitted(cfg, Final(cfg, s, xs), (key, window))
            == Min(Calls(cfg, Final(cfg, s, xs), (key, window)), Budget(cfg))
  {
    RunKeepsInv(cfg, s, xs);
    assert Counted(cfg, Final(cfg, s, xs), (key, window));
  }

  // ----- any interval

  ghost function AllowedBetween(key: string, from: int, to: int): Answer -> int {
    (a: Answer) => if a.allowed && a.key == key && from <= a.at <= to then 1 else 0
  }

  /** The calls of the interval, window by window. */
  ghost function PerWindow(cfg: Cfg, answers: seq<Answer>, key: string, first: int): nat -> int
    requires cfg.window > 0
  {
    (i: nat) => Total(answers, AllowedIn(cfg, (key, first + i)))
  }

  lemma {:induction false} SplitByWindow(cfg: Cfg, answers: seq<Answer>, key: string, from: int, k: nat)
    requires cfg.window > 0
    ensures Total(answers, AllowedBetween(key, from, from + k * cfg.window))
            <= Upto(k + 1, PerWindow(cfg, answers, key, WindowOf(cfg, from)))
  {
    var first := WindowOf(cfg, from);
    var f := PerWindow(cfg, answers, key, first);
    if answers == [] {
      forall i: nat | i < k + 1 ensures f(i) >= 0 {
        assert f(i) == Total(answers, AllowedIn(cfg, (key, first + i)));
      }
      UptoNonNegative(k + 1, f);
    } else {
      var n := |answers| - 1;
      var a := answers[n];
      var g := PerWindow(cfg, answers[..n], key, first);
      SplitByWindow(cfg, answers[..n], key, from, k);
      forall i: nat ensures f(i) == g(i) + AllowedIn(cfg, (key, first + i))(a) {
        assert f(i) == Total(answers, AllowedIn(cfg, (key, first + i)));
      }
      if AllowedBetween(key, from, from + k * cfg.window)(a) == 1 {
        WindowInRange(cfg, from, k, a.at);
        var i: nat := WindowOf(cfg, a.at) - first;
        forall j: nat | j < k + 1 && j != i ensures g(j) == f(j) {}
        UptoChange(k + 1, g, f, i);
      } else {
        UptoBound(k + 1, g, f);
      }
    }
  }

  /** An interval of k windows' length meets k + 1 aligned windows. */
  lemma WindowInRange(cfg: Cfg, from: int, k: nat, at: int)
    requires cfg.window > 0 && from <= at <= from + k * cfg.window
    ensures WindowOf(cfg, from) <= WindowOf(cfg, at) <= WindowOf(cfg, from) + k
  {
    var w := cfg.window;
    InsideWindow(cfg, from);
    InsideWindow(cfg, at);
    var p, q := WindowOf(cfg, from), WindowOf(cfg, at);
    Ordered(p, q + 1, w);
    assert (p + k + 1) * w == p * w + k * w + w;
    Ordered(q, p + k + 1, w);
  }

  lemma Ordered(a: int, b: int, w: int)
    requires w > 0 && a * w < b * w
    ensures a < b
  {
    if b <= a { NotSmaller(b, a, w); }
  }

  lemma NotSmaller(b: int, a: int, w: int)
    requires w > 0 && b <= a
    ensures b * w <= a * w
  {
    assert (a - b) * w >= 0;
  }

  /** Over any interval of k windows' length, aligned or not, a caller is admitted at
      most (k + 1) * limit times. */
  lemma IntervalBound(cfg: Cfg, s: State, xs: seq<Step>, key: string, from: int, k: nat)
    requires cfg.window > 0 && cfg.ttl == 2 * cfg.window && Start(s) && Run(cfg, s, xs)
    ensures Total(Final(cfg, s, xs).answers, AllowedBetween(key, from, from + k * cfg.window))
            <= (k + 1) * Budget(cfg)
  {
    var answers := Final(cfg, s, xs).answers;
    var f := PerWindow(cfg, answers, key, WindowOf(cfg, from));
    SplitByWindow(cfg, answers, key, from, k);
    forall i: nat | i < k + 1 ensures f(i) <= Budget(cfg) {
      Exact(cfg, s, xs, key, WindowOf(cfg, from) + i);
    }
    var b := (i: nat) => Budget(cfg);
    UptoBound(k + 1, f, b);
    UptoConst(k + 1, b, Budget(cfg));
  }

  // ----- why the TTL is two windows

  /** A run in which a call finds its counter gone. */
  ghost predicate Surprises(cfg: Cfg, s: State, xs: seq<Step>)
    requires cfg.window > 0
  {
    Run(cfg, s, xs) && Final(cfg, s, xs).surprised
  }

  /** The counter can disappear under a caller exactly when the TTL is shorter than two
      windows. */
  lemma TtlOfTwoWindowsNeeded(cfg: Cfg)
    requires cfg.window > 0 && cfg.ttl > 0
    ensures (exists s, xs :: Start(s) && Surprises(cfg, s, xs)) <==> cfg.ttl < 2 * cfg.window
  {
    if cfg.ttl < 2 * cfg.window {
      var s := State(0, map[], map[], [], false);
      var xs := LateIncr(cfg, s);
      assert Surprises(cfg, s, xs);
    } else {
      forall s, xs | Start(s) && Surprises(cfg, s, xs) ensures false { RunKeepsInv(cfg, s, xs); }
    }
  }

  lemma LateIncr(cfg: Cfg, s: State) returns (xs: seq<Step>)
    requires cfg.window > 0 && 0 < cfg.ttl < 2 * cfg.window && s == State(0, map[], map[], [], false)
    ensures Surprises(cfg, s, xs)
  {
    var r := Min(cfg.window, cfg.ttl) - 1;
    assert WindowOf(cfg, 0) == 0;
    xs := SecondRefused(cfg, s, r);
    RunExtends(cfg, s, xs, Tick(cfg.ttl - r));
    xs := xs + [Tick(cfg.ttl - r)];
    RunExtends(cfg, s, xs, Incr(1));
    xs := xs + [Incr(1)];
  }

  /** Call 0 counts at time 0; call 1 reads the clock at r and finds the counter there. */
  lemma SecondRefused(cfg: Cfg, s: State, r: nat) returns (xs: seq<Step>)
    requires cfg.window > 0 && r < cfg.ttl && r < cfg.window && s == State(0, map[], map[], [], false)
    ensures Run(cfg, s, xs)
    ensures var t := Final(cfg, s, xs);
            && t.now == r && t.counters == map[("", 0) := Counter(1, cfg.ttl)]
            && 1 in t.calls && t.calls[1] == Call("", r, Refused) && WindowOf(cfg, r) == 0
  {
    assert WindowOf(cfg, 0) == WindowOf(cfg, r) == 0;
    xs := [];
    RunExtends(cfg, s, xs, Read(0, ""));
    xs := xs + [Read(0, "")];
    RunExtends(cfg, s, xs, Add(0));
    xs := xs + [Add(0)];
    RunExtends(cfg, s, xs, Tick(r));
    xs := xs + [Tick(r)];
    RunExtends(cfg, s, xs, Read(1, ""));
    xs := xs + [Read(1, "")];
    RunExtends(cfg, s, xs, Add(1));
    xs := xs + [Add(1)];
  }

  // ----- the code

  /** The limiter on a cache with a clock. The ghost fields record that whatever is
      done with it is a run of the machine. */
  class Limiter {
    const cfg: Cfg
    var now: int
    var counters: Counters
    ghost var calls: map<nat, Call>
    ghost var answers: seq<Answer>
    ghost var surprised: bool
    ghost const start: State
    ghost var log: seq<Step>

    ghost function View(): State
      reads this
    {
      State(now, counters, calls, answers, surprised)
    }

    ghost predicate Valid()
      reads this
    {
      cfg.window > 0 && cfg.ttl == 2 * cfg.window && Start(start) && Run(cfg, start, log) && View() == Final(cfg, start, log)
    }

    constructor (limit: int, window: int)
      requires window > 0
      ensures Valid() && cfg == Cfg(limit, window, 2 * window) && Start(View())
    {
      cfg := Cfg(limit, window, 2 * window);
      now, counters, calls, answers, surprised := 0, map[], map[], [], false;
      start, log := State(0, map[], map[], [], false), [];
    }

    method Elapse(d: nat)
      requires Valid()
      modifies this
      ensures Valid() && View() == Do(cfg, old(View()), Tick(d))
    {
      RunExtends(cfg, start, log, Tick(d));
      now, log := now + d, log + [Tick(d)];
    }

    method ReadClock(key: string, ghost call: nat) returns (at: int)
      requires Valid() && call !in calls
      modifies this
      ensures Valid() && at == now && View() == Do(cfg, old(View()), Read(call, key))
    {
      RunExtends(cfg, start, log, Read(call, key));
      at := now;
      calls, log := calls[call := Call(key, now, Ready)], log + [Read(call, key)];
    }

    /** cache.add with the counter's first value. */
    method TryAdd(slot: Slot, ghost call: nat) returns (stored: bool)
      requires Valid() && Can(cfg, View(), Add(call)) && slot == SlotOf(cfg, calls[call])
      modifies this
      ensures Valid() && View() == Do(cfg, old(View()), Add(call))
      ensures stored == !Live(old(counters), slot, now)
    {
      RunExtends(cfg, start, log, Add(call));
      ghost var after := Do(cfg, View(), Add(call));
      stored := !Live(counters, slot, now);
      if stored {
        counters := counters[slot := Counter(1, now + cfg.ttl)];
      }
      calls, answers, log := after.calls, after.answers, log + [Add(call)];
    }

    /** cache.incr, and on a ValueError a fresh counter. */
    method TryIncr(slot: Slot, ghost call: nat) returns (count: int)
      requires Valid() && Can(cfg, View(), Incr(call)) && slot == SlotOf(cfg, calls[call])
      modifies this
      ensures Valid() && View() == Do(cfg, old(View()), Incr(call))
      ensures count == if Live(old(counters), slot, now) then old(counters)[slot].count + 1 else 1
    {
      RunExtends(cfg, start, log, Incr(call));
      ghost var after := Do(cfg, View(), Incr(call));
      if Live(counters, slot, now) {
        count := counters[slot].count + 1;
        counters := counters[slot := counters[slot].(count := count)];
      } else {
        counters := counters[slot := Counter(1, now + cfg.ttl)];
        count := 1;
      }
      calls, answers, surprised, log := after.calls, after.answers, after.surprised, log + [Incr(call)];
    }

    /** before and between are the time that passes ahead of the two cache operations.
        Undisturbed, a call is allowed exactly when fewer than limit calls of the same
        caller and window were counted before it. */
    method IsAllowed(key: string, before: nat, between: nat, ghost call: nat) returns (r: bool)
      requires Valid() && before + between <= cfg.window && call !in calls
      modifies this
      ensures Valid() && answers == old(answers) + [Answer(key, old(now), r)]
      ensures r <==> |set i: nat | i < |old(answers)| && old(answers)[i].key == key
                                   && old(answers)[i].at / cfg.window == old(now) / cfg.window| < cfg.limit
    {
      TotalIsCount(cfg, answers, (key, now / cfg.window));
      assert AnswersIn(cfg, answers, (key, now / cfg.window))
          == set i: nat | i < |answers| && answers[i].key == key && answers[i].at / cfg.window == now / cfg.window;
      r := CountCall(key, before, between, call);
    }

    method CountCall(key: string, before: nat, between: nat, ghost call: nat) returns (r: bool)
      requires Valid() && before + between <= cfg.window && call !in calls
      modifies this
      ensures Valid() && answers == old(answers) + [Answer(key, old(now), r)]
      ensures r <==> Calls(cfg, old(View()), (key, WindowOf(cfg, old(now)))) < cfg.limit
    {
      ghost var s := View();
      RunKeepsInv(cfg, start, log);
      assert Counted(cfg, s, (key, WindowOf(cfg, now)));
      var at := ReadClock(key, call);
      var slot := (key, WindowOf(cfg, at));
      Elapse(before);
      var count := 1;
      var stored := TryAdd(slot, call);
      if !stored {
        Elapse(between);
        count := TryIncr(slot, call);
      }
      r := count <= cfg.limit;
      CountedNext(cfg, start, log, View(), s.answers, Answer(key, s.now, r));
    }
  }

  /** In a run that just gave an answer, that answer tells how many came before. */
  lemma CountedNext(cfg: Cfg, s: State, xs: seq<Step>, t: State, before: seq<Answer>, a: Answer)
    requires cfg.window > 0 && cfg.ttl == 2 * cfg.window && Start(s) && Run(cfg, s, xs) && t == Final(cfg, s, xs)
    requires t.answers == before + [a]
    requires Admitted(cfg, t.(answers := before), (a.key, WindowOf(cfg, a.at)))
             == Min(Calls(cfg, t.(answers := before), (a.key, WindowOf(cfg, a.at))), Budget(cfg))
    ensures a.allowed <==> Calls(cfg, t.(answers := before), (a.key, WindowOf(cfg, a.at))) < cfg.limit
  {
    var slot := (a.key, WindowOf(cfg, a.at));
    RunKeepsInv(cfg, s, xs);
    assert Counted(cfg, t, slot);
    TotalAtLeast(before, In(cfg, slot), 0);
    TotalAppend(before, a, In(cfg, slot));
    TotalAppend(before, a, AllowedIn(cfg, slot));
  }
}
