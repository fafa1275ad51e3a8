/** A retry on RabbitMQ multiplies: one nack puts a copy into the retry queue of
    every service and each of those comes back to the main queue of every service.
    It still ends, because every copy remembers how often each service rejected it. */
module RabbitFanout {
  import opened Wrappers
  import opened Events
  import opened Counters
  import opened Sums
  import opened RabbitMachine
  import opened RabbitConservation

  // ----- one nack, n retry copies, n * n main-queue copies

  ghost predicate AllDeclared(s: State) {
    forall j: nat | j < |s.svcs| :: s.svcs[j].declared
  }

  /** The retry copies a nack has just appended come back one after the other. */
  ghost function Expiries(s: State, n: nat): seq<Step>
    requires n <= |s.svcs|
  {
    if n == 0 then [] else Expiries(s, n - 1) + [LastExpires(s, n - 1)]
  }

  ghost function LastExpires(s: State, j: nat): Step
    requires j < |s.svcs|
  {
    Expire(j, if s.svcs[j].retry == [] then 0 else |s.svcs[j].retry| - 1)
  }

  ghost predicate CarriesLast(s: State, body: Option<Envelope>, j: nat) {
    j < |s.svcs| && |s.svcs[j].retry| > 0 && s.svcs[j].retry[|s.svcs[j].retry| - 1].body == body
  }

  ghost predicate AllCarry(s: State, body: Option<Envelope>) {
    forall j: nat | j < |s.svcs| :: CarriesLast(s, body, j)
  }

  /** Main queue b is main queue a with k more copies carrying the given body. */
  ghost predicate Gained(a: seq<Copy>, b: seq<Copy>, k: nat, body: Option<Envelope>) {
    && |b| == |a| + k
    && b[..|a|] == a
    && forall i: nat | |a| <= i < |b| :: b[i].body == body
  }

  /** t is s after the last retry copies of the first n services came back. */
  ghost predicate CameBack(s: State, t: State, n: nat, body: Option<Envelope>) {
    && |t.svcs| == |s.svcs| && AllDeclared(t)
    && (forall j: nat | j < |s.svcs| :: Gained(s.svcs[j].ready, t.svcs[j].ready, n, body))
    && (forall j: nat | j < |s.svcs| :: |s.svcs[j].retry| > 0 &&
          t.svcs[j].retry == if j < n then s.svcs[j].retry[..|s.svcs[j].retry| - 1] else s.svcs[j].retry)
  }

  lemma OneComesBack(cfg: Cfg, s: State, u: State, n: nat, body: Option<Envelope>)
    requires |s.svcs| == |cfg.maxRetries| && n < |s.svcs| && CameBack(s, u, n, body) && CarriesLast(s, body, n)
    ensures Can(cfg, u, LastExpires(s, n))
    ensures CameBack(s, Do(cfg, u, LastExpires(s, n)), n + 1, body)
  {
    var last := |s.svcs[n].retry| - 1;
    var t := Do(cfg, u, Expire(n, last));
    var c := Bump(u.svcs[n].retry[last], RetryQ(n), Expired);
    assert Without(u.svcs[n].retry, last) == s.svcs[n].retry[..last];
    forall j: nat | j < |s.svcs| ensures Gained(s.svcs[j].ready, t.svcs[j].ready, n + 1, body) {
      assert Gained(s.svcs[j].ready, u.svcs[j].ready, n, body);
      assert u.svcs[j].declared;
      assert t.svcs[j].ready == u.svcs[j].ready + [c];
    }
  }

  lemma {:induction false} ExpiriesComeBack(cfg: Cfg, s: State, n: nat, body: Option<Envelope>)
    requires |s.svcs| == |cfg.maxRetries| && AllDeclared(s) && n <= |s.svcs| && AllCarry(s, body)
    ensures BackAfter(cfg, s, Expiries(s, n), n, body)
  {
    if n == 0 {
      NothingBackYet(cfg, s, body);
    } else {
      assert CarriesLast(s, body, n - 1);
      ExpiriesComeBack(cfg, s, n - 1, body);
      OneMoreBack(cfg, s, n, body);
    }
  }

  ghost predicate BackAfter(cfg: Cfg, s: State, steps: seq<Step>, n: nat, body: Option<Envelope>) {
    Run(cfg, s, steps) && CameBack(s, Final(cfg, s, steps), n, body)
  }

  lemma NothingBackYet(cfg: Cfg, s: State, body: Option<Envelope>)
    requires AllDeclared(s) && AllCarry(s, body)
    ensures BackAfter(cfg, s, [], 0, body)
  {
    forall j: nat | j < |s.svcs| ensures |s.svcs[j].retry| > 0 { assert CarriesLast(s, body, j); }
  }

  lemma OneMoreBack(cfg: Cfg, s: State, n: nat, body: Option<Envelope>)
    requires |s.svcs| == |cfg.maxRetries| && 0 < n <= |s.svcs| && CarriesLast(s, body, n - 1)
    requires BackAfter(cfg, s, Expiries(s, n - 1), n - 1, body)
    ensures BackAfter(cfg, s, Expiries(s, n), n, body)
  {
    var steps := Expiries(s, n - 1);
    OneComesBack(cfg, s, Final(cfg, s, steps), n - 1, body);
    RunExtends(cfg, s, steps, LastExpires(s, n - 1));
  }

  /** With n declared services, a nack adds one copy to each of the n retry queues;
      once their TTLs are over each of the n main queues has n more copies. */
  lemma FanOut(cfg: Cfg, s: State, svc: nat, i: nat)
    requires AllDeclared(s) && Can(cfg, s, Exec(svc, i))
    requires s.svcs[svc].flights[i].phase.todo[0] == Nack
    ensures var n, body, t := |s.svcs|, s.svcs[svc].flights[i].copy.body, Do(cfg, s, Exec(svc, i));
            && |t.svcs| == n
            && (forall j: nat | j < n :: |t.svcs[j].retry| == |s.svcs[j].retry| + 1 && CarriesLast(t, body, j))
            && Run(cfg, t, Expiries(t, n))
            && var u := Final(cfg, t, Expiries(t, n));
               |u.svcs| == n && forall j: nat | j < n ::
                 Gained(s.svcs[j].ready, u.svcs[j].ready, n, body) && u.svcs[j].retry == s.svcs[j].retry
  {
    var n, body, t := |s.svcs|, s.svcs[svc].flights[i].copy.body, Do(cfg, s, Exec(svc, i));
    forall j: nat | j < n ensures CarriesLast(t, body, j) { assert t.svcs[j].declared; }
    ExpiriesComeBack(cfg, t, n, body);
  }

  /** So a retry by one service leaves the main queues of all others alone exactly
      when there are no others. */
  lemma IsolatedIffAlone(cfg: Cfg, s: State, svc: nat, i: nat)
    requires AllDeclared(s) && Can(cfg, s, Exec(svc, i))
    requires s.svcs[svc].flights[i].phase.todo[0] == Nack
    ensures var t := Do(cfg, s, Exec(svc, i));
            |t.svcs| == |s.svcs| &&
            Run(cfg, t, Expiries(t, |s.svcs|)) &&
            var u := Final(cfg, t, Expiries(t, |s.svcs|));
            |u.svcs| == |s.svcs| &&
            ((forall j: nat | j < |s.svcs| && j != svc :: u.svcs[j].ready == s.svcs[j].ready) <==> |s.svcs| == 1)
  {
    FanOut(cfg, s, svc, i);
    var t := Do(cfg, s, Exec(svc, i));
    var u := Final(cfg, t, Expiries(t, |s.svcs|));
    if |s.svcs| > 1 {
      var j: nat := if svc == 0 then 1 else 0;
      assert Gained(s.svcs[j].ready, u.svcs[j].ready, |s.svcs|, s.svcs[svc].flights[i].copy.body);
      assert u.svcs[j].ready != s.svcs[j].ready;
    }
  }

  // ----- every retry tree is finite

  ghost function LeftFor(cfg: Cfg, c: Copy): nat -> int {
    (t: nat) => if t < |cfg.maxRetries| then Tries(cfg.maxRetries[t]) - 1 - Rejections(c, t) else 0
  }

  /** Rejections this copy can still take, over all services. */
  ghost function Left(cfg: Cfg, c: Copy): int { Upto(|cfg.maxRetries|, LeftFor(cfg, c)) }

  lemma LeftBounds(cfg: Cfg, c: Copy)
    requires Budgeted(cfg, c)
    ensures Left(cfg, c) >= 0
  {
    UptoNonNegative(|cfg.maxRetries|, LeftFor(cfg, c));
  }

  lemma LeftAfter(cfg: Cfg, c: Copy, q: Queue, r: Reason)
    requires q.svc < |cfg.maxRetries|
    ensures Left(cfg, Bump(c, q, r)) == Left(cfg, c) - (if q.MainQ? && r == Rejected then 1 else 0)
  {
    var f, h := LeftFor(cfg, c), LeftFor(cfg, Bump(c, q, r));
    forall t: nat | t < |cfg.maxRetries| ensures h(t) == f(t) - (if q == MainQ(t) && r == Rejected then 1 else 0) {
      BumpCounts(c, q, r, MainQ(t), Rejected);
    }
    if q.MainQ? && r == Rejected {
      UptoChange(|cfg.maxRetries|, f, h, q.svc);
    } else {
      UptoSame(|cfg.maxRetries|, f, h);
    }
  }

  lemma LeftFresh(cfg: Cfg, body: Option<Envelope>)
    ensures Left(cfg, Copy(body, [])) == Rounds(cfg)
  {
    UptoSame(|cfg.maxRetries|, LeftFor(cfg, Copy(body, [])), RoundsFor(cfg));
  }

  ghost function RoundsFor(cfg: Cfg): nat -> int {
    (t: nat) => if t < |cfg.maxRetries| then Tries(cfg.maxRetries[t]) - 1 else 0
  }

  /** The sum of M - 1 over all services; n * (M - 1) when they agree on M. */
  ghost function Rounds(cfg: Cfg): (r: int)
    ensures r >= 0
  {
    UptoNonNegative(|cfg.maxRetries|, RoundsFor(cfg));
    Upto(|cfg.maxRetries|, RoundsFor(cfg))
  }

  lemma RoundsUniform(cfg: Cfg, max: int)
    requires forall t: nat | t < |cfg.maxRetries| :: cfg.maxRetries[t] == max
    ensures Rounds(cfg) == |cfg.maxRetries| * (Tries(max) - 1)
  {
    UptoConst(|cfg.maxRetries|, RoundsFor(cfg), Tries(max) - 1);
  }

  /** Main-queue copies in the retry tree of a copy with k rejections left. */
  ghost function Tree(n: nat, k: int): nat {
    if k <= 0 then 1 else 1 + n * (n * Tree(n, k - 1))
  }

  ghost function Squares(n: nat): nat -> int { (i: nat) => Pow(n, 2 * i) }

  lemma {:induction false} UptoScale(n: nat, k: nat)
    ensures Upto(k + 1, Squares(n)) == 1 + n * (n * Upto(k, Squares(n)))
  {
    if k > 0 {
      UptoScale(n, k - 1);
      assert Pow(n, 2 * k) == n * Pow(n, 2 * k - 1) && Pow(n, 2 * k - 1) == n * Pow(n, 2 * (k - 1));
      Over(n, Upto(k - 1, Squares(n)), Squares(n)(k - 1));
      Over(n, n * Upto(k - 1, Squares(n)), n * Squares(n)(k - 1));
    } else {
      assert Pow(n, 0) == 1 && Upto(1, Squares(n)) == Squares(n)(0);
    }
  }

  lemma Over(n: int, x: int, y: int)
    ensures n * (x + y) == n * x + n * y
  {
  }

  /** Tree(n, k) is the sum of n^(2i) for i from 0 to k. */
  lemma {:induction false} TreeIsSum(n: nat, k: nat)
    ensures Tree(n, k) == Upto(k + 1, Squares(n))
  {
    UptoScale(n, k);
    if k > 0 { TreeIsSum(n, k - 1); }
  }

  /** Two price lists: copies of e still to appear in main queues, and protocol
      steps still to be taken. */
  datatype Price = Future(e: Envelope) | Work

  ghost function Cost(n: nat, k: int): nat {
    if k <= 0 then 5 else 5 + n * (1 + n * Cost(n, k - 1))
  }

  ghost function ReadyPrice(price: Price, cfg: Cfg, c: Copy): int {
    match price
    case Future(e) => if c.body == Some(e) then Tree(|cfg.maxRetries|, Left(cfg, c)) - 1 else 0
    case Work => Cost(|cfg.maxRetries|, Left(cfg, c))
  }

  ghost function RetryPrice(price: Price, cfg: Cfg, c: Copy): int {
    match price
    case Future(e) => if c.body == Some(e) then |cfg.maxRetries| * Tree(|cfg.maxRetries|, Left(cfg, c)) else 0
    case Work => 1 + |cfg.maxRetries| * Cost(|cfg.maxRetries|, Left(cfg, c))
  }

  ghost function FlightPrice(price: Price, cfg: Cfg, f: Flight): int {
    if price.Future? then ReadyPrice(price, cfg, f.copy)
    else ReadyPrice(price, cfg, f.copy)
         - (match f.phase case Prefetched => 1 case Held => 2 case Settling(todo) => if todo == [Ack] then 4 else 3)
  }

  ghost function ReadyFn(price: Price, cfg: Cfg): Copy -> int { c => ReadyPrice(price, cfg, c) }

  ghost function RetryFn(price: Price, cfg: Cfg): Copy -> int { c => RetryPrice(price, cfg, c) }

  ghost function FlightFn(price: Price, cfg: Cfg): Flight -> int { f => FlightPrice(price, cfg, f) }

  ghost function SvcPrice(price: Price, cfg: Cfg, v: Svc): int {
    Total(v.ready, ReadyFn(price, cfg)) + Total(v.flights, FlightFn(price, cfg)) + Total(v.retry, RetryFn(price, cfg))
  }

  ghost function PriceAt(price: Price, cfg: Cfg, svcs: seq<Svc>): nat -> int {
    (j: nat) => if j < |svcs| then SvcPrice(price, cfg, svcs[j]) else 0
  }

  ghost function Worth(price: Price, cfg: Cfg, svcs: seq<Svc>): int { Upto(|svcs|, PriceAt(price, cfg, svcs)) }

  lemma OneSvc(price: Price, cfg: Cfg, svcs: seq<Svc>, k: nat, v: Svc)
    requires k < |svcs|
    ensures Worth(price, cfg, svcs[k := v])
            == Worth(price, cfg, svcs) - SvcPrice(price, cfg, svcs[k]) + SvcPrice(price, cfg, v)
  {
    UptoChange(|svcs|, PriceAt(price, cfg, svcs), PriceAt(price, cfg, svcs[k := v]), k);
  }

  lemma SetFlightWorth(price: Price, cfg: Cfg, svcs: seq<Svc>, k: nat, i: nat, phase: Phase)
    requires k < |svcs| && i < |svcs[k].flights|
    ensures var f := svcs[k].flights[i];
            Worth(price, cfg, SetFlight(svcs, k, i, phase))
            == Worth(price, cfg, svcs) - FlightPrice(price, cfg, f) + FlightPrice(price, cfg, f.(phase := phase))
  {
    var mid := SetFlight(svcs, k, i, phase);
    OneSvc(price, cfg, svcs, k, mid[k]);
    TotalReplace(svcs[k].flights, i, mid[k].flights[i], FlightFn(price, cfg));
  }

  lemma DropFlightWorth(price: Price, cfg: Cfg, svcs: seq<Svc>, k: nat, i: nat)
    requires k < |svcs| && i < |svcs[k].flights|
    ensures Worth(price, cfg, DropFlight(svcs, k, i))
            == Worth(price, cfg, svcs) - FlightPrice(price, cfg, svcs[k].flights[i])
  {
    OneSvc(price, cfg, svcs, k, DropFlight(svcs, k, i)[k]);
    TotalWithout(svcs[k].flights, i, FlightFn(price, cfg));
  }

  lemma DeliverWorth(price: Price, cfg: Cfg, svcs: seq<Svc>, k: nat, i: nat, w: Svc)
    requires k < |svcs| && i < |svcs[k].ready|
    requires var v := svcs[k];
             w == v.(ready := Without(v.ready, i), flights := v.flights + [Flight(v.ready[i], Prefetched)])
    ensures Worth(price, cfg, svcs[k := w])
            == Worth(price, cfg, svcs) - ReadyPrice(price, cfg, svcs[k].ready[i])
               + FlightPrice(price, cfg, Flight(svcs[k].ready[i], Prefetched))
  {
    OneSvc(price, cfg, svcs, k, w);
    TotalWithout(svcs[k].ready, i, ReadyFn(price, cfg));
    TotalAppend(svcs[k].flights, Flight(svcs[k].ready[i], Prefetched), FlightFn(price, cfg));
  }

  lemma RequeueWorth(price: Price, cfg: Cfg, svcs: seq<Svc>, k: nat, i: nat, w: Svc)
    requires k < |svcs| && i < |svcs[k].flights|
    requires var v := svcs[k];
             w == v.(ready := v.ready + [v.flights[i].copy], flights := Without(v.flights, i))
    ensures Worth(price, cfg, svcs[k := w])
            == Worth(price, cfg, svcs) + ReadyPrice(price, cfg, svcs[k].flights[i].copy)
               - FlightPrice(price, cfg, svcs[k].flights[i])
  {
    OneSvc(price, cfg, svcs, k, w);
    TotalWithout(svcs[k].flights, i, FlightFn(price, cfg));
    TotalAppend(svcs[k].ready, svcs[k].flights[i].copy, ReadyFn(price, cfg));
  }

  lemma DropRetryWorth(price: Price, cfg: Cfg, svcs: seq<Svc>, k: nat, i: nat, w: Svc)
    requires k < |svcs| && i < |svcs[k].retry| && w == svcs[k].(retry := Without(svcs[k].retry, i))
    ensures Worth(price, cfg, svcs[k := w])
            == Worth(price, cfg, svcs) - RetryPrice(price, cfg, svcs[k].retry[i])
  {
    OneSvc(price, cfg, svcs, k, w);
    TotalWithout(svcs[k].retry, i, RetryFn(price, cfg));
  }

  ghost function DeclaredAt(svcs: seq<Svc>): nat -> int {
    (j: nat) => if j < |svcs| && svcs[j].declared then 1 else 0
  }

  /** How many services have their queues. */
  ghost function Declared(svcs: seq<Svc>): int { Upto(|svcs|, DeclaredAt(svcs)) }

  ghost function ArrivedAt(price: Price, cfg: Cfg, svcs: seq<Svc>, c: Copy, extra: int): nat -> int {
    (j: nat) => PriceAt(price, cfg, ToMain(svcs, c))(j) + extra * DeclaredAt(svcs)(j)
  }

  lemma {:induction false} UptoAdd(n: nat, f: nat -> int, h: nat -> int, g: nat -> int, x: int)
    requires forall i: nat | i < n :: g(i) == f(i) + x * h(i)
    ensures Upto(n, g) == Upto(n, f) + x * Upto(n, h)
  {
    if n > 0 {
      UptoAdd(n - 1, f, h, g, x);
      assert x * (Upto(n - 1, h) + h(n - 1)) == x * Upto(n - 1, h) + x * h(n - 1);
    }
  }

  /** Routing c to the main queues, counting extra for every copy made. */
  /** n copies of c in the main queues, and as much extra for each. */
  ghost function Successors(price: Price, cfg: Cfg, c: Copy, extra: nat): int {
    |cfg.maxRetries| * (ReadyPrice(price, cfg, c) + extra)
  }

  lemma MainArrives(price: Price, cfg: Cfg, svcs: seq<Svc>, c: Copy, extra: nat)
    requires ReadyPrice(price, cfg, c) >= 0 && |svcs| == |cfg.maxRetries|
    ensures Worth(price, cfg, ToMain(svcs, c)) + extra * Declared(svcs)
            <= Worth(price, cfg, svcs) + Successors(price, cfg, c, extra)
  {
    var n := |svcs|;
    var f, h := PriceAt(price, cfg, svcs), PriceAt(price, cfg, ToMain(svcs, c));
    var g := ArrivedAt(price, cfg, svcs, c, extra);
    forall j: nat | j < n ensures g(j) <= f(j) + (ReadyPrice(price, cfg, c) + extra) {
      TotalAppend(svcs[j].ready, c, ReadyFn(price, cfg));
      assert extra * DeclaredAt(svcs)(j) == if svcs[j].declared then extra else 0;
      assert PriceAt(price, cfg, ToMain(svcs, c))(j) == SvcPrice(price, cfg, Put(svcs[j], MainQ(j), c));
    }
    UptoShift(n, g, f, ReadyPrice(price, cfg, c) + extra);
    UptoAdd(n, h, DeclaredAt(svcs), g, extra);
  }

  lemma RetryArrives(price: Price, cfg: Cfg, svcs: seq<Svc>, c: Copy)
    requires RetryPrice(price, cfg, c) >= 0
    ensures Worth(price, cfg, ToRetry(svcs, c)) <= Worth(price, cfg, svcs) + |svcs| * RetryPrice(price, cfg, c)
  {
    var f, h := PriceAt(price, cfg, svcs), PriceAt(price, cfg, ToRetry(svcs, c));
    forall j: nat | j < |svcs| ensures h(j) <= f(j) + RetryPrice(price, cfg, c) {
      TotalAppend(svcs[j].retry, c, RetryFn(price, cfg));
    }
    UptoShift(|svcs|, h, f, RetryPrice(price, cfg, c));
  }

  lemma DlqArrives(price: Price, cfg: Cfg, svcs: seq<Svc>, e: Envelope)
    ensures Worth(price, cfg, ToDlq(svcs, e)) == Worth(price, cfg, svcs)
  {
    UptoSame(|svcs|, PriceAt(price, cfg, svcs), PriceAt(price, cfg, ToDlq(svcs, e)));
  }

  lemma PricesPositive(price: Price, cfg: Cfg, c: Copy)
    ensures ReadyPrice(price, cfg, c) >= 0 && RetryPrice(price, cfg, c) >= 0
    ensures price.Work? ==> ReadyPrice(price, cfg, c) >= 5
  {
    var n, k := |cfg.maxRetries|, Left(cfg, c);
    NatTimes(n, Tree(n, k));
    NatTimes(n, Cost(n, k));
    if k > 0 {
      NatTimes(n, Cost(n, k - 1));
      NatTimes(n, 1 + n * Cost(n, k - 1));
    }
  }

  lemma NatTimes(n: nat, x: nat)
    ensures n * x >= 0
  {
  }

  // ----- what one step costs

  /** Main-queue copies of e the step creates. */
  ghost function Creates(s: State, step: Step, e: Envelope): int {
    if step.Publish? && step.e == e then Declared(s.svcs)
    else if step.Expire? && step.svc < |s.svcs| && step.i < |s.svcs[step.svc].retry|
            && s.svcs[step.svc].retry[step.i].body == Some(e) then Declared(s.svcs)
    else 0
  }

  /** Steps that only follow from messages already in the queues. */
  ghost predicate IsProtocol(step: Step) {
    step.Deliver? || step.Take? || step.Dispatch? || step.Exec? || step.Expire?
  }

  ghost function Credit(price: Price, cfg: Cfg, step: Step): int {
    var n := |cfg.maxRetries|;
    if price.Future? && step.Publish? && step.e == price.e then n * Tree(n, Rounds(cfg)) else 0
  }

  /** The bookkeeping of one step under either price list. */
  ghost predicate StepPays(price: Price, cfg: Cfg, s: State, step: Step)
    requires Can(cfg, s, step)
  {
    var before, after := Worth(price, cfg, s.svcs), Worth(price, cfg, Do(cfg, s, step).svcs);
    match price
    case Future(e) => after + Creates(s, step, e) <= before + Credit(price, cfg, step)
    case Work => IsProtocol(step) ==> after + 1 <= before
  }

  lemma StepIsPaid(price: Price, cfg: Cfg, s: State, step: Step)
    requires Inv(cfg, s) && Can(cfg, s, step)
    ensures StepPays(price, cfg, s, step)
  {
    match step
    case Declare(k) => OneSvc(price, cfg, s.svcs, k, s.svcs[k].(declared := true));
    case Publish(e) => PayArrival(price, cfg, s, step, Some(e));
    case Garbage => PayArrival(price, cfg, s, step, None);
    case Exec(k, i) => PayExec(price, cfg, s, k, i);
    case Expire(k, i) => PayExpire(price, cfg, s, k, i);
    case LateDispatch(_, _, _) =>
    case LateBury(_, f) => DlqArrives(price, cfg, s.svcs, f.copy.body.value);
    case _ => PayMove(price, cfg, s, step);
  }

  lemma PayArrival(price: Price, cfg: Cfg, s: State, step: Step, body: Option<Envelope>)
    requires Inv(cfg, s)
    requires step == if body.Some? then Publish(body.value) else Garbage
    ensures Can(cfg, s, step) && StepPays(price, cfg, s, step)
  {
    var c := Copy(body, []);
    LeftFresh(cfg, body);
    PricesPositive(price, cfg, c);
    MainArrives(price, cfg, s.svcs, c, if price.Future? && body == Some(price.e) then 1 else 0);
  }

  lemma PayMove(price: Price, cfg: Cfg, s: State, step: Step)
    requires Inv(cfg, s) && Can(cfg, s, step)
    requires step.Deliver? || step.Take? || step.Dispatch? || step.Requeue?
    ensures StepPays(price, cfg, s, step)
  {
    var k, i, t := step.svc, step.i, Do(cfg, s, step);
    if step.Deliver? {
      DeliverWorth(price, cfg, s.svcs, k, i, t.svcs[k]);
    } else if step.Requeue? {
      RequeueWorth(price, cfg, s.svcs, k, i, t.svcs[k]);
    } else {
      SetFlightWorth(price, cfg, s.svcs, k, i, t.svcs[k].flights[i].phase);
      assert SvcOk(cfg, s, k) && FlightOk(cfg, s, k, s.svcs[k].flights[i]);
    }
  }

  /** What a rejected copy costs covers n retry copies with one rejection less. */
  lemma NackPays(price: Price, cfg: Cfg, k: nat, c: Copy)
    requires k < |cfg.maxRetries| && Budgeted(cfg, c) && Retries(cfg, k, c)
    ensures var d := Bump(c, MainQ(k), Rejected);
            && RetryPrice(price, cfg, d) >= 0
            && |cfg.maxRetries| * RetryPrice(price, cfg, d) + (if price.Work? then 5 else 0) <= ReadyPrice(price, cfg, c)
  {
    var d := Bump(c, MainQ(k), Rejected);
    LeftAfter(cfg, c, MainQ(k), Rejected);
    BumpBudgeted(cfg, c, MainQ(k), Rejected);
    LeftBounds(cfg, d);
    PricesPositive(price, cfg, d);
  }

  lemma PayExec(price: Price, cfg: Cfg, s: State, k: nat, i: nat)
    requires Inv(cfg, s) && Can(cfg, s, Exec(k, i))
    ensures StepPays(price, cfg, s, Exec(k, i))
  {
    var f := s.svcs[k].flights[i];
    assert SvcOk(cfg, s, k) && FlightOk(cfg, s, k, f);
    PricesPositive(price, cfg, f.copy);
    if f.phase.todo[0] == Bury {
      SetFlightWorth(price, cfg, s.svcs, k, i, Settling(f.phase.todo[1..]));
      DlqArrives(price, cfg, SetFlight(s.svcs, k, i, Settling(f.phase.todo[1..])), f.copy.body.value);
    } else {
      DropFlightWorth(price, cfg, s.svcs, k, i);
      if f.phase.todo[0] == Nack {
        NackPays(price, cfg, k, f.copy);
        RetryArrives(price, cfg, DropFlight(s.svcs, k, i), Bump(f.copy, MainQ(k), Rejected));
      }
    }
  }

  lemma PayExpire(price: Price, cfg: Cfg, s: State, k: nat, i: nat)
    requires Inv(cfg, s) && Can(cfg, s, Expire(k, i))
    ensures StepPays(price, cfg, s, Expire(k, i))
  {
    var was := s.svcs[k].retry[i];
    ExpireWorth(price, cfg, s, k, i, if price.Future? && was.body == Some(price.e) then 1 else 0);
    ExpiryPays(price, cfg, k, was);
  }

  lemma ExpireWorth(price: Price, cfg: Cfg, s: State, k: nat, i: nat, extra: nat)
    requires Can(cfg, s, Expire(k, i))
    ensures var was := s.svcs[k].retry[i];
            Worth(price, cfg, Do(cfg, s, Expire(k, i)).svcs) + extra * Declared(s.svcs)
            <= Worth(price, cfg, s.svcs) - RetryPrice(price, cfg, was)
               + Successors(price, cfg, Bump(was, RetryQ(k), Expired), extra)
  {
    var v := s.svcs[k];
    var c := Bump(v.retry[i], RetryQ(k), Expired);
    var mid := s.svcs[k := v.(retry := Without(v.retry, i))];
    DropRetryWorth(price, cfg, s.svcs, k, i, mid[k]);
    PricesPositive(price, cfg, c);
    MainArrives(price, cfg, mid, c, extra);
    assert Declared(mid) == Declared(s.svcs) by { UptoSame(|s.svcs|, DeclaredAt(s.svcs), DeclaredAt(mid)); }
  }

  /** What a retry copy costs covers its n successors in the main queues. */
  lemma ExpiryPays(price: Price, cfg: Cfg, k: nat, was: Copy)
    requires k < |cfg.maxRetries|
    ensures var c := Bump(was, RetryQ(k), Expired);
            var extra := if price.Future? && was.body == Some(price.e) then 1 else 0;
            Successors(price, cfg, c, extra) + (if price.Work? then 1 else 0)
              <= RetryPrice(price, cfg, was)
  {
    LeftAfter(cfg, was, RetryQ(k), Expired);
  }

  // ----- whole runs

  ghost function Publishes(steps: seq<Step>, e: Envelope): nat {
    if steps == [] then 0 else
      var n := |steps| - 1;
      Publishes(steps[..n], e) + if steps[n] == Publish(e) then 1 else 0
  }

  /** Main-queue copies of e created over a run. */
  ghost function Created(cfg: Cfg, s: State, steps: seq<Step>, e: Envelope): int
    requires Run(cfg, s, steps)
  {
    if steps == [] then 0 else
      var n := |steps| - 1;
      Created(cfg, s, steps[..n], e) + Creates(Final(cfg, s, steps[..n]), steps[n], e)
  }

  /** What the publishes of e pay for. */
  ghost function Credits(cfg: Cfg, steps: seq<Step>, e: Envelope): int {
    if steps == [] then 0 else
      var n := |steps| - 1;
      Credits(cfg, steps[..n], e) + Credit(Future(e), cfg, steps[n])
  }

  ghost function Times(k: nat, unit: int): int {
    if k == 0 then 0 else Times(k - 1, unit) + unit
  }

  lemma {:induction false} TimesIs(k: nat, unit: int)
    ensures Times(k, unit) == k * unit
  {
    if k > 0 {
      TimesIs(k - 1, unit);
      Over(unit, k - 1, 1);
    }
  }

  lemma {:induction false} CreditsMean(cfg: Cfg, steps: seq<Step>, e: Envelope, unit: int)
    requires forall step :: Credit(Future(e), cfg, step) == if step == Publish(e) then unit else 0
    ensures Credits(cfg, steps, e) == Times(Publishes(steps, e), unit)
  {
    if steps != [] { CreditsMean(cfg, steps[..|steps| - 1], e, unit); }
  }

  /** Copies created, and those the live ones still stand for, are paid for by publishes. */
  lemma {:induction false} CreatedPaid(cfg: Cfg, s: State, steps: seq<Step>, e: Envelope)
    requires Init(cfg, s) && Run(cfg, s, steps)
    ensures Created(cfg, s, steps, e) + Worth(Future(e), cfg, Final(cfg, s, steps).svcs) <= Credits(cfg, steps, e)
  {
    if steps == [] {
      UptoConst(|s.svcs|, PriceAt(Future(e), cfg, s.svcs), 0);
    } else {
      var k := |steps| - 1;
      CreatedPaid(cfg, s, steps[..k], e);
      RunKeepsInv(cfg, s, steps[..k]);
      StepIsPaid(Future(e), cfg, Final(cfg, s, steps[..k]), steps[k]);
    }
  }

  lemma WorthPositive(price: Price, cfg: Cfg, s: State)
    requires Inv(cfg, s)
    ensures Worth(price, cfg, s.svcs) >= 0
  {
    var at := PriceAt(price, cfg, s.svcs);
    forall j: nat | j < |s.svcs| ensures at(j) >= 0 {
      var v := s.svcs[j];
      forall c: Copy ensures ReadyPrice(price, cfg, c) >= 0 && RetryPrice(price, cfg, c) >= 0 {
        PricesPositive(price, cfg, c);
      }
      forall f: Flight ensures FlightPrice(price, cfg, f) >= 0 { PricesPositive(price, cfg, f.copy); }
      TotalAtLeast(v.ready, ReadyFn(price, cfg), 0);
      TotalAtLeast(v.retry, RetryFn(price, cfg), 0);
      TotalAtLeast(v.flights, FlightFn(price, cfg), 0);
    }
    UptoNonNegative(|s.svcs|, at);
  }

  lemma CreatedWithin(cfg: Cfg, s: State, steps: seq<Step>, e: Envelope)
    requires Init(cfg, s) && Run(cfg, s, steps)
    ensures Created(cfg, s, steps, e) <= Credits(cfg, steps, e)
  {
    CreatedPaid(cfg, s, steps, e);
    RunKeepsInv(cfg, s, steps);
    WorthPositive(Future(e), cfg, Final(cfg, s, steps));
  }

  /** With n services and R = sum of (M - 1) over them, P publishes of e never put
      more than P * n * (1 + n^2 + ... + n^(2R)) copies of it into main queues,
      whatever the handlers do and however often workers stop or reconnect. */
  lemma CopiesBounded(cfg: Cfg, s: State, steps: seq<Step>, e: Envelope)
    requires Init(cfg, s) && Run(cfg, s, steps)
    ensures var n := |cfg.maxRetries|;
            Created(cfg, s, steps, e) <= Publishes(steps, e) * (n * Upto(Rounds(cfg) + 1, Squares(n)))
  {
    CreatedWithin(cfg, s, steps, e);
    TreeIsSum(|cfg.maxRetries|, Rounds(cfg));
    var unit := |cfg.maxRetries| * Upto(Rounds(cfg) + 1, Squares(|cfg.maxRetries|));
    CreditsMean(cfg, steps, e, unit);
    TimesIs(Publishes(steps, e), unit);
  }

  /** Without new messages and without lost channels everything settles: from any
      reachable state only so many deliveries, dispatches, acknowledgements and
      expiries can follow. */
  lemma {:induction false} Quiesces(cfg: Cfg, s: State, steps: seq<Step>)
    requires Inv(cfg, s) && Run(cfg, s, steps)
    requires forall i | 0 <= i < |steps| :: IsProtocol(steps[i])
    ensures Inv(cfg, Final(cfg, s, steps))
    ensures |steps| + Worth(Work, cfg, Final(cfg, s, steps).svcs) <= Worth(Work, cfg, s.svcs)
    ensures |steps| <= Worth(Work, cfg, s.svcs)
  {
    if steps != [] {
      var n := |steps| - 1;
      Quiesces(cfg, s, steps[..n]);
      var t := Final(cfg, s, steps[..n]);
      StepIsPaid(Work, cfg, t, steps[n]);
      StepKeepsInv(cfg, t, steps[n]);
    }
    WorthPositive(Work, cfg, Final(cfg, s, steps));
  }
}
