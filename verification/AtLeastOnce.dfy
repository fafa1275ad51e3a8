/** The one guarantee the README claims for every infrastructure-backed broker,
    seen from a single subscribed service: an event stays outstanding until a
    dispatch of it succeeded or it was written to the dead letters. Each backend
    machine is shown to take only the moves below. */
module AtLeastOnce {

  /** done: a dispatch succeeded; failed: a dispatch ran all receivers and one raised. */
  datatype Bus<!E> = Bus(published: set<E>, outstanding: set<E>, done: set<E>, failed: set<E>, dead: set<E>)

  datatype Move<E> =
    | Stutter
    | Publish(e: E)    // a new event reaches the service
    | Duplicate(e: E)  // one more copy of a known event becomes deliverable
    | Succeed(e: E)    // every receiver of the service returned
    | Fail(e: E)       // every receiver of the service was run and one raised
    | Bury(e: E)       // the service wrote the event to the dead letters
    | Retire(e: E)     // the last deliverable copy is gone

  ghost predicate Can<E(!new)>(b: Bus<E>, m: Move<E>) {
    match m
    case Stutter => true
    case Publish(e) => e !in b.published
    case Duplicate(e) => e in b.published
    case Succeed(e) => e in b.published
    case Fail(e) => e in b.published
    case Bury(e) => e in b.failed
    case Retire(e) => e in b.done || e in b.dead
  }

  ghost function Do<E(!new)>(b: Bus<E>, m: Move<E>): Bus<E> {
    match m
    case Stutter => b
    case Publish(e) => b.(published := b.published + {e}, outstanding := b.outstanding + {e})
    case Duplicate(e) => b.(outstanding := b.outstanding + {e})
    case Succeed(e) => b.(done := b.done + {e})
    case Fail(e) => b.(failed := b.failed + {e})
    case Bury(e) => b.(dead := b.dead + {e})
    case Retire(e) => b.(outstanding := b.outstanding - {e})
  }

  ghost function After<E(!new)>(b: Bus<E>, moves: seq<Move<E>>): Bus<E> {
    if moves == [] then b else Do(After(b, moves[..|moves| - 1]), moves[|moves| - 1])
  }

  ghost predicate Legal<E(!new)>(b: Bus<E>, moves: seq<Move<E>>) {
    moves == [] ||
    var n := |moves| - 1;
    Legal(b, moves[..n]) && Can(After(b, moves[..n]), moves[n])
  }

  /** Whatever was published so far is outstanding, and nothing was settled yet. */
  ghost predicate Fresh<E(!new)>(b: Bus<E>) {
    b.outstanding == b.published && b.done == {} && b.failed == {} && b.dead == {}
  }

  ghost predicate Settles<E(!new)>(m: Move<E>, e: E) {
    m == Succeed(e) || m == Bury(e)
  }

  ghost predicate SettledBy<E(!new)>(moves: seq<Move<E>>, e: E) {
    exists k: nat :: k < |moves| && Settles(moves[k], e)
  }

  /** Safety over whole runs: whatever was published is still outstanding, unless a
      successful dispatch or a dead-letter write of it took place. */
  lemma {:induction false} NeverLost<E(!new)>(b: Bus<E>, moves: seq<Move<E>>, e: E)
    requires Fresh(b) && Legal(b, moves) && e in After(b, moves).published
    ensures e in After(b, moves).outstanding || SettledBy(moves, e)
  {
    if moves != [] {
      var n := |moves| - 1;
      var before := After(b, moves[..n]);
      SettledMeansMove(b, moves, e);
      SettledMeansMove(b, moves[..n], e);
      if e in before.published {
        NeverLost(b, moves[..n], e);
        if SettledBy(moves[..n], e) {
          var k: nat :| k < n && Settles(moves[..n][k], e);
          assert Settles(moves[k], e);
        }
      }
    }
  }

  /** done and dead record exactly the successful dispatches and the dead-letter writes. */
  lemma {:induction false} SettledMeansMove<E(!new)>(b: Bus<E>, moves: seq<Move<E>>, e: E)
    requires Fresh(b) && Legal(b, moves)
    ensures e in After(b, moves).done || e in After(b, moves).dead <==> SettledBy(moves, e)
  {
    if moves != [] {
      var n := |moves| - 1;
      SettledMeansMove(b, moves[..n], e);
      if SettledBy(moves[..n], e) {
        var k: nat :| k < n && Settles(moves[..n][k], e);
        assert Settles(moves[k], e);
      }
      if SettledBy(moves, e) {
        var k: nat :| k < |moves| && Settles(moves[k], e);
        if k < n { assert Settles(moves[..n][k], e); }
      }
    }
  }

  /** At every moment the published events are exactly the outstanding, done and dead
      ones: none is lost, and no service ever acts on an event it was not sent. */
  lemma {:induction false} NothingButPublished<E(!new)>(b: Bus<E>, moves: seq<Move<E>>)
    requires Fresh(b) && Legal(b, moves)
    ensures var t := After(b, moves); t.published == t.outstanding + t.done + t.dead && t.failed <= t.published
  {
    if moves != [] { NothingButPublished(b, moves[..|moves| - 1]); }
  }

  /** Nothing is dead-lettered unseen: before every dead-letter write of an event its
      receivers were run and one of them raised. */
  lemma {:induction false} BuriedOnlyAfterFailing<E(!new)>(b: Bus<E>, moves: seq<Move<E>>, e: E)
    requires Fresh(b) && Legal(b, moves)
    ensures e in After(b, moves).failed <==> Fail(e) in moves
    ensures forall k: nat | k < |moves| && moves[k] == Bury(e) :: Fail(e) in moves[..k]
  {
    if moves != [] {
      var n := |moves| - 1;
      BuriedOnlyAfterFailing(b, moves[..n], e);
      assert moves == moves[..n] + [moves[n]];
      assert forall k: nat | k < n :: moves[..n][k] == moves[k] && moves[..n][..k] == moves[..k];
    }
  }

  // ----- renaming events

  ghost predicate Injective<E(!new), F(!new)>(f: E -> F) { forall a, b :: f(a) == f(b) ==> a == b }

  ghost function Image<E(!new), F>(f: E -> F, s: set<E>): set<F> { set e | e in s :: f(e) }

  ghost function Renamed<E(!new), F>(f: E -> F, b: Bus<E>): Bus<F> {
    Bus(Image(f, b.published), Image(f, b.outstanding), Image(f, b.done), Image(f, b.failed), Image(f, b.dead))
  }

  ghost function RenamedMove<E(!new), F>(f: E -> F, m: Move<E>): Move<F> {
    match m
    case Stutter => Stutter
    case Publish(e) => Publish(f(e))
    case Duplicate(e) => Duplicate(f(e))
    case Succeed(e) => Succeed(f(e))
    case Fail(e) => Fail(f(e))
    case Bury(e) => Bury(f(e))
    case Retire(e) => Retire(f(e))
  }

  lemma RenamedStep<E(!new), F(!new)>(f: E -> F, b: Bus<E>, m: Move<E>)
    requires Injective(f) && Can(b, m)
    ensures Can(Renamed(f, b), RenamedMove(f, m))
    ensures Renamed(f, Do(b, m)) == Do(Renamed(f, b), RenamedMove(f, m))
  {
    if !m.Stutter? {
      forall s: set<E>
        ensures Image(f, s + {m.e}) == Image(f, s) + {f(m.e)} && Image(f, s - {m.e}) == Image(f, s) - {f(m.e)}
        ensures f(m.e) in Image(f, s) <==> m.e in s
      {
        ImageOfOne(f, s, m.e);
      }
    }
  }

  lemma ImageOfOne<E(!new), F(!new)>(f: E -> F, s: set<E>, e: E)
    requires Injective(f)
    ensures Image(f, s + {e}) == Image(f, s) + {f(e)} && Image(f, s - {e}) == Image(f, s) - {f(e)}
    ensures f(e) in Image(f, s) <==> e in s
  {
  }

  /** Runs can be put together from pieces. */
  lemma {:induction false} Joins<E(!new)>(b: Bus<E>, left: seq<Move<E>>, right: seq<Move<E>>)
    requires Legal(b, left) && Legal(After(b, left), right)
    ensures Legal(b, left + right) && After(b, left + right) == After(After(b, left), right)
  {
    if right == [] {
      assert left + right == left;
    } else {
      var n := |right| - 1;
      Joins(b, left, right[..n]);
      assert (left + right)[..|left| + n] == left + right[..n];
    }
  }

  lemma JoinsOne<E(!new)>(b: Bus<E>, left: seq<Move<E>>, m: Move<E>)
    requires Legal(b, left) && Can(After(b, left), m)
    ensures Legal(b, left + [m]) && After(b, left + [m]) == Do(After(b, left), m)
  {
    assert (left + [m])[..|left|] == left;
  }
}
