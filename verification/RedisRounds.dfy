/** Poison entries cannot starve the ones behind them. Every round of the consuming
    loop reclaims the first ten idle entries of the pending list, oldest id first,
    and an entry that keeps failing is buried after a bounded number of rounds. */
module RedisRounds {
  import opened Wrappers
  import opened RedisMachine

  /** One element of the pending list, in id order. */
  datatype Row = Row(id: nat, count: nat)

  /** What happens in one round besides the claim: did the i-th claimed entry leave
      the list because it succeeded or was unreadable, and which entries were newly
      delivered and are pending at the end of the round. */
  datatype Round = Round(gone: seq<bool>, added: seq<Row>)

  /** The claimed entries that are still pending after they were dispatched. */
  function Scan(rows: seq<Row>, gone: seq<bool>, max: int): seq<Row>
    requires |gone| >= |rows|
  {
    if rows == [] then []
    else (if gone[0] || rows[0].count + 1 >= max then [] else [Row(rows[0].id, rows[0].count + 1)])
         + Scan(rows[1..], gone[1..], max)
  }

  predicate ValidRound(r: Round) {
    |r.gone| >= BATCH && forall x | x in r.added :: x.count >= 1
  }

  function Claimed(rows: seq<Row>): nat { if |rows| < BATCH then |rows| else BATCH }

  /** The pending list after one round in which every entry was idle. */
  function AfterRound(rows: seq<Row>, r: Round, max: int): seq<Row>
    requires ValidRound(r)
  {
    Scan(rows[..Claimed(rows)], r.gone, max) + rows[Claimed(rows)..] + r.added
  }

  ghost function AfterRounds(rows: seq<Row>, rounds: seq<Round>, max: int): seq<Row>
    requires forall r | r in rounds :: ValidRound(r)
    decreases |rounds|
  {
    if rounds == [] then rows else AfterRounds(AfterRound(rows, rounds[0], max), rounds[1..], max)
  }

  /** Rounds an entry with this count survives at most when it keeps failing. */
  function Lives(row: Row, max: int): nat {
    if max - row.count >= 1 then max - row.count else 1
  }

  /** Bound on the lives of any entry: a delivered entry has count at least 1. */
  function MaxLives(max: int): nat { if max <= 2 then 1 else max - 1 }

  lemma {:induction false} ScanSplits(rows: seq<Row>, a: nat, gone: seq<bool>, max: int)
    requires a <= |rows| <= |gone|
    ensures Scan(rows, gone, max) == Scan(rows[..a], gone, max) + Scan(rows[a..], gone[a..], max)
  {
    if a == 0 {
      assert rows[..0] == [] && rows[0..] == rows && gone[0..] == gone;
    } else {
      ScanSplits(rows[1..], a - 1, gone[1..], max);
      assert rows[..a][1..] == rows[1..][..a - 1];
      assert rows[1..][a - 1..] == rows[a..] && gone[1..][a - 1..] == gone[a..];
    }
  }

  /** Every survivor of a scan has one life less; the scan never grows the list. */
  lemma {:induction false} ScanAges(rows: seq<Row>, gone: seq<bool>, max: int, k: nat)
    requires |gone| >= |rows| && forall x | x in rows :: Lives(x, max) <= k + 1
    ensures |Scan(rows, gone, max)| <= |rows|
    ensures forall x | x in Scan(rows, gone, max) :: Lives(x, max) <= k && k >= 1
  {
    if rows != [] {
      assert rows[0] in rows && forall x | x in rows[1..] :: x in rows;
      ScanAges(rows[1..], gone[1..], max, k);
    }
  }

  lemma {:induction false} ScanShrinks(rows: seq<Row>, gone: seq<bool>, max: int)
    requires |gone| >= |rows|
    ensures |Scan(rows, gone, max)| <= |rows|
    ensures forall x | x in Scan(rows, gone, max) :: x.count >= 1
  {
    if rows != [] { ScanShrinks(rows[1..], gone[1..], max); }
  }

  ghost predicate Counted(rows: seq<Row>) { forall x | x in rows :: x.count >= 1 }

  lemma FrontOld(rows: seq<Row>, a: nat, max: int, k: nat)
    requires a <= |rows| && forall j: nat | j < a :: Lives(rows[j], max) <= k
    ensures forall x | x in rows[..a] :: Lives(x, max) <= k
  {
    forall x | x in rows[..a] ensures Lives(x, max) <= k {
      var j :| 0 <= j < a && rows[..a][j] == x;
      assert rows[j] == x;
    }
  }

  /** One round seen from an entry at rank i >= 10: it keeps its row, the a <= 10
      entries at the front age, and the distance to them does not grow. */
  lemma RoundMoves(rows: seq<Row>, r: Round, max: int, a: nat, i: nat, k: nat) returns (a': nat, i': nat)
    requires ValidRound(r) && a <= BATCH <= i < |rows| && Counted(rows)
    requires forall j: nat | j < a :: Lives(rows[j], max) <= k + 1
    ensures var next := AfterRound(rows, r, max);
            && Counted(next)
            && a' <= i' < |next| && a' <= a && i' - a' <= i - a
            && next[i'] == rows[i]
            && (a' > 0 ==> k >= 1)
            && (forall j: nat | j < a' :: Lives(next[j], max) <= k)
  {
    var front := rows[..BATCH];
    ScanSplits(front, a, r.gone, max);
    assert front[..a] == rows[..a];
    var old_ := Scan(rows[..a], r.gone, max);
    FrontOld(rows, a, max, k + 1);
    ScanAges(rows[..a], r.gone, max, k);
    ScanShrinks(front[a..], r.gone[a..], max);
    ScanShrinks(front, r.gone, max);
    var scanned, next := Scan(front, r.gone, max), AfterRound(rows, r, max);
    a', i' := |old_|, |scanned| + (i - BATCH);
    assert next[i'] == rows[BATCH..][i - BATCH];
    forall j: nat | j < a' ensures Lives(next[j], max) <= k { assert next[j] == old_[j]; }
    if a' > 0 { assert old_[0] in old_; }
    forall x | x in next ensures x.count >= 1 {
      assert x in scanned || x in rows[BATCH..] || x in r.added;
    }
  }

  ghost predicate InFront(rows: seq<Row>, id: nat) {
    exists i: nat :: i < |rows| && i < BATCH && rows[i].id == id
  }

  /** The first a <= 10 entries are gone within k rounds, unless the entry at rank i
      reached the front before that. */
  lemma {:induction false} FrontDrains(rows: seq<Row>, rounds: seq<Round>, max: int, a: nat, i: nat, k: nat)
      returns (j: nat, i': nat)
    requires a <= BATCH && a <= i < |rows| && Counted(rows) && k <= |rounds|
    requires forall r | r in rounds :: ValidRound(r)
    requires a > 0 ==> k >= 1
    requires forall n: nat | n < a :: Lives(rows[n], max) <= k
    ensures j <= k
    ensures var t := AfterRounds(rows, rounds[..j], max);
            && Counted(t) && i' < |t| && t[i'].id == rows[i].id
            && (i' < BATCH || (a == 0 && i' == i) || i' <= i - a)
    decreases k
  {
    if i < BATCH || a == 0 {
      j, i' := 0, i;
    } else {
      var a1, i1 := RoundMoves(rows, rounds[0], max, a, i, k - 1);
      var next := AfterRound(rows, rounds[0], max);
      var j1;
      j1, i' := FrontDrains(next, rounds[1..], max, a1, i1, k - 1);
      j := j1 + 1;
      assert rounds[..j][1..] == rounds[1..][..j1] && rounds[..j][0] == rounds[0];
    }
  }

  lemma {:induction false} RoundsJoin(rows: seq<Row>, left: seq<Round>, right: seq<Round>, max: int)
    requires forall r | r in left + right :: ValidRound(r)
    requires forall r | r in left :: ValidRound(r)
    requires forall r | r in right :: ValidRound(r)
    ensures AfterRounds(rows, left + right, max) == AfterRounds(AfterRounds(rows, left, max), right, max)
    decreases |left|
  {
    if left == [] {
      assert left + right == right;
    } else {
      assert (left + right)[1..] == left[1..] + right;
      RoundsJoin(AfterRound(rows, left[0], max), left[1..], right, max);
    }
  }

  /** No starvation: whatever the handlers do, an entry at rank r of the pending list
      is among the ten that are reclaimed after at most (r / 10) * max(1, M - 1)
      further rounds. */
  lemma {:induction false} NoStarvation(rows: seq<Row>, rounds: seq<Round>, max: int, r: nat) returns (j: nat)
    requires r < |rows| && Counted(rows) && forall x | x in rounds :: ValidRound(x)
    requires |rounds| >= (r / BATCH) * MaxLives(max)
    ensures j <= (r / BATCH) * MaxLives(max)
    ensures InFront(AfterRounds(rows, rounds[..j], max), rows[r].id)
    decreases r
  {
    if r < BATCH {
      j := 0;
      assert rows[r].id == AfterRounds(rows, rounds[..0], max)[r].id;
    } else {
      var m := MaxLives(max);
      var q := r / BATCH;
      OneMore(q, m);
      forall n: nat | n < BATCH ensures Lives(rows[n], max) <= m { assert rows[n] in rows; }
      var j1, i1 := FrontDrains(rows, rounds, max, BATCH, r, m);
      var t := AfterRounds(rows, rounds[..j1], max);
      if i1 < BATCH {
        j := j1;
        assert t[i1].id == rows[r].id;
      } else {
        assert i1 / BATCH <= q - 1 by { assert i1 <= r - BATCH; }
        Monotone(i1 / BATCH, q - 1, m);
        var j2 := NoStarvation(t, rounds[j1..], max, i1);
        j := j1 + j2;
        assert rounds[..j] == rounds[..j1] + rounds[j1..][..j2];
        RoundsJoin(rows, rounds[..j1], rounds[j1..][..j2], max);
      }
    }
  }

  lemma OneMore(q: nat, m: nat)
    requires q > 0
    ensures q * m == (q - 1) * m + m && (q - 1) * m >= 0
  {
  }

  lemma Monotone(a: nat, b: nat, m: nat)
    requires a <= b
    ensures a * m <= b * m
  {
    assert b * m - a * m == (b - a) * m;
  }
}
