/** Option and Result, used wherever the code returns None or raises. */
module Wrappers {

  datatype Option<+T> = None | Some(value: T)

  datatype Result<+T, +E> = Ok(value: T) | Raised(error: E)
}

/** The unit of transport. Serialising an envelope and reading it back gives the
    same envelope; bytes written by somebody else may not be readable at all. */
module Events {

  datatype Envelope = Envelope(eventId: string, eventType: string, payload: map<string, string>)
}

/** Sums over the first n naturals, and how they react to one changed term. */
module Sums {

  ghost function Upto(n: nat, f: nat -> int): int {
    if n == 0 then 0 else Upto(n - 1, f) + f(n - 1)
  }

  lemma {:induction false} UptoSame(n: nat, f: nat -> int, h: nat -> int)
    requires forall i: nat | i < n :: f(i) == h(i)
    ensures Upto(n, f) == Upto(n, h)
  {
    if n > 0 { UptoSame(n - 1, f, h); }
  }

  lemma {:induction false} UptoChange(n: nat, f: nat -> int, h: nat -> int, k: nat)
    requires k < n
    requires forall i: nat | i < n && i != k :: f(i) == h(i)
    ensures Upto(n, h) - h(k) == Upto(n, f) - f(k)
  {
    if k == n - 1 { UptoSame(n - 1, f, h); } else { UptoChange(n - 1, f, h, k); }
  }

  lemma {:induction false} UptoBound(n: nat, f: nat -> int, h: nat -> int)
    requires forall i: nat | i < n :: f(i) <= h(i)
    ensures Upto(n, f) <= Upto(n, h)
  {
    if n > 0 { UptoBound(n - 1, f, h); }
  }

  lemma {:induction false} UptoConst(n: nat, f: nat -> int, c: int)
    requires forall i: nat | i < n :: f(i) == c
    ensures Upto(n, f) == n * c
  {
    if n > 0 {
      UptoConst(n - 1, f, c);
      assert n * c == (n - 1) * c + c;
    }
  }

  lemma {:induction false} UptoAtLeast(n: nat, f: nat -> int, k: nat)
    requires k < n
    requires forall i: nat | i < n :: f(i) >= 0
    ensures Upto(n, f) >= f(k)
  {
    if n > 0 {
      UptoNonNegative(n - 1, f);
      if k < n - 1 { UptoAtLeast(n - 1, f, k); }
    }
  }

  lemma {:induction false} UptoNonNegative(n: nat, f: nat -> int)
    requires forall i: nat | i < n :: f(i) >= 0
    ensures Upto(n, f) >= 0
  {
    if n > 0 { UptoNonNegative(n - 1, f); }
  }

  lemma {:induction false} UptoShift(n: nat, f: nat -> int, h: nat -> int, c: int)
    requires forall i: nat | i < n :: f(i) <= h(i) + c
    ensures Upto(n, f) <= Upto(n, h) + n * c
  {
    if n > 0 {
      UptoShift(n - 1, f, h, c);
      assert n * c == (n - 1) * c + c;
    }
  }

  /** Sum of f over the elements of a sequence. */
  ghost function Total<T(!new)>(xs: seq<T>, f: T -> int): int {
    if xs == [] then 0 else Total(xs[..|xs| - 1], f) + f(xs[|xs| - 1])
  }

  function Without<T>(xs: seq<T>, i: nat): seq<T>
    requires i < |xs|
  {
    xs[..i] + xs[i + 1..]
  }

  lemma TotalAppend<T(!new)>(xs: seq<T>, x: T, f: T -> int)
    ensures Total(xs + [x], f) == Total(xs, f) + f(x)
  {
    assert (xs + [x])[..|xs|] == xs;
  }

  lemma {:induction false} TotalReplace<T(!new)>(xs: seq<T>, i: nat, x: T, f: T -> int)
    requires i < |xs|
    ensures Total(xs[i := x], f) == Total(xs, f) - f(xs[i]) + f(x)
  {
    var n := |xs| - 1;
    if i < n {
      TotalReplace(xs[..n], i, x, f);
      assert xs[i := x][..n] == xs[..n][i := x];
    } else {
      assert xs[i := x][..n] == xs[..n];
    }
  }

  lemma {:induction false} TotalWithout<T(!new)>(xs: seq<T>, i: nat, f: T -> int)
    requires i < |xs|
    ensures Total(Without(xs, i), f) == Total(xs, f) - f(xs[i])
  {
    var n := |xs| - 1;
    if i < n {
      TotalWithout(xs[..n], i, f);
      assert Without(xs, i) == Without(xs[..n], i) + [xs[n]];
      TotalAppend(Without(xs[..n], i), xs[n], f);
    } else {
      assert Without(xs, i) == xs[..n];
    }
  }

  lemma {:induction false} TotalAtLeast<T(!new)>(xs: seq<T>, f: T -> int, i: nat)
    requires forall x | x in xs :: f(x) >= 0
    ensures Total(xs, f) >= 0
    ensures i < |xs| ==> Total(xs, f) >= f(xs[i])
  {
    if xs != [] {
      var n := |xs| - 1;
      assert forall x | x in xs[..n] :: x in xs;
      TotalAtLeast(xs[..n], f, i);
    }
  }

  ghost function Pow(b: nat, e: nat): nat {
    if e == 0 then 1 else b * Pow(b, e - 1)
  }
}
