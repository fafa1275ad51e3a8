/** The table of receivers per event type. A receiver is identified by the object
    it is, as Python compares functions and partials. */
module Registry {

  type Receiver = nat
  type Handlers = map<string, seq<Receiver>>

  function ReceiversOf(handlers: Handlers, eventType: string): seq<Receiver> {
    if eventType in handlers then handlers[eventType] else []
  }

  class Registry {
    var handlers: Handlers

    /** Every listed type has a receiver, and no receiver is listed twice. */
    ghost predicate Valid()
      reads this
    {
      forall t | t in handlers :: handlers[t] != [] && NoDuplicates(handlers[t])
    }

    constructor ()
      ensures Valid() && handlers == map[]
    {
      handlers := map[];
    }

    /** Registration order is kept; registering twice changes nothing. */
    method Register(eventType: string, handler: Receiver)
      requires Valid()
      modifies this
      ensures Valid()
      ensures handlers == old(handlers)[eventType := Registered(old(Of(eventType)), handler)]
      ensures eventType in handlers && handler in handlers[eventType]
      ensures eventType in old(handlers) ==>
                handlers[eventType] == old(handlers)[eventType]
                                       + if handler in old(handlers)[eventType] then [] else [handler]
      ensures eventType !in old(handlers) ==> handlers[eventType] == [handler]
      ensures forall t | t in old(handlers) && t != eventType :: t in handlers && handlers[t] == old(handlers)[t]
    {
      var hs := if eventType in handlers then handlers[eventType] else [];
      if handler !in hs {
        hs := hs + [handler];
      }
      handlers := handlers[eventType := hs];
    }

    function Of(eventType: string): seq<Receiver>
      reads this
    {
      ReceiversOf(handlers, eventType)
    }

    method GetReceivers(eventType: string) returns (rs: seq<Receiver>)
      requires Valid()
      ensures rs == Of(eventType) && NoDuplicates(rs)
      ensures rs == if eventType in handlers then handlers[eventType] else []
    {
      rs := if eventType in handlers then handlers[eventType] else [];
    }

    /** The types having at least one receiver. */
    method RegisteredEventTypes() returns (types: set<string>)
      requires Valid()
      ensures forall t :: t in types <==> Of(t) != []
      ensures forall t :: t in types <==> t in handlers && handlers[t] != []
    {
      types := handlers.Keys;
    }

    method Clear()
      modifies this
      ensures Valid() && handlers == map[]
    {
      handlers := map[];
    }
  }

  ghost predicate NoDuplicates(rs: seq<Receiver>) {
    forall i, j | 0 <= i < j < |rs| :: rs[i] != rs[j]
  }

  function Registered(rs: seq<Receiver>, r: Receiver): seq<Receiver> {
    if r in rs then rs else rs + [r]
  }

  /** The table entry of a type after these registrations for it, one by one. */
  ghost function RegisterAll(rs: seq<Receiver>): seq<Receiver> {
    if rs == [] then [] else Registered(RegisterAll(rs[..|rs| - 1]), rs[|rs| - 1])
  }

  ghost function FirstIndex(rs: seq<Receiver>, r: Receiver): (i: nat)
    requires r in rs
    ensures i < |rs| && rs[i] == r && r !in rs[..i]
  {
    var n := |rs| - 1;
    assert forall x | x in rs :: x in rs[..n] || x == rs[n];
    if r !in rs[..n] then n else
      var k := FirstIndex(rs[..n], r);
      assert rs[..n][..k] == rs[..k];
      k
  }

  /** The i-th listed receiver was registered before the j-th one. */
  ghost predicate Earlier(rs: seq<Receiver>, all: seq<Receiver>, i: nat, j: nat) {
    i < |all| && j < |all| && all[i] in rs && all[j] in rs && FirstIndex(rs, all[i]) < FirstIndex(rs, all[j])
  }

  /** A list of registrations amounts to each receiver once, ordered by where it was
      registered first. */
  lemma {:induction false} EachOnceInOrder(rs: seq<Receiver>)
    ensures var all := RegisterAll(rs);
            && (forall r :: r in all <==> r in rs)
            && (forall i: nat, j: nat | i < j < |all| :: Earlier(rs, all, i, j))
            && NoDuplicates(all)
  {
    if rs != [] {
      var n := |rs| - 1;
      var before, all, x := RegisterAll(rs[..n]), RegisterAll(rs), rs[n];
      EachOnceInOrder(rs[..n]);
      assert rs == rs[..n] + [x];
      assert forall r :: r in rs <==> r in rs[..n] || r == x;
      forall i: nat, j: nat | i < j < |all| ensures Earlier(rs, all, i, j) {
        assert all[i] == before[i] && all[i] in before;
        if j < |before| {
          assert Earlier(rs[..n], before, i, j);
        } else {
          assert all[j] == x && x !in rs[..n];
        }
      }
      forall i, j | 0 <= i < j < |all| ensures all[i] != all[j] { assert Earlier(rs, all, i, j); }
    }
  }
}
