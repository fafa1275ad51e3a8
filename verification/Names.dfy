/** Names built by joining parts with a separator, and when two of them coincide. */
module Names {

  lemma {:induction false} FirstSeparator(sep: char, a: string, x: string, b: string, y: string)
    requires sep !in a && sep !in b && a + [sep] + x == b + [sep] + y
    ensures a == b && x == y
  {
    var s, t := a + [sep] + x, b + [sep] + y;
    assert forall i | 0 <= i < |a| :: s[i] == a[i] && s[i] != sep;
    assert forall i | 0 <= i < |b| :: t[i] == b[i] && t[i] != sep;
    assert s[|a|] == sep && t[|b|] == sep;
    assert |a| == |b|;
    assert a == s[..|a|] == t[..|b|] == b;
    assert x == s[|a| + 1..] == t[|b| + 1..] == y;
  }

  lemma LastSeparator(sep: char, a: string, x: string, b: string, y: string)
    requires sep !in x && sep !in y && a + [sep] + x == b + [sep] + y
    ensures a == b && x == y
  {
    var s, t := a + [sep] + x, b + [sep] + y;
    assert forall i | |a| < i < |s| :: s[i] == x[i - |a| - 1] && s[i] != sep;
    assert forall i | |b| < i < |t| :: t[i] == y[i - |b| - 1] && t[i] != sep;
    assert s[|a|] == sep && t[|b|] == sep;
    assert |a| == |b|;
    assert a == s[..|a|] == t[..|b|] == b;
    assert x == s[|a| + 1..] == t[|b| + 1..] == y;
  }

  /** Two strings can be extended to the same one exactly when one begins the other. */
  lemma MeetIff(a: string, b: string)
    ensures (exists x: string, y: string :: a + x == b + y) <==> a <= b || b <= a
  {
    if a <= b { assert a + b[|a|..] == b + []; }
    if b <= a { assert a + [] == b + a[|b|..]; }
    if x: string, y: string :| a + x == b + y {
      var s := a + x;
      assert a == s[..|a|] && b == s[..|b|];
    }
  }

  // ----- the cache of remote data

  const REMOTE := "django_event_bus:remote"

  /** Key of a remote resource; pk is the text of the primary key. */
  function RemoteKey(service: string, resource: string, pk: string): string {
    REMOTE + ":" + service + ":" + resource + ":" + pk
  }

  /** Resources whose service and resource names contain no colon never share a key. */
  lemma RemoteKeyInjective(s1: string, r1: string, p1: string, s2: string, r2: string, p2: string)
    requires ':' !in s1 && ':' !in r1 && ':' !in s2 && ':' !in r2
    ensures RemoteKey(s1, r1, p1) == RemoteKey(s2, r2, p2) <==> s1 == s2 && r1 == r2 && p1 == p2
  {
    if RemoteKey(s1, r1, p1) == RemoteKey(s2, r2, p2) {
      var n := |REMOTE| + 1;
      assert RemoteKey(s1, r1, p1)[n..] == s1 + [':'] + (r1 + [':'] + p1);
      assert RemoteKey(s2, r2, p2)[n..] == s2 + [':'] + (r2 + [':'] + p2);
      FirstSeparator(':', s1, r1 + [':'] + p1, s2, r2 + [':'] + p2);
      FirstSeparator(':', r1, p1, r2, p2);
    }
  }

  function ResourceKey(service: string, resource: string): string { service + ":" + resource + ":" }

  /** In general two resources can share a key, for some primary keys, exactly when
      "service:resource:" of one of them begins that of the other. */
  lemma RemoteKeysMeetIff(s1: string, r1: string, s2: string, r2: string)
    ensures (exists p1: string, p2: string :: RemoteKey(s1, r1, p1) == RemoteKey(s2, r2, p2))
            <==> ResourceKey(s1, r1) <= ResourceKey(s2, r2) || ResourceKey(s2, r2) <= ResourceKey(s1, r1)
  {
    var a, b := ResourceKey(s1, r1), ResourceKey(s2, r2);
    MeetIff(a, b);
    forall p1: string, p2: string
      ensures RemoteKey(s1, r1, p1) == RemoteKey(s2, r2, p2) <==> a + p1 == b + p2
    {
      var n := |REMOTE| + 1;
      assert RemoteKey(s1, r1, p1)[..n] == REMOTE + ":" == RemoteKey(s2, r2, p2)[..n];
      assert RemoteKey(s1, r1, p1)[n..] == a + p1 && RemoteKey(s2, r2, p2)[n..] == b + p2;
      assert RemoteKey(s1, r1, p1) == (REMOTE + ":") + (a + p1);
      assert RemoteKey(s2, r2, p2) == (REMOTE + ":") + (b + p2);
    }
  }

  /** With a colon in a service name two resources can share a key. */
  lemma RemoteKeyCollision()
    ensures RemoteKey("a:b", "c", "1") == RemoteKey("a", "b:c", "1")
  {
    assert RemoteKey("a:b", "c", "1") == REMOTE + ":a:b:c:1";
    assert RemoteKey("a", "b:c", "1") == REMOTE + ":a:b:c:1";
  }

  /** Counter of one caller in one window; window is a decimal number. */
  function RateKey(key: string, window: string): string {
    REMOTE + ":ratelimit:" + key + ":" + window
  }

  lemma RateKeyInjective(k1: string, w1: string, k2: string, w2: string)
    requires ':' !in w1 && ':' !in w2
    ensures RateKey(k1, w1) == RateKey(k2, w2) <==> k1 == k2 && w1 == w2
  {
    if RateKey(k1, w1) == RateKey(k2, w2) {
      var n := |REMOTE| + 11;
      assert RateKey(k1, w1)[n..] == k1 + [':'] + w1;
      assert RateKey(k2, w2)[n..] == k2 + [':'] + w2;
      LastSeparator(':', k1, w1, k2, w2);
    }
  }

  /** Counters and resources live in one cache. A resource of a service can meet a
      counter exactly when that service is called "ratelimit". */
  lemma CountersAndResourcesMeetIff(service: string)
    requires ':' !in service
    ensures (exists r: string, p: string, k: string, w: string :: RemoteKey(service, r, p) == RateKey(k, w))
            <==> service == "ratelimit"
  {
    if service == "ratelimit" {
      assert RemoteKey(service, "k", "0") == RateKey("k", "0");
    }
    forall r: string, p: string, k: string, w: string | RemoteKey(service, r, p) == RateKey(k, w)
      ensures service == "ratelimit"
    {
      var n := |REMOTE| + 1;
      assert RemoteKey(service, r, p)[n..] == service + [':'] + (r + [':'] + p);
      assert RateKey(k, w)[n..] == "ratelimit" + [':'] + (k + [':'] + w);
      FirstSeparator(':', service, r + [':'] + p, "ratelimit", k + [':'] + w);
    }
  }

  // ----- queues of the RabbitMQ backend, streams of the Redis backend

  function MainQueue(prefix: string, service: string, eventType: string): string {
    prefix + "." + service + "." + eventType
  }

  function RetryQueue(prefix: string, service: string, eventType: string): string {
    MainQueue(prefix, service, eventType) + ".retry"
  }

  function DlqQueue(prefix: string, service: string, eventType: string): string {
    MainQueue(prefix, service, eventType) + ".dlq"
  }

  /** Event types contain dots, so it takes service names without dots to keep the
      queues of different services apart; and then a main queue is the retry queue of
      another type exactly when the types differ by that suffix. */
  lemma QueuesApart(prefix: string, s1: string, e1: string, s2: string, e2: string)
    requires '.' !in s1 && '.' !in s2
    ensures MainQueue(prefix, s1, e1) == MainQueue(prefix, s2, e2) <==> s1 == s2 && e1 == e2
    ensures RetryQueue(prefix, s1, e1) == MainQueue(prefix, s2, e2) <==> s1 == s2 && e2 == e1 + ".retry"
    ensures DlqQueue(prefix, s1, e1) == MainQueue(prefix, s2, e2) <==> s1 == s2 && e2 == e1 + ".dlq"
  {
    QueueIff(prefix, s1, e1, s2, e2);
    QueueIff(prefix, s1, e1 + ".retry", s2, e2);
    QueueIff(prefix, s1, e1 + ".dlq", s2, e2);
    assert RetryQueue(prefix, s1, e1) == MainQueue(prefix, s1, e1 + ".retry");
    assert DlqQueue(prefix, s1, e1) == MainQueue(prefix, s1, e1 + ".dlq");
  }

  lemma QueueIff(prefix: string, s1: string, e1: string, s2: string, e2: string)
    requires '.' !in s1 && '.' !in s2
    ensures MainQueue(prefix, s1, e1) == MainQueue(prefix, s2, e2) <==> s1 == s2 && e1 == e2
  {
    if MainQueue(prefix, s1, e1) == MainQueue(prefix, s2, e2) {
      var n := |prefix| + 1;
      assert MainQueue(prefix, s1, e1)[n..] == s1 + ['.'] + e1;
      assert MainQueue(prefix, s2, e2)[n..] == s2 + ['.'] + e2;
      FirstSeparator('.', s1, e1, s2, e2);
    }
  }

  /** In general the queues of two services can meet, for some event types, exactly when
      "service." of one of them begins that of the other. */
  lemma QueuesMeetIff(prefix: string, s1: string, s2: string)
    ensures (exists e1: string, e2: string :: MainQueue(prefix, s1, e1) == MainQueue(prefix, s2, e2))
            <==> s1 + "." <= s2 + "." || s2 + "." <= s1 + "."
  {
    var a, b := s1 + ".", s2 + ".";
    MeetIff(a, b);
    forall e1: string, e2: string
      ensures MainQueue(prefix, s1, e1) == MainQueue(prefix, s2, e2) <==> a + e1 == b + e2
    {
      var n := |prefix| + 1;
      assert MainQueue(prefix, s1, e1)[n..] == a + e1 && MainQueue(prefix, s2, e2)[n..] == b + e2;
      assert MainQueue(prefix, s1, e1) == (prefix + ".") + (a + e1);
      assert MainQueue(prefix, s2, e2) == (prefix + ".") + (b + e2);
    }
  }

  /** With a dot in a service name two services can share a queue. */
  lemma QueueCollision(prefix: string)
    ensures MainQueue(prefix, "auth", "users.created") == MainQueue(prefix, "auth.users", "created")
  {
    assert MainQueue(prefix, "auth", "users.created") == prefix + ".auth.users.created";
    assert MainQueue(prefix, "auth.users", "created") == prefix + ".auth.users.created";
  }

  function StreamName(prefix: string, eventType: string): string { prefix + ":" + eventType }

  function DlqStream(prefix: string, eventType: string): string { StreamName(prefix, eventType) + ":dlq" }

  /** The dead-letter stream of u is the stream of an event type exactly when that
      type is spelled u + ":dlq". */
  lemma DlqStreamIsStreamIff(prefix: string, t: string, u: string)
    ensures DlqStream(prefix, u) == StreamName(prefix, t) <==> t == u + ":dlq"
  {
    var n := |prefix| + 1;
    assert StreamName(prefix, t)[n..] == t;
    assert DlqStream(prefix, u)[n..] == u + ":dlq";
    if t == u + ":dlq" {
      assert DlqStream(prefix, u) == StreamName(prefix, t);
    }
  }
}
