/** Choosing the process behind a flow from the events that mention it. */
module ProcessSelection {
  import opened Wrappers

  datatype Network = Tcp | Udp
  datatype Socket = Socket(address: string, port: nat)
  datatype ProcessInfo = ProcessInfo(name: string, path: string, package: string, userId: Option<int>)

  /** Times are nanoseconds since the epoch. */
  datatype CachedFlow = CachedFlow(
    observedAt: nat,
    network: Network,
    source: Option<Socket>,
    destination: Option<Socket>,
    process: ProcessInfo)

  datatype Query = Query(network: Network, source: Socket, destination: Option<Socket>, now: nat)

  const SECOND := 1_000_000_000
  const EVENT_TTL := 60 * SECOND
  const WEAK_EVENT_TTL := 3 * SECOND
  const DESTINATION_SCORE := 8
  const SOURCE_SCORE := 5
  const SOURCE_PORT_SCORE := 3
  const STRONG_SCORE := DESTINATION_SCORE + SOURCE_PORT_SCORE

  /** An event from the future has no age. */
  function Age(now: nat, observedAt: nat): nat {
    if observedAt > now then 0 else now - observedAt
  }

  function MatchScore(event: CachedFlow, source: Socket, destination: Option<Socket>): Option<nat> {
    if event.destination.Some? && destination != event.destination then None
    else
      var d := if event.destination.Some? then DESTINATION_SCORE else 0;
      match event.source
      case None => if d > 0 then Some(d) else None
      case Some(candidate) =>
        if candidate == source then Some(d + SOURCE_SCORE)
        else if candidate.port == source.port then Some(d + SOURCE_PORT_SCORE)
        else None
  }

  function ScoreOf(event: CachedFlow, q: Query): Option<nat> {
    if event.network == q.network then MatchScore(event, q.source, q.destination) else None
  }

  predicate Strong(event: CachedFlow, q: Query) {
    ScoreOf(event, q).Some? && ScoreOf(event, q).value >= STRONG_SCORE
  }

  predicate FreshWeak(event: CachedFlow, q: Query) {
    && ScoreOf(event, q).Some? && ScoreOf(event, q).value < STRONG_SCORE
    && Age(q.now, event.observedAt) < WEAK_EVENT_TTL
  }

  /** A match is strong exactly when the event names both ends of the flow. */
  lemma StrongNamesBothEnds(event: CachedFlow, q: Query)
    requires ScoreOf(event, q).Some?
    ensures Strong(event, q) <==> event.source.Some? && event.destination.Some?
  {
  }

  /** Lexicographic order on score and time. */
  predicate AtLeast(a: CachedFlow, b: CachedFlow, q: Query)
    requires Strong(a, q) && Strong(b, q)
  {
    var x, y := ScoreOf(a, q).value, ScoreOf(b, q).value;
    x > y || (x == y && a.observedAt >= b.observedAt)
  }

  /** The last of the greatest strong matches among the first `n` events. */
  predicate Best(events: seq<CachedFlow>, n: nat, q: Query, i: int)
    requires n <= |events|
  {
    && 0 <= i < n && Strong(events[i], q)
    && forall j :: 0 <= j < n && Strong(events[j], q) ==>
         AtLeast(events[i], events[j], q) && (j > i ==> !AtLeast(events[j], events[i], q))
  }

  predicate AnyStrong(events: seq<CachedFlow>, q: Query) {
    exists i :: 0 <= i < |events| && Strong(events[i], q)
  }

  /** Some fresh weak match names this process and none names another. */
  predicate Unanimous(events: seq<CachedFlow>, q: Query, p: ProcessInfo) {
    && (exists i :: 0 <= i < |events| && FreshWeak(events[i], q))
    && (forall i :: 0 <= i < |events| && FreshWeak(events[i], q) ==> events[i].process == p)
  }

  /** What the answer must be: the best strong match, or what all fresh weak matches agree on. */
  ghost predicate IsAnswer(events: seq<CachedFlow>, q: Query, r: Option<ProcessInfo>) {
    if AnyStrong(events, q) then
      exists i :: Best(events, |events|, q, i) && r == Some(events[i].process)
    else
      forall p :: r == Some(p) <==> Unanimous(events, q, p)
  }

  /** `select_process`: one pass with a running best, then the vote of the weak matches. */
  method SelectProcess(events: seq<CachedFlow>, q: Query) returns (r: Option<ProcessInfo>)
    ensures IsAnswer(events, q, r)
  {
    var best := -1;
    var weak: seq<CachedFlow> := [];
    for i := 0 to |events|
      invariant best == -1 ==> forall j :: 0 <= j < i ==> !Strong(events[j], q)
      invariant best != -1 ==> Best(events, i, q, best)
      invariant forall j :: 0 <= j < i && FreshWeak(events[j], q) ==> events[j] in weak
      invariant forall w :: w in weak ==> w in events && FreshWeak(w, q)
    {
      if Strong(events[i], q) {
        if best == -1 || AtLeast(events[i], events[best], q) {
          best := i;
        }
      } else if FreshWeak(events[i], q) {
        weak := weak + [events[i]];
      }
    }
    if best != -1 {
      return Some(events[best].process);
    }
    r := Vote(weak);
    WeakVote(events, weak, q, r);
  }

  /** All weak matches, or none: the newest one speaks for them only when they agree. */
  method Vote(weak: seq<CachedFlow>) returns (r: Option<ProcessInfo>)
    ensures forall p :: r == Some(p) <==> weak != [] && forall w :: w in weak ==> w.process == p
  {
    if weak == [] {
      return None;
    }
    var newest := weak[0];
    for i := 1 to |weak|
      invariant newest in weak[..i] && forall j :: 0 <= j < i ==> weak[j].observedAt <= newest.observedAt
    {
      if weak[i].observedAt >= newest.observedAt {
        newest := weak[i];
      }
    }
    for i := 0 to |weak|
      invariant forall j :: 0 <= j < i ==> weak[j].process == newest.process
    {
      if weak[i].process != newest.process {
        assert weak[i] in weak && newest in weak;
        return None;
      }
    }
    r := Some(newest.process);
  }

  lemma WeakVote(events: seq<CachedFlow>, weak: seq<CachedFlow>, q: Query, r: Option<ProcessInfo>)
    requires !AnyStrong(events, q)
    requires forall j :: 0 <= j < |events| && FreshWeak(events[j], q) ==> events[j] in weak
    requires forall w :: w in weak ==> w in events && FreshWeak(w, q)
    requires forall p :: r == Some(p) <==> weak != [] && forall w :: w in weak ==> w.process == p
    ensures IsAnswer(events, q, r)
  {
    forall p ensures (weak != [] && forall w :: w in weak ==> w.process == p) <==> Unanimous(events, q, p) {
      if weak != [] {
        assert weak[0] in weak;
        var i :| 0 <= i < |events| && events[i] == weak[0];
      }
    }
  }

  // ------------------------------------------------------------ consequences

  lemma AnswerUnique(events: seq<CachedFlow>, q: Query, r: Option<ProcessInfo>, t: Option<ProcessInfo>)
    requires IsAnswer(events, q, r) && IsAnswer(events, q, t)
    ensures r == t
  {
    if AnyStrong(events, q) {
      var i :| Best(events, |events|, q, i) && r == Some(events[i].process);
      var j :| Best(events, |events|, q, j) && t == Some(events[j].process);
    } else if r.Some? {
      assert t == Some(r.value);
    } else if t.Some? {
      assert r == Some(t.value);
    }
  }

  /** A strong match that no other strong match exceeds in score and time. */
  ghost predicate Champion(events: seq<CachedFlow>, q: Query, e: CachedFlow) {
    e in events && Strong(e, q) && forall f :: f in events && Strong(f, q) ==> AtLeast(e, f, q)
  }

  /** A strong match answers before any weak one, and it is the greatest in score and time. */
  lemma StrongAnswers(events: seq<CachedFlow>, q: Query, r: Option<ProcessInfo>)
    requires IsAnswer(events, q, r) && AnyStrong(events, q)
    ensures exists e :: Champion(events, q, e) && r == Some(e.process)
  {
    var i :| Best(events, |events|, q, i) && r == Some(events[i].process);
    var e := events[i];
    forall f | f in events && Strong(f, q) ensures AtLeast(e, f, q) {
      var j :| 0 <= j < |events| && events[j] == f;
    }
    assert Champion(events, q, e);
  }

  /** Champions tie in score and time; they disagree when they name different processes. */
  ghost predicate ChampionsAgree(events: seq<CachedFlow>, q: Query) {
    forall e, f :: Champion(events, q, e) && Champion(events, q, f) ==> e.process == f.process
  }

  lemma SameMembers(a: seq<CachedFlow>, b: seq<CachedFlow>)
    requires multiset(a) == multiset(b)
    ensures forall e :: e in a <==> e in b
  {
    assert forall e :: e in a <==> e in multiset(a);
    assert forall e :: e in b <==> e in multiset(b);
  }

  lemma UnanimousCarries(a: seq<CachedFlow>, b: seq<CachedFlow>, q: Query, p: ProcessInfo)
    requires forall e :: e in a <==> e in b
    ensures Unanimous(a, q, p) ==> Unanimous(b, q, p)
  {
    if Unanimous(a, q, p) {
      var i :| 0 <= i < |a| && FreshWeak(a[i], q);
      assert a[i] in b;
      forall j | 0 <= j < |b| && FreshWeak(b[j], q) ensures b[j].process == p {
        assert b[j] in a;
      }
    }
  }

  /** Unless strong matches tie, the answer does not depend on the order of the events. */
  lemma OrderDoesNotMatter(
    a: seq<CachedFlow>, b: seq<CachedFlow>, q: Query, r: Option<ProcessInfo>, t: Option<ProcessInfo>)
    requires multiset(a) == multiset(b) && ChampionsAgree(a, q)
    requires IsAnswer(a, q, r) && IsAnswer(b, q, t)
    ensures r == t
  {
    SameMembers(a, b);
    if AnyStrong(a, q) {
      var i :| 0 <= i < |a| && Strong(a[i], q);
      assert a[i] in b;
      StrongAnswers(a, q, r);
      StrongAnswers(b, q, t);
      var f :| Champion(b, q, f) && t == Some(f.process);
      assert Champion(a, q, f);
    } else {
      forall i | 0 <= i < |b| ensures !Strong(b[i], q) {
        assert b[i] in a;
      }
      forall p ensures Unanimous(a, q, p) <==> Unanimous(b, q, p) {
        UnanimousCarries(a, b, q, p);
        UnanimousCarries(b, a, q, p);
      }
      assert forall p :: r == Some(p) <==> Unanimous(a, q, p);
      assert forall p :: t == Some(p) <==> Unanimous(a, q, p);
    }
  }

  /** Any champion can be made the answer by reading it last. */
  lemma ChampionReadLast(events: seq<CachedFlow>, q: Query, e: CachedFlow) returns (reordered: seq<CachedFlow>)
    requires Champion(events, q, e)
    ensures multiset(reordered) == multiset(events) && IsAnswer(reordered, q, Some(e.process))
  {
    var i :| 0 <= i < |events| && events[i] == e;
    reordered := events[..i] + events[i + 1..] + [e];
    assert events == events[..i] + [e] + events[i + 1..];
    SameMembers(events, reordered);
    var last := |reordered| - 1;
    assert reordered[last] == e;
    forall j | 0 <= j < |reordered| && Strong(reordered[j], q) ensures AtLeast(e, reordered[j], q) {
      assert reordered[j] in events;
    }
    assert Best(reordered, |reordered|, q, last);
  }

  /** So the answer is the same for every order exactly when the champions agree. */
  lemma OrderMattersOnlyForTies(events: seq<CachedFlow>, q: Query)
    ensures ChampionsAgree(events, q) <==>
      (forall a, b, r, t ::
         multiset(a) == multiset(events) == multiset(b) && IsAnswer(a, q, r) && IsAnswer(b, q, t) ==> r == t)
  {
    if ChampionsAgree(events, q) {
      forall a, b, r, t | multiset(a) == multiset(events) == multiset(b) && IsAnswer(a, q, r) && IsAnswer(b, q, t)
        ensures r == t
      {
        SameMembers(a, events);
        assert forall e :: Champion(a, q, e) ==> Champion(events, q, e);
        OrderDoesNotMatter(a, b, q, r, t);
      }
    } else {
      var e, f :| Champion(events, q, e) && Champion(events, q, f) && e.process != f.process;
      var a := ChampionReadLast(events, q, e);
      var b := ChampionReadLast(events, q, f);
      assert IsAnswer(a, q, Some(e.process)) && IsAnswer(b, q, Some(f.process));
    }
  }
}
