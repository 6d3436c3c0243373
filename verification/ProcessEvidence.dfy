/**
What counts as evidence for a process, said of the fields of events and of the lines they stand
in: no scores, no decoding functions and no folds.
*/
module ProcessEvidence {
  import opened Wrappers
  import opened Positions
  import opened EventLines
  import opened ProcessSelection
  import opened ProcessAttribution

  // ------------------------------------------------------------------- events

  /** Every end the event names is an end of the flow, and it names one; a source may differ in its address. */
  predicate Concerns(e: CachedFlow, q: Query) {
    && e.network == q.network
    && (e.destination.Some? ==> q.destination == e.destination)
    && (e.source.Some? ==> e.source.value == q.source || e.source.value.port == q.source.port)
    && (e.source.Some? || e.destination.Some?)
  }

  predicate NamesBoth(e: CachedFlow, q: Query) {
    Concerns(e, q) && e.source.Some? && e.destination.Some?
  }

  /** A recent event that names only one end. */
  predicate Hints(e: CachedFlow, q: Query) {
    Concerns(e, q) && !(e.source.Some? && e.destination.Some?) && q.now < e.observedAt + 3_000_000_000
  }

  predicate ExactSource(e: CachedFlow, q: Query) {
    e.source == Some(q.source)
  }

  /** Between events that name both ends the exact source counts first, the time second. */
  predicate Outranks(a: CachedFlow, b: CachedFlow, q: Query) {
    || (ExactSource(a, q) && !ExactSource(b, q))
    || ((ExactSource(a, q) <==> ExactSource(b, q)) && a.observedAt > b.observedAt)
  }

  lemma ScoredIffConcerned(e: CachedFlow, q: Query)
    ensures ScoreOf(e, q).Some? <==> Concerns(e, q)
    ensures Strong(e, q) <==> NamesBoth(e, q)
    ensures FreshWeak(e, q) <==> Hints(e, q)
  {
  }

  lemma AtLeastIff(a: CachedFlow, b: CachedFlow, q: Query)
    requires Strong(a, q) && Strong(b, q)
    ensures AtLeast(a, b, q) <==> !Outranks(b, a, q)
    ensures AtLeast(a, b, q) <==>
      || (ExactSource(a, q) && !ExactSource(b, q))
      || ((ExactSource(a, q) <==> ExactSource(b, q)) && a.observedAt >= b.observedAt)
  {
  }

  /** The last of the events naming both ends that no other outranks. */
  ghost predicate Wins(events: seq<CachedFlow>, q: Query, i: int) {
    && 0 <= i < |events| && NamesBoth(events[i], q)
    && forall j :: 0 <= j < |events| && NamesBoth(events[j], q) ==>
         !Outranks(events[j], events[i], q) && (j > i ==> Outranks(events[i], events[j], q))
  }

  ghost predicate AllHint(events: seq<CachedFlow>, q: Query, p: ProcessInfo) {
    && (exists i :: 0 <= i < |events| && Hints(events[i], q))
    && (forall i :: 0 <= i < |events| && Hints(events[i], q) ==> events[i].process == p)
  }

  ghost predicate AnswersByFields(events: seq<CachedFlow>, q: Query, r: Option<ProcessInfo>) {
    if exists i :: 0 <= i < |events| && NamesBoth(events[i], q) then
      exists i :: Wins(events, q, i) && r == Some(events[i].process)
    else
      forall p :: r == Some(p) <==> AllHint(events, q, p)
  }

  lemma WinsIffBest(events: seq<CachedFlow>, q: Query, i: int)
    ensures Wins(events, q, i) <==> Best(events, |events|, q, i)
  {
    forall j | 0 <= j < |events| ensures Strong(events[j], q) <==> NamesBoth(events[j], q) {
      ScoredIffConcerned(events[j], q);
    }
    if 0 <= i < |events| && Strong(events[i], q) {
      forall j | 0 <= j < |events| && Strong(events[j], q)
        ensures AtLeast(events[i], events[j], q) <==> !Outranks(events[j], events[i], q)
        ensures AtLeast(events[j], events[i], q) <==> !Outranks(events[i], events[j], q)
      {
        AtLeastIff(events[i], events[j], q);
        AtLeastIff(events[j], events[i], q);
      }
    }
  }

  /** The selected process, from the fields of the events alone. */
  lemma AnswerByFields(events: seq<CachedFlow>, q: Query, r: Option<ProcessInfo>)
    ensures IsAnswer(events, q, r) <==> AnswersByFields(events, q, r)
  {
    forall j | 0 <= j < |events|
      ensures Strong(events[j], q) <==> NamesBoth(events[j], q)
      ensures FreshWeak(events[j], q) <==> Hints(events[j], q)
    {
      ScoredIffConcerned(events[j], q);
    }
    forall i ensures Wins(events, q, i) <==> Best(events, |events|, q, i) {
      WinsIffBest(events, q, i);
    }
    assert forall p :: AllHint(events, q, p) <==> Unanimous(events, q, p);
  }

  // -------------------------------------------------------------------- lines

  function Joined(lines: seq<Line>): Bytes {
    if lines == [] then [] else lines[0].bytes + [10] + Joined(lines[1..])
  }

  lemma JoinedCons(line: Line, lines: seq<Line>)
    ensures Joined([line] + lines) == line.bytes + [10] + Joined(lines)
  {
    assert ([line] + lines)[1..] == lines;
  }

  /** The lines and the rest are the stream. */
  lemma {:induction false} LinesRebuild(b: Bytes)
    ensures Joined(Lines(b)) + Rest(b) == b
    decreases |b|
  {
    var i := Cut(b);
    CutFinds(b);
    if i < |b| {
      var tail := b[i + 1..];
      assert Joined(Lines(b)) + Rest(b) == b[..i] + [10] + tail by {
        LinesRebuild(tail);
        JoinedCons(Line(b[..i]), Lines(tail));
        Assoc(b[..i] + [10], Joined(Lines(tail)), Rest(tail));
      }
      assert b[..i] + [10] + tail == b;
    }
  }

  predicate NoNewlines(lines: seq<Line>) {
    forall i :: 0 <= i < |lines| ==> 10 !in lines[i].bytes
  }

  /** It is cut at every newline, and only there. */
  lemma {:induction false} LinesHoldNoNewline(b: Bytes)
    ensures 10 !in Rest(b) && NoNewlines(Lines(b))
    decreases |b|
  {
    var i := Cut(b);
    CutFinds(b);
    if i < |b| {
      LinesHoldNoNewline(b[i + 1..]);
    }
  }

  /** The socket a text names, unless it does not parse or has port 0. */
  predicate NamesSocket(codec: Codec, text: Option<string>, socket: Option<Socket>) {
    var parsed := if text.Some? then codec.parse(text.value) else None;
    socket == if parsed.Some? && parsed.value.port > 0 then parsed else None
  }

  /** The flow an event line describes: a version 1 event of a named process on TCP or UDP. */
  predicate Describes(codec: Codec, line: Line, flow: CachedFlow) {
    && 0 < |line.bytes| <= 65536 && codec.decode(line.bytes).Some?
    && var e := codec.decode(line.bytes).value;
    && e.version == 1 && e.processName != ""
    && ((e.network == "tcp" && flow.network.Tcp?) || (e.network == "udp" && flow.network.Udp?))
    && flow.observedAt == e.observedAtMs * 1_000_000
    && NamesSocket(codec, e.source, flow.source) && NamesSocket(codec, e.destination, flow.destination)
    && flow.process == ProcessInfo(e.processName, e.processPath, e.signingIdentifier, e.uid)
  }

  lemma LineDescribes(codec: Codec, line: Line, flow: CachedFlow)
    ensures FlowOfLine(codec, line) == Some(flow) <==> Describes(codec, line, flow)
  {
    assert "tcp" != "udp";
  }

  ghost predicate DescribesSome(codec: Codec, line: Line) {
    exists flow :: Describes(codec, line, flow)
  }

  ghost function Described(codec: Codec, lines: seq<Line>, n: nat): set<nat>
    requires n <= |lines|
  {
    set i: nat | i < n && DescribesSome(codec, lines[i])
  }

  predicate DescribedAt(codec: Codec, lines: seq<Line>, flows: seq<CachedFlow>, positions: seq<nat>) {
    && |positions| == |flows|
    && forall k :: 0 <= k < |flows| ==> positions[k] < |lines| && Describes(codec, lines[positions[k]], flows[k])
  }

  ghost predicate DescribedBy(codec: Codec, lines: seq<Line>, flows: seq<CachedFlow>, positions: seq<nat>) {
    Lists(positions, Described(codec, lines, |lines|)) && DescribedAt(codec, lines, flows, positions)
  }

  lemma LineDescribesSome(codec: Codec, line: Line)
    ensures FlowOfLine(codec, line).Some? <==> DescribesSome(codec, line)
    ensures FlowOfLine(codec, line).Some? ==> Describes(codec, line, FlowOfLine(codec, line).value)
  {
    if FlowOfLine(codec, line).Some? {
      LineDescribes(codec, line, FlowOfLine(codec, line).value);
    } else if DescribesSome(codec, line) {
      var flow :| Describes(codec, line, flow);
      LineDescribes(codec, line, flow);
    }
  }

  lemma DescribedNext(codec: Codec, lines: seq<Line>, n: nat)
    requires n < |lines|
    ensures Described(codec, lines, n + 1)
      == Described(codec, lines, n) + if DescribesSome(codec, lines[n]) then {n} else {}
  {
  }

  lemma {:induction false} DecodedPrefix(codec: Codec, lines: seq<Line>, n: nat) returns (positions: seq<nat>)
    requires n <= |lines|
    ensures Lists(positions, Described(codec, lines, n))
    ensures DescribedAt(codec, lines, Decoded(codec, lines[..n]), positions)
  {
    if n == 0 {
      positions := [];
    } else {
      positions := DecodedPrefix(codec, lines, n - 1);
      assert lines[..n][..n - 1] == lines[..n - 1];
      LineDescribesSome(codec, lines[n - 1]);
      DescribedNext(codec, lines, n - 1);
      if FlowOfLine(codec, lines[n - 1]).Some? {
        ListsSnoc(positions, Described(codec, lines, n - 1), n - 1);
        positions := positions + [n - 1];
      }
    }
  }

  /** What is decoded is described line by line, in order, with nothing left out. */
  lemma DecodedInOrder(codec: Codec, lines: seq<Line>) returns (positions: seq<nat>)
    ensures DescribedBy(codec, lines, Decoded(codec, lines), positions)
  {
    positions := DecodedPrefix(codec, lines, |lines|);
    assert lines[..|lines|] == lines;
  }

  /** The events observed less than a minute ago, among the first `n`. */
  function Recent(now: nat, flows: seq<CachedFlow>, n: nat): set<nat>
    requires n <= |flows|
  {
    set i: nat | i < n && now < flows[i].observedAt + 60_000_000_000
  }

  predicate FlowsAt(flows: seq<CachedFlow>, picked: seq<CachedFlow>, positions: seq<nat>) {
    && |positions| == |picked|
    && forall k :: 0 <= k < |picked| ==> positions[k] < |flows| && picked[k] == flows[positions[k]]
  }

  ghost predicate LiveAt(now: nat, flows: seq<CachedFlow>, live: seq<CachedFlow>, positions: seq<nat>) {
    Lists(positions, Recent(now, flows, |flows|)) && FlowsAt(flows, live, positions)
  }

  lemma RecentNext(now: nat, flows: seq<CachedFlow>, n: nat)
    requires n < |flows|
    ensures Recent(now, flows, n + 1)
      == Recent(now, flows, n) + if Age(now, flows[n].observedAt) < EVENT_TTL then {n} else {}
  {
  }

  lemma {:induction false} LivePrefix(now: nat, flows: seq<CachedFlow>, n: nat) returns (positions: seq<nat>)
    requires n <= |flows|
    ensures Lists(positions, Recent(now, flows, n)) && FlowsAt(flows, Live(now, flows[..n]), positions)
  {
    if n == 0 {
      positions := [];
    } else {
      positions := LivePrefix(now, flows, n - 1);
      assert flows[..n][..n - 1] == flows[..n - 1];
      RecentNext(now, flows, n - 1);
      if Age(now, flows[n - 1].observedAt) < EVENT_TTL {
        ListsSnoc(positions, Recent(now, flows, n - 1), n - 1);
        positions := positions + [n - 1];
      }
    }
  }

  /** What is live is what was observed less than a minute ago, in order. */
  lemma LiveInOrder(now: nat, flows: seq<CachedFlow>) returns (positions: seq<nat>)
    ensures LiveAt(now, flows, Live(now, flows), positions)
  {
    positions := LivePrefix(now, flows, |flows|);
    assert flows[..|flows|] == flows;
  }
}
