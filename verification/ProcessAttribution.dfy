/**
The event-file reader behind process attribution: it tails a file that grows between
reads, caches what it decodes, drops what is old, and must answer as if it had read
everything again.
*/
module ProcessAttribution {
  import opened Wrappers
  import opened EventLines
  import opened ProcessSelection

  const EVENT_LIMIT := 8192
  const MAX_LINE := 64 * 1024
  const MILLISECOND := 1_000_000

  /** One event as it stands in the file. */
  datatype FlowEvent = FlowEvent(
    version: nat,
    observedAtMs: nat,
    network: string,
    source: Option<string>,
    destination: Option<string>,
    processName: string,
    processPath: string,
    signingIdentifier: string,
    uid: Option<int>)

  /** The JSON decoder and the socket-address parser. */
  datatype Codec = Codec(decode: Bytes -> Option<FlowEvent>, parse: string -> Option<Socket>)

  function NetworkOf(name: string): Option<Network> {
    if name == "tcp" then Some(Tcp) else if name == "udp" then Some(Udp) else None
  }

  /** Port 0 identifies no socket. */
  function BoundSocket(codec: Codec, text: Option<string>): Option<Socket> {
    match text
    case None => None
    case Some(t) =>
      match codec.parse(t)
      case Some(socket) => if socket.port != 0 then Some(socket) else None
      case None => None
  }

  /** The flow an event describes, whatever its age. */
  function FlowOf(codec: Codec, event: FlowEvent): Option<CachedFlow> {
    if event.version != 1 || event.processName == "" || NetworkOf(event.network).None? then None
    else
      Some(CachedFlow(
        event.observedAtMs * MILLISECOND,
        NetworkOf(event.network).value,
        BoundSocket(codec, event.source),
        BoundSocket(codec, event.destination),
        ProcessInfo(event.processName, event.processPath, event.signingIdentifier, event.uid)))
  }

  function ConvertEvent(codec: Codec, event: FlowEvent, now: nat): Option<CachedFlow> {
    match FlowOf(codec, event)
    case Some(flow) => if Age(now, flow.observedAt) > EVENT_TTL then None else Some(flow)
    case None => None
  }

  function FlowOfLine(codec: Codec, line: Line): Option<CachedFlow> {
    if line.bytes == [] || |line.bytes| > MAX_LINE then None
    else match codec.decode(line.bytes) case Some(event) => FlowOf(codec, event) case None => None
  }

  /** Every flow described by a list of lines: the full re-read. */
  function Decoded(codec: Codec, lines: seq<Line>): seq<CachedFlow> {
    if lines == [] then []
    else Decoded(codec, lines[..|lines| - 1]) + Listed(FlowOfLine(codec, lines[|lines| - 1]))
  }

  function Listed(flow: Option<CachedFlow>): seq<CachedFlow> {
    if flow.Some? then [flow.value] else []
  }

  function Live(now: nat, flows: seq<CachedFlow>): seq<CachedFlow> {
    if flows == [] then []
    else
      var last := flows[|flows| - 1];
      Live(now, flows[..|flows| - 1]) + (if Age(now, last.observedAt) < EVENT_TTL then [last] else [])
  }

  lemma {:induction false} DecodedAppend(codec: Codec, a: seq<Line>, b: seq<Line>)
    ensures Decoded(codec, a + b) == Decoded(codec, a) + Decoded(codec, b)
  {
    if b == [] {
      assert a + b == a;
    } else {
      var front := b[..|b| - 1];
      DecodedAppend(codec, a, front);
      assert (a + b)[..|a + b| - 1] == a + front;
      Assoc(Decoded(codec, a), Decoded(codec, front), Listed(FlowOfLine(codec, b[|b| - 1])));
    }
  }

  lemma {:induction false} LiveAppend(now: nat, a: seq<CachedFlow>, b: seq<CachedFlow>)
    ensures Live(now, a + b) == Live(now, a) + Live(now, b)
  {
    if b == [] {
      assert a + b == a;
    } else {
      LiveAppend(now, a, b[..|b| - 1]);
      assert (a + b)[..|a + b| - 1] == a + b[..|b| - 1];
    }
  }

  lemma LiveOne(now: nat, flow: CachedFlow)
    ensures Live(now, [flow]) == if Age(now, flow.observedAt) < EVENT_TTL then [flow] else []
  {
    assert [flow][..0] == [];
  }

  /** What is dropped early would be dropped later: filtering twice is filtering at the later time. */
  lemma {:induction false} LiveLater(early: nat, now: nat, flows: seq<CachedFlow>)
    requires early <= now
    ensures Live(now, Live(early, flows)) == Live(now, flows)
  {
    if flows != [] {
      var front, last := flows[..|flows| - 1], flows[|flows| - 1];
      LiveLater(early, now, front);
      LiveOne(now, last);
      if Age(early, last.observedAt) < EVENT_TTL {
        LiveAppend(now, Live(early, front), [last]);
      } else {
        assert Live(early, flows) == Live(early, front);
        assert Live(now, flows) == Live(now, front);
      }
    }
  }

  /** What reading one line appends to the cache. */
  function Pushed(codec: Codec, line: Line, now: nat): seq<CachedFlow> {
    if line.bytes == [] || |line.bytes| > MAX_LINE then []
    else match codec.decode(line.bytes) case Some(event) => Listed(ConvertEvent(codec, event, now)) case None => []
  }

  /** An event too old to be converted is not missed: it is not live either. */
  lemma PushedLive(codec: Codec, line: Line, now: nat)
    ensures Live(now, Pushed(codec, line, now)) == Live(now, Listed(FlowOfLine(codec, line)))
  {
    if FlowOfLine(codec, line).Some? {
      LiveOne(now, FlowOfLine(codec, line).value);
    }
  }

  lemma PushStep(codec: Codec, now: nat, start: seq<CachedFlow>, events: seq<CachedFlow>, lines: seq<Line>, i: nat)
    requires i < |lines| && Live(now, events) == Live(now, start) + Live(now, Decoded(codec, lines[..i]))
    ensures Live(now, events + Pushed(codec, lines[i], now))
      == Live(now, start) + Live(now, Decoded(codec, lines[..i + 1]))
  {
    var before, flow := Decoded(codec, lines[..i]), Listed(FlowOfLine(codec, lines[i]));
    assert lines[..i + 1][..i] == lines[..i];
    assert Decoded(codec, lines[..i + 1]) == before + flow;
    LiveAppend(now, before, flow);
    LiveAppend(now, events, Pushed(codec, lines[i], now));
    PushedLive(codec, lines[i], now);
    FlowsAssoc(Live(now, start), Live(now, before), Live(now, flow));
  }

  lemma FlowsAssoc(a: seq<CachedFlow>, b: seq<CachedFlow>, c: seq<CachedFlow>)
    ensures a + b + c == a + (b + c)
  {
  }

  // -------------------------------------------------------------- forgotten events

  /** A minute after they were observed, none of the flows is live. */
  lemma {:induction false} Expired(now: nat, flows: seq<CachedFlow>)
    requires forall e :: e in flows ==> e.observedAt + EVENT_TTL <= now
    ensures Live(now, flows) == []
  {
    if flows != [] {
      var front, last := flows[..|flows| - 1], flows[|flows| - 1];
      assert last in flows && forall e :: e in front ==> e in flows;
      Expired(now, front);
    }
  }

  /** Dropping live flows from the front is forgetting some of the first flows altogether. */
  lemma {:induction false} ForgetFirst(now: nat, flows: seq<CachedFlow>, k: nat) returns (j: nat)
    requires k <= |Live(now, flows)|
    ensures j <= |flows| && Live(now, flows)[k..] == Live(now, flows[j..])
    ensures k == 0 ==> j == 0
    decreases |flows|
  {
    if k == 0 {
      j := 0;
    } else {
      var head, rest := flows[0], flows[1..];
      assert flows == [head] + rest;
      LiveAppend(now, [head], rest);
      LiveOne(now, head);
      j := ForgetFirst(now, rest, if Age(now, head.observedAt) < EVENT_TTL then k - 1 else k);
      assert rest[j..] == flows[j + 1..];
      j := j + 1;
    }
  }

  /** One batch: what is cached afterwards, and what has been forgotten by then. */
  lemma CutDown(
    early: nat, now: nat, flows: seq<CachedFlow>, forgotten: nat, added: seq<CachedFlow>,
    filled: seq<CachedFlow>, dropped: seq<CachedFlow>, kept: seq<CachedFlow>) returns (forgotten': nat)
    requires early <= now && forgotten <= |flows|
    requires Live(now, filled) == Live(now, Live(early, flows[forgotten..])) + Live(now, added) == dropped + kept
    ensures forgotten <= forgotten' <= |flows + added| && kept == Live(now, (flows + added)[forgotten'..])
    ensures dropped == [] ==> forgotten' == forgotten
    ensures |dropped| + |kept| <= |Live(now, flows + added)|
  {
    var all := flows + added;
    LiveLater(early, now, flows[forgotten..]);
    LiveAppend(now, flows[forgotten..], added);
    assert all[forgotten..] == flows[forgotten..] + added;
    assert Live(now, all[forgotten..]) == dropped + kept;
    forgotten' := ForgetMore(now, all, forgotten, dropped, kept);
  }

  lemma ForgetMore(now: nat, all: seq<CachedFlow>, forgotten: nat, dropped: seq<CachedFlow>, kept: seq<CachedFlow>)
    returns (forgotten': nat)
    requires forgotten <= |all| && Live(now, all[forgotten..]) == dropped + kept
    ensures forgotten <= forgotten' <= |all| && kept == Live(now, all[forgotten'..])
    ensures dropped == [] ==> forgotten' == forgotten
    ensures |dropped| + |kept| <= |Live(now, all)|
  {
    var j := ForgetFirst(now, all[forgotten..], |dropped|);
    assert (dropped + kept)[|dropped|..] == kept;
    forgotten' := forgotten + j;
    assert all[forgotten..][j..] == all[forgotten'..];
    LiveAppend(now, all[..forgotten], all[forgotten..]);
    assert all == all[..forgotten] + all[forgotten..];
  }

  /** The same for lines: nothing more is forgotten while everything live fits the cache. */
  lemma Forget(
    codec: Codec, before: seq<Line>, lines: seq<Line>, early: nat, now: nat, forgotten: nat,
    filled: seq<CachedFlow>, dropped: seq<CachedFlow>, kept: seq<CachedFlow>) returns (cut: nat)
    requires early <= now && forgotten <= |Decoded(codec, before)|
    requires Live(now, filled)
          == Live(now, Live(early, Decoded(codec, before)[forgotten..])) + Live(now, Decoded(codec, lines))
          == dropped + kept
    requires dropped != [] ==> |kept| == EVENT_LIMIT
    ensures forgotten <= cut <= |Decoded(codec, before + lines)|
    ensures kept == Live(now, Decoded(codec, before + lines)[cut..])
    ensures |Live(now, Decoded(codec, before + lines))| <= EVENT_LIMIT ==> cut == forgotten
  {
    DecodedAppend(codec, before, lines);
    cut := CutDown(early, now, Decoded(codec, before), forgotten, Decoded(codec, lines), filled, dropped, kept);
  }

  /** What the bytes appended to a file add to the lines read of it and of the files before. */
  lemma HistoryGrows(earlier: seq<Line>, consumed: Bytes, all: Bytes)
    requires consumed <= all
    ensures earlier + Lines(all) == earlier + Lines(consumed) + Lines(Rest(consumed) + all[|consumed|..])
    ensures Rest(all) == Rest(Rest(consumed) + all[|consumed|..])
  {
    Grow(consumed, all);
    Assoc(earlier, Lines(consumed), Lines(Rest(consumed) + all[|consumed|..]));
  }

  /** The file at a refresh: absent, or its identity, the length seen and the bytes read. */
  datatype FileView = Absent | Present(id: nat, length: nat, bytes: Bytes, readable: bool)

  /** What has been read: the file and its bytes consumed so far, and the lines of the files before it. */
  datatype Tail = Tail(file: Option<nat>, consumed: Bytes, earlier: seq<Line>)

  const NOTHING_READ := Tail(None, [], [])

  /** Another file has taken the place of the one being read, or the file was cut below what was read. */
  predicate Resets(t: Tail, view: FileView) {
    view.Present? && (t.file != Some(view.id) || view.length < |t.consumed|)
  }

  /** The tail once a view has been read. */
  function Read(t: Tail, view: FileView): Tail {
    if view.Absent? then t
    else
      var t' := if Resets(t, view) then Tail(Some(view.id), [], LinesOf(t)) else t;
      if view.readable then t'.(consumed := view.bytes) else t'
  }

  /** Every complete line read so far. */
  function LinesOf(t: Tail): seq<Line> {
    t.earlier + Lines(t.consumed)
  }

  /** The file only grows under one identity, unless it was cut below what was read. */
  predicate Grows(t: Tail, view: FileView) {
    view.Present? ==> view.length <= |view.bytes| && (!Resets(t, view) ==> t.consumed <= view.bytes)
  }

  class Resolver {
    const codec: Codec
    var offset: nat
    var file: Option<nat>
    var pending: Bytes
    var events: seq<CachedFlow>

    /** What the reader has consumed of the current file, and all complete lines so far. */
    ghost var consumed: Bytes
    ghost var earlier: seq<Line>
    ghost var history: seq<Line>
    ghost var prunedAt: nat
    /** How many of the events read so far the cache has had to forget, and when it last did. */
    ghost var forgotten: nat
    ghost var overflowedAt: nat

    /** The tail has consumed whole lines of the current file and holds the rest. */
    ghost predicate TailValid()
      reads this`offset, this`pending, this`consumed, this`earlier, this`history
    {
      offset == |consumed| && pending == Rest(consumed) && history == earlier + Lines(consumed)
    }

    ghost function State(): Tail
      reads this`file, this`consumed, this`earlier
    {
      Tail(file, consumed, earlier)
    }

    /** The cache holds what is live of the events that were not forgotten. */
    ghost predicate CacheValid()
      reads this`events, this`history, this`prunedAt, this`forgotten
    {
      && |events| <= EVENT_LIMIT && forgotten <= |Decoded(codec, history)|
      && events == Live(prunedAt, Decoded(codec, history)[forgotten..])
    }

    ghost predicate Valid()
      reads this
    {
      TailValid() && CacheValid()
    }

    /** Everything decoded so far and still live: what a full re-read would find. */
    ghost function Reread(now: nat): seq<CachedFlow>
      reads this`history
    {
      Live(now, Decoded(codec, history))
    }

    constructor (codec: Codec)
      ensures Valid() && this.codec == codec && State() == NOTHING_READ
      ensures history == [] && forgotten == 0 && prunedAt == 0
    {
      this.codec := codec;
      offset, file, pending, events := 0, None, [], [];
      consumed, earlier, history, prunedAt, forgotten, overflowedAt := [], [], [], 0, 0, 0;
    }

    /** `prune`: drops old events, then the oldest entries above the limit. */
    method Prune(now: nat) returns (ghost dropped: seq<CachedFlow>)
      modifies this`events
      ensures dropped + events == Live(now, old(events)) && |events| <= EVENT_LIMIT
      ensures dropped != [] ==> |events| == EVENT_LIMIT
    {
      var kept := [];
      for i := 0 to |events|
        invariant kept == Live(now, events[..i])
      {
        assert events[..i + 1][..i] == events[..i];
        if Age(now, events[i].observedAt) < EVENT_TTL {
          kept := kept + [events[i]];
        }
      }
      assert events[..|events|] == events;
      dropped := [];
      while |kept| > EVENT_LIMIT
        invariant dropped + kept == Live(now, events)
        invariant dropped != [] ==> |kept| >= EVENT_LIMIT
      {
        dropped, kept := dropped + [kept[0]], kept[1..];
      }
      events := kept;
    }

    /** Decodes a batch of lines and appends the flows that are not already too old. */
    method Push(lines: seq<Line>, now: nat)
      modifies this`events
      ensures Live(now, events) == Live(now, old(events)) + Live(now, Decoded(codec, lines))
    {
      assert lines[..0] == [];
      for i := 0 to |lines|
        invariant Live(now, events) == Live(now, old(events)) + Live(now, Decoded(codec, lines[..i]))
      {
        PushStep(codec, now, old(events), events, lines, i);
        events := events + Pushed(codec, lines[i], now);
      }
      assert lines[..|lines|] == lines;
    }

    /** Starts over when another file has taken the place of the one being read. */
    method Follow(view: FileView)
      requires TailValid() && view.Present?
      modifies this`offset, this`file, this`pending, this`consumed, this`earlier
      ensures TailValid()
      ensures State() == if Resets(old(State()), view) then Tail(Some(view.id), [], history) else old(State())
    {
      if file != Some(view.id) || view.length < offset {
        offset, pending, file := 0, [], Some(view.id);
        earlier, consumed := history, [];
        NoNewline(consumed);
      }
    }

    /** The reading half of `refresh`: the lines completed since the last time. */
    method ReadTail(view: FileView) returns (lines: seq<Line>)
      requires TailValid() && Grows(State(), view)
      modifies this`offset, this`file, this`pending, this`consumed, this`earlier, this`history
      ensures TailValid() && State() == Read(old(State()), view) && history == old(history) + lines
    {
      lines := [];
      if view.Absent? {
        return;
      }
      Follow(view);
      if !view.readable {
        return;
      }
      var bytes := view.bytes[offset..];
      if bytes == [] {
        assert consumed == view.bytes;
        return;
      }
      HistoryGrows(earlier, consumed, view.bytes);
      offset := offset + |bytes|;
      lines, pending := ReadAppended(pending, bytes);
      consumed, history := view.bytes, history + lines;
    }

    method Fill(lines: seq<Line>, now: nat) returns (ghost filled: seq<CachedFlow>, ghost dropped: seq<CachedFlow>)
      modifies this`events
      ensures Live(now, filled) == Live(now, old(events)) + Live(now, Decoded(codec, lines)) == dropped + events
      ensures |events| <= EVENT_LIMIT && (dropped != [] ==> |events| == EVENT_LIMIT)
    {
      Push(lines, now);
      filled := events;
      dropped := Prune(now);
    }

    /** The caching half: appends a batch that has just entered the history, then prunes. */
    method Absorb(lines: seq<Line>, now: nat, ghost before: seq<Line>)
      requires history == before + lines && prunedAt <= now && forgotten <= |Decoded(codec, before)|
      requires events == Live(prunedAt, Decoded(codec, before)[forgotten..])
      modifies this`events, this`prunedAt, this`forgotten, this`overflowedAt
      ensures CacheValid() && prunedAt == now && old(forgotten) <= forgotten
      ensures |Reread(now)| <= EVENT_LIMIT ==> forgotten == old(forgotten)
      ensures overflowedAt == if forgotten == old(forgotten) then old(overflowedAt) else now
    {
      ghost var filled, dropped := Fill(lines, now);
      ghost var cut := Forget(codec, before, lines, prunedAt, now, forgotten, filled, dropped, events);
      MarkForgotten(cut, now);
    }

    ghost method MarkForgotten(cut: nat, now: nat)
      requires |events| <= EVENT_LIMIT && cut <= |Decoded(codec, history)|
      requires events == Live(now, Decoded(codec, history)[cut..])
      modifies this`prunedAt, this`forgotten, this`overflowedAt
      ensures CacheValid() && prunedAt == now && forgotten == cut
      ensures overflowedAt == if cut == old(forgotten) then old(overflowedAt) else now
    {
      overflowedAt := if cut == forgotten then overflowedAt else now;
      prunedAt, forgotten := now, cut;
    }

    /** Everything forgotten has expired. */
    ghost predicate Recovered(now: nat)
      requires forgotten <= |Decoded(codec, history)|
      reads this`history, this`forgotten
    {
      Live(now, Decoded(codec, history)[..forgotten]) == []
    }

    /** Nothing forgotten was dated later than the time it was forgotten. */
    ghost predicate NoneAhead()
      requires forgotten <= |Decoded(codec, history)|
      reads this`history, this`forgotten, this`overflowedAt
    {
      forall e :: e in Decoded(codec, history)[..forgotten] ==> e.observedAt <= overflowedAt
    }

    /** `refresh`: reads what was appended, keeps the unterminated rest for the next time. */
    method Refresh(view: FileView, now: nat)
      requires Valid() && Grows(State(), view) && prunedAt <= now
      modifies this
      ensures Valid() && State() == Read(old(State()), view) && old(history) <= history && prunedAt <= now
      ensures old(forgotten) <= forgotten && (|Reread(now)| <= EVENT_LIMIT ==> forgotten == old(forgotten))
      ensures overflowedAt == if forgotten == old(forgotten) then old(overflowedAt) else now
    {
      ghost var before := history;
      var lines := ReadTail(view);
      if lines != [] {
        Absorb(lines, now, before);
      } else {
        assert history == before;
      }
    }

    /** Refreshes, then prunes once more at the time of the lookup. */
    method Renew(view: FileView, now: nat)
      requires Valid() && Grows(State(), view) && prunedAt <= now
      modifies this
      ensures Valid() && State() == Read(old(State()), view) && old(history) <= history && prunedAt == now
      ensures old(forgotten) <= forgotten && (|Reread(now)| <= EVENT_LIMIT ==> forgotten == old(forgotten))
      ensures overflowedAt == if forgotten == old(forgotten) then old(overflowedAt) else now
    {
      Refresh(view, now);
      assert history == history + [];
      Absorb([], now, history);
    }

    /**
    `monitored_lookup`: the answer is the one the selection gives on every complete line read
    so far, decoded and filtered to the live ones, unless the cache has forgotten a live event.
    It forgets nothing while the live events fit, and a minute after it last did the answer is
    right again unless something forgotten was dated ahead.
    */
    method Lookup(view: FileView, q: Query) returns (r: Option<ProcessInfo>)
      requires Valid() && Grows(State(), view) && prunedAt <= q.now
      modifies this
      ensures Valid() && State() == Read(old(State()), view)
      ensures old(history) <= history && prunedAt == q.now && |events| <= 8192
      ensures Recovered(q.now) ==> IsAnswer(Reread(q.now), q, r)
      ensures forgotten == 0 || (overflowedAt + EVENT_TTL <= q.now && NoneAhead()) ==> Recovered(q.now)
      ensures old(forgotten) <= forgotten && (|Reread(q.now)| <= EVENT_LIMIT ==> forgotten == old(forgotten))
      ensures overflowedAt == if forgotten == old(forgotten) then old(overflowedAt) else q.now
    {
      Renew(view, q.now);
      RereadSplits(q.now);
      r := SelectProcess(events, q);
    }

    /** What is live is forgotten or cached. */
    lemma RereadSplits(now: nat)
      requires forgotten <= |Decoded(codec, history)|
      ensures Recovered(now) ==> Reread(now) == Live(now, Decoded(codec, history)[forgotten..])
      ensures forgotten == 0 || (overflowedAt + EVENT_TTL <= now && NoneAhead()) ==> Recovered(now)
    {
      var flows := Decoded(codec, history);
      assert flows == flows[..forgotten] + flows[forgotten..];
      LiveAppend(now, flows[..forgotten], flows[forgotten..]);
      assert [] + Live(now, flows[forgotten..]) == Live(now, flows[forgotten..]);
      if forgotten != 0 && overflowedAt + EVENT_TTL <= now && NoneAhead() {
        Expired(now, flows[..forgotten]);
      }
    }
  }
}
