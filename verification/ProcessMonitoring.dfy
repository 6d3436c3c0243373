/**
Process attribution over a whole run: any sequence of visits to the event file, each with a
query, answered as if everything read so far were read again.
*/
module ProcessMonitoring {
  import opened Wrappers
  import opened EventLines
  import opened ProcessSelection
  import opened ProcessAttribution

  /** What a lookup finds on disk, and what it is asked. */
  datatype Visit = Visit(view: FileView, query: Query)

  // ----------------------------------------------------------- what has been read

  /** The tail after the first `n` visits. */
  function TailAfter(visits: seq<Visit>, n: nat): Tail
    requires n <= |visits|
  {
    if n == 0 then NOTHING_READ else Read(TailAfter(visits, n - 1), visits[n - 1].view)
  }

  /** Every event described by the complete lines read in the first `n` visits. */
  function FlowsAfter(codec: Codec, visits: seq<Visit>, n: nat): seq<CachedFlow>
    requires n <= |visits|
  {
    Decoded(codec, LinesOf(TailAfter(visits, n)))
  }

  /** The file is append-only between visits, or another one, and the clock does not run backwards. */
  predicate Orderly(visits: seq<Visit>, n: nat)
    requires n <= |visits|
  {
    n > 0 ==>
      && Orderly(visits, n - 1) && Grows(TailAfter(visits, n - 1), visits[n - 1].view)
      && (n > 1 ==> visits[n - 2].query.now <= visits[n - 1].query.now)
  }

  lemma {:induction false} OrderlyBefore(visits: seq<Visit>, m: nat, n: nat)
    requires m <= n <= |visits| && Orderly(visits, n)
    ensures Orderly(visits, m)
  {
    if m < n {
      OrderlyBefore(visits, m, n - 1);
    }
  }

  /** What a full re-read at visit `i` would answer from. */
  function RereadAt(codec: Codec, visits: seq<Visit>, i: nat): seq<CachedFlow>
    requires i < |visits|
  {
    Live(visits[i].query.now, FlowsAfter(codec, visits, i + 1))
  }

  predicate Fits(codec: Codec, visits: seq<Visit>, i: nat)
    requires i < |visits|
  {
    |RereadAt(codec, visits, i)| <= 8192
  }

  /** No event read by then is dated later than the visit. */
  predicate Dated(codec: Codec, visits: seq<Visit>, i: nat)
    requires i < |visits|
  {
    forall e :: e in FlowsAfter(codec, visits, i + 1) ==> e.observedAt <= visits[i].query.now
  }

  /**
  The live events fitted the cache at every visit so far; or no event was dated ahead and they
  fitted at every visit of the last minute.
  */
  predicate Undisturbed(codec: Codec, visits: seq<Visit>, i: nat)
    requires i < |visits|
  {
    || (forall j: nat :: j <= i ==> Fits(codec, visits, j))
    || (forall j: nat :: j <= i ==>
          && Dated(codec, visits, j)
          && (Fits(codec, visits, j) || visits[j].query.now + EVENT_TTL <= visits[i].query.now))
  }

  // -------------------------------------------------------------------- growth

  /** A view adds lines at the end and changes none. */
  lemma ReadAdds(t: Tail, view: FileView)
    requires Grows(t, view)
    ensures LinesOf(t) <= LinesOf(Read(t, view))
  {
    if view.Present? && view.readable {
      if Resets(t, view) {
        assert LinesOf(Read(t, view)) == LinesOf(t) + Lines(view.bytes);
      } else {
        HistoryGrows(t.earlier, t.consumed, view.bytes);
      }
    } else if Resets(t, view) {
      NoNewline([]);
    }
  }

  lemma {:induction false} LinesKept(visits: seq<Visit>, m: nat, n: nat)
    requires m <= n <= |visits| && Orderly(visits, n)
    ensures LinesOf(TailAfter(visits, m)) <= LinesOf(TailAfter(visits, n))
  {
    if m < n {
      LinesKept(visits, m, n - 1);
      ReadAdds(TailAfter(visits, n - 1), visits[n - 1].view);
    }
  }

  lemma FlowsKept(codec: Codec, visits: seq<Visit>, m: nat, n: nat)
    requires m <= n <= |visits| && Orderly(visits, n)
    ensures FlowsAfter(codec, visits, m) <= FlowsAfter(codec, visits, n)
  {
    LinesKept(visits, m, n);
    var early, late := LinesOf(TailAfter(visits, m)), LinesOf(TailAfter(visits, n));
    assert late == early + late[|early|..];
    DecodedAppend(codec, early, late[|early|..]);
  }

  // ----------------------------------------------------------------- forgetting

  /** The cache last forgot events at visit `j`, when the live ones did not fit. */
  predicate ForgotAt(codec: Codec, visits: seq<Visit>, j: nat, forgotten: nat, overflowedAt: nat)
    requires j < |visits|
  {
    && !Fits(codec, visits, j) && overflowedAt == visits[j].query.now
    && forgotten <= |FlowsAfter(codec, visits, j + 1)|
  }

  /** Undisturbed, everything forgotten has expired. */
  lemma ForgottenExpired(codec: Codec, visits: seq<Visit>, i: nat, j: nat, forgotten: nat, overflowedAt: nat)
    requires j <= i < |visits| && Orderly(visits, i + 1) && Undisturbed(codec, visits, i)
    requires ForgotAt(codec, visits, j, forgotten, overflowedAt) && forgotten <= |FlowsAfter(codec, visits, i + 1)|
    ensures Live(visits[i].query.now, FlowsAfter(codec, visits, i + 1)[..forgotten]) == []
  {
    OldEnough(codec, visits, i, j);
    FlowsKept(codec, visits, j + 1, i + 1);
    PrefixExpired(FlowsAfter(codec, visits, j + 1), FlowsAfter(codec, visits, i + 1), forgotten,
                  visits[j].query.now, visits[i].query.now);
  }

  lemma OldEnough(codec: Codec, visits: seq<Visit>, i: nat, j: nat)
    requires j <= i < |visits| && Undisturbed(codec, visits, i) && !Fits(codec, visits, j)
    ensures Dated(codec, visits, j) && visits[j].query.now + EVENT_TTL <= visits[i].query.now
  {
  }

  lemma PrefixExpired(early: seq<CachedFlow>, late: seq<CachedFlow>, n: nat, at: nat, now: nat)
    requires early <= late && n <= |early| && at + EVENT_TTL <= now
    requires forall e :: e in early ==> e.observedAt <= at
    ensures Live(now, late[..n]) == []
  {
    assert late[..n] == early[..n];
    Expired(now, early[..n]);
  }

  // --------------------------------------------------------------------- lookups

  /** One more visit by a resolver that has made the ones before. */
  method Answer(r: Resolver, visits: seq<Visit>, i: nat, ghost last: nat)
    returns (answer: Option<ProcessInfo>, ghost last': nat)
    requires i < |visits| && Orderly(visits, i + 1) && UpTo(r, visits, i, last)
    modifies r
    ensures UpTo(r, visits, i + 1, last')
    ensures RightAt(r.codec, visits, i, answer)
  {
    ghost var forgotten := r.forgotten;
    answer := r.Lookup(visits[i].view, visits[i].query);
    last' := if r.forgotten == forgotten then last else i;
    assert r.Reread(visits[i].query.now) == RereadAt(r.codec, visits, i);
    if r.forgotten != 0 && Undisturbed(r.codec, visits, i) {
      ForgottenExpired(r.codec, visits, i, last', r.forgotten, r.overflowedAt);
    }
  }

  /** Undisturbed, the answer at visit `i` is that of a full re-read. */
  ghost predicate RightAt(codec: Codec, visits: seq<Visit>, i: nat, answer: Option<ProcessInfo>)
    requires i < |visits|
  {
    Undisturbed(codec, visits, i) ==> IsAnswer(RereadAt(codec, visits, i), visits[i].query, answer)
  }

  /** The resolver stands where the first `n` visits lead, and last forgot events at visit `last`, if it ever did. */
  ghost predicate UpTo(r: Resolver, visits: seq<Visit>, n: nat, last: nat)
    requires n <= |visits|
    reads r
  {
    && r.Valid() && r.State() == TailAfter(visits, n)
    && r.prunedAt == (if n == 0 then 0 else visits[n - 1].query.now)
    && (r.forgotten != 0 ==> last < n && ForgotAt(r.codec, visits, last, r.forgotten, r.overflowedAt))
  }

  /**
  An incremental lookup agrees with a full re-read: for every sequence of visits, with the file
  cut in any way into writes and visits, absent, unreadable, replaced or cut short in between,
  every undisturbed answer is the one the selection gives on all complete lines read so far.
  */
  method Monitor(codec: Codec, visits: seq<Visit>) returns (answers: seq<Option<ProcessInfo>>)
    requires Orderly(visits, |visits|)
    ensures |answers| == |visits|
    ensures forall i: nat :: i < |visits| ==> RightAt(codec, visits, i, answers[i])
  {
    var r := new Resolver(codec);
    answers := AnswerAll(r, visits);
    forall i: nat | i < |visits|
      ensures RightAt(codec, visits, i, answers[i])
    {
      EachRight(codec, visits, answers, i);
    }
  }

  /** The first answers are right, each at its visit. */
  ghost predicate AllRight(codec: Codec, visits: seq<Visit>, answers: seq<Option<ProcessInfo>>)
    requires |answers| <= |visits|
  {
    answers != [] ==>
      var last := |answers| - 1;
      AllRight(codec, visits, answers[..last]) && RightAt(codec, visits, last, answers[last])
  }

  lemma {:induction false} EachRight(codec: Codec, visits: seq<Visit>, answers: seq<Option<ProcessInfo>>, i: nat)
    requires i < |answers| <= |visits| && AllRight(codec, visits, answers)
    ensures RightAt(codec, visits, i, answers[i])
  {
    if i < |answers| - 1 {
      EachRight(codec, visits, answers[..|answers| - 1], i);
    }
  }

  lemma OneMoreRight(codec: Codec, visits: seq<Visit>, answers: seq<Option<ProcessInfo>>, answer: Option<ProcessInfo>)
    requires |answers| < |visits| && AllRight(codec, visits, answers) && RightAt(codec, visits, |answers|, answer)
    ensures AllRight(codec, visits, answers + [answer])
  {
    assert (answers + [answer])[..|answers|] == answers;
  }

  method AnswerAll(r: Resolver, visits: seq<Visit>) returns (answers: seq<Option<ProcessInfo>>)
    requires Orderly(visits, |visits|) && UpTo(r, visits, 0, 0)
    modifies r
    ensures |answers| == |visits| && AllRight(r.codec, visits, answers)
  {
    ghost var last := 0;
    answers := [];
    while |answers| < |visits|
      invariant |answers| <= |visits| && UpTo(r, visits, |answers|, last) && AllRight(r.codec, visits, answers)
    {
      var answer;
      OrderlyBefore(visits, |answers| + 1, |visits|);
      answer, last := Answer(r, visits, |answers|, last);
      OneMoreRight(r.codec, visits, answers, answer);
      answers := answers + [answer];
    }
  }

  // ---------------------------------------------------------------- one growing file

  /** Readable views of one file, each holding what was there before, while the clock runs on. */
  predicate OneGrowingFile(visits: seq<Visit>, id: nat) {
    && (forall i :: 0 <= i < |visits| ==> IsView(visits[i].view, id))
    && (forall i, j :: 0 <= i < j < |visits| ==> Follows(visits[i], visits[j]))
  }

  predicate IsView(view: FileView, id: nat) {
    view.Present? && view.id == id && view.readable && view.length <= |view.bytes|
  }

  predicate Follows(before: Visit, after: Visit) {
    && before.view.Present? && after.view.Present?
    && |before.view.bytes| <= after.view.length && before.view.bytes <= after.view.bytes
    && before.query.now <= after.query.now
  }

  lemma {:induction false} TailOfOneFile(visits: seq<Visit>, id: nat, n: nat)
    requires OneGrowingFile(visits, id) && n <= |visits|
    ensures TailAfter(visits, n) == if n == 0 then NOTHING_READ else Tail(Some(id), visits[n - 1].view.bytes, [])
    ensures Orderly(visits, n)
  {
    if n > 0 {
      TailOfOneFile(visits, id, n - 1);
      assert IsView(visits[n - 1].view, id);
      if n == 1 {
        NoNewline([]);
      } else {
        assert Follows(visits[n - 2], visits[n - 1]);
      }
    }
  }

  lemma RereadOfOneFile(codec: Codec, visits: seq<Visit>, id: nat, i: nat)
    requires OneGrowingFile(visits, id) && i < |visits|
    ensures visits[i].view.Present? && RereadAt(codec, visits, i) == LiveIn(codec, visits[i])
  {
    TailOfOneFile(visits, id, i + 1);
    assert IsView(visits[i].view, id);
    assert [] + Lines(visits[i].view.bytes) == Lines(visits[i].view.bytes);
  }

  /** What is live of all complete lines of the file at a visit. */
  function LiveIn(codec: Codec, visit: Visit): seq<CachedFlow>
    requires visit.view.Present?
  {
    Live(visit.query.now, Decoded(codec, Lines(visit.view.bytes)))
  }

  /** For one file that only grows, every answer is the one on all complete lines of the file as it then was. */
  method MonitorGrowingFile(codec: Codec, id: nat, visits: seq<Visit>) returns (answers: seq<Option<ProcessInfo>>)
    requires OneGrowingFile(visits, id)
    requires forall i :: 0 <= i < |visits| ==> visits[i].view.Present? && |LiveIn(codec, visits[i])| <= 8192
    ensures |answers| == |visits|
    ensures forall i :: 0 <= i < |visits| ==> IsAnswer(LiveIn(codec, visits[i]), visits[i].query, answers[i])
  {
    TailOfOneFile(visits, id, |visits|);
    answers := Monitor(codec, visits);
    forall i | 0 <= i < |visits|
      ensures Fits(codec, visits, i)
    {
      RereadOfOneFile(codec, visits, id, i);
    }
    forall i | 0 <= i < |visits|
      ensures IsAnswer(LiveIn(codec, visits[i]), visits[i].query, answers[i])
    {
      RereadOfOneFile(codec, visits, id, i);
      assert RightAt(codec, visits, i, answers[i]) && Undisturbed(codec, visits, i);
    }
  }
}
