/**
The SSH tunnel: a reconnect loop that asks the server for remote forwards, publishes the
session once they are all granted, and takes everything back before it waits and retries.

A server, a network and a user are scripts: what each attempt meets and how it ends.
*/
module SshTunnel {
  /** Replies to a forward request of section 7.1 of RFC 4254, with the 32-bit port reported. */
  datatype Reply = Granted(port: nat) | Refused

  /** How a published session ends: it is lost, or the user interrupts it. */
  datatype Ending = Lost | Interrupted

  datatype Attempt = Attempt(
    abandoned: bool,         // the user interrupts before the attempt has ended
    connects: bool,
    replies: seq<Reply>,     // further requests are refused
    ending: Ending,
    milliseconds: nat,
    interruptedWait: bool)   // the user interrupts the wait after this attempt

  /**
  Global requests. The index says which configured forward a request is for: it carries that
  forward's bind host and, when asking, its configured port.
  */
  datatype Request = Ask(index: nat) | Cancel(index: nat, port: nat)

  const U16 := 65536

  /** A port as it is remembered, cut to 16 bits. */
  type Port = p: nat | p < U16

  const MIN_DELAY := 1
  const MAX_DELAY := 60
  const STABLE_MILLISECONDS := 10000

  // ------------------------------------------------------------- specification

  predicate GrantedAt(a: Attempt, i: nat) {
    i < |a.replies| && a.replies[i].Granted?
  }

  /** How many of the first `n` forwards are granted before one is refused. */
  function GrantedCount(a: Attempt, n: nat): (k: nat)
    ensures k <= n
    ensures forall i: nat :: i < k ==> GrantedAt(a, i)
    ensures k < n ==> !GrantedAt(a, k)
  {
    if n == 0 then 0
    else
      var k := GrantedCount(a, n - 1);
      if k == n - 1 && GrantedAt(a, n - 1) then n else k
  }

  function RememberedPort(a: Attempt, i: nat): Port
    requires GrantedAt(a, i)
  {
    a.replies[i].port % U16
  }

  /** The ports remembered once the first `k` forwards are granted. */
  function Remembered(a: Attempt, k: nat, n: nat): seq<Port>
    requires k <= GrantedCount(a, n)
  {
    seq(n, i requires 0 <= i => if i < k then RememberedPort(a, i) else 0)
  }

  function Zeros(n: nat): seq<Port> {
    seq(n, i => 0)
  }

  function Asked(k: nat): seq<Request> {
    if k == 0 then [] else Asked(k - 1) + [Ask(k - 1)]
  }

  /** One cancel for each of the first `k` forwards with a remembered port. */
  function Cancels(ports: seq<Port>, k: nat): seq<Request>
    requires k <= |ports|
  {
    if k == 0 then [] else Cancels(ports, k - 1) + CancelOf(k - 1, ports[k - 1])
  }

  function CancelOf(i: nat, port: nat): seq<Request> {
    if port == 0 then [] else [Cancel(i, port)]
  }

  /** An attempt publishes its session when every forward is granted. */
  predicate Publishes(a: Attempt, n: nat) {
    a.connects && GrantedCount(a, n) == n
  }

  /** Everything an attempt that was not abandoned asks of the server. */
  function AttemptRequests(a: Attempt, n: nat): seq<Request> {
    var k := GrantedCount(a, n);
    if !a.connects then [] else Asked(if k < n then k + 1 else n) + TakenBack(a, k)
  }

  /** One cancel for each of the first `k` forwards granted with a port. */
  function TakenBack(a: Attempt, k: nat): seq<Request>
    requires forall i: nat :: i < k ==> GrantedAt(a, i)
  {
    if k == 0 then [] else TakenBack(a, k - 1) + CancelOf(k - 1, RememberedPort(a, k - 1))
  }

  lemma {:induction false} CancelsAreTakenBack(a: Attempt, ports: seq<Port>, k: nat)
    requires k <= |ports| && forall i: nat :: i < k ==> GrantedAt(a, i) && ports[i] == RememberedPort(a, i)
    ensures Cancels(ports, k) == TakenBack(a, k)
  {
    if k > 0 {
      CancelsAreTakenBack(a, ports, k - 1);
    }
  }

  datatype Outcome = Failed | Finished | StillRunning

  /** What is seen while waiting to reconnect. */
  datatype Wait = Wait(delay: nat, published: bool, bound: seq<Port>)

  /** What attempt `i` of a run that reached it does to the run. */
  function Verdict(a: Attempt, i: nat, n: nat): Outcome {
    if a.abandoned then Finished
    else if Publishes(a, n) && a.ending.Interrupted? then Finished
    else if !Publishes(a, n) && i == 0 then Failed
    else if a.interruptedWait then Finished
    else StillRunning
  }

  predicate FailsBeforePublishing(a: Attempt, n: nat) {
    !a.abandoned && !Publishes(a, n)
  }

  /** Whether attempt `i` is followed by a wait, interrupted or not. */
  predicate Waits(a: Attempt, i: nat, n: nat) {
    !a.abandoned && !(Publishes(a, n) && a.ending.Interrupted?) && (Publishes(a, n) || i > 0)
  }

  /** How many waits the first `ran` attempts of a run come to. */
  function WaitCount(script: seq<Attempt>, ran: nat, n: nat): (m: nat)
    requires ran <= |script|
    ensures m <= ran
  {
    if ran > 0 && !Waits(script[ran - 1], ran - 1, n) then ran - 1 else ran
  }

  predicate Stable(a: Attempt) {
    a.milliseconds > STABLE_MILLISECONDS
  }

  function Doubled(delay: nat): nat {
    if 2 * delay < MAX_DELAY then 2 * delay else MAX_DELAY
  }

  /** The delay of the wait after attempt `i`. */
  function DelayAt(script: seq<Attempt>, i: nat): nat
    requires i < |script|
  {
    if Stable(script[i]) || i == 0 then MIN_DELAY else Doubled(DelayAt(script, i - 1))
  }

  /** The first `m` waits: nothing is published and no port is remembered. */
  function WaitsOf(script: seq<Attempt>, m: nat, n: nat): seq<Wait>
    requires m <= |script|
  {
    if m == 0 then [] else WaitsOf(script, m - 1, n) + [Wait(DelayAt(script, m - 1), false, Zeros(n))]
  }

  /** None of the first `ran` attempts ends the run. */
  predicate AllContinue(script: seq<Attempt>, ran: nat, n: nat)
    requires ran <= |script|
  {
    ran > 0 ==> AllContinue(script, ran - 1, n) && Verdict(script[ran - 1], ran - 1, n) == StillRunning
  }

  function Pow2(n: nat): nat {
    if n == 0 then 1 else 2 * Pow2(n - 1)
  }

  /** How many attempts in a row, up to attempt `i`, ended early. */
  function QuickInARow(script: seq<Attempt>, i: nat): nat
    requires i < |script|
  {
    if Stable(script[i]) then 0 else if i == 0 then 0 else 1 + QuickInARow(script, i - 1)
  }

  function Backoff(quick: nat): nat {
    if Pow2(quick) < MAX_DELAY then Pow2(quick) else MAX_DELAY
  }

  /** Everything asked in the first `ran` attempts, none of them abandoned. */
  function AllRequests(script: seq<Attempt>, ran: nat, n: nat): seq<Request>
    requires ran <= |script|
  {
    if ran == 0 then []
    else AllRequests(script, ran - 1, n) + AttemptRequests(script[ran - 1], n)
  }

  lemma Assoc(a: seq<Request>, b: seq<Request>, c: seq<Request>)
    ensures a + (b + c) == a + b + c
  {
  }

  // -------------------------------------------------------------------- class

  class Tunnel {
    const forwards: nat   // how many remote forwards are configured
    var bound: seq<Port>
    var published: bool
    var requests: seq<Request>

    ghost predicate Valid()
      reads this
    {
      |bound| == forwards
    }

    constructor (forwards: nat)
      ensures Valid() && this.forwards == forwards
      ensures bound == Zeros(forwards) && !published && requests == []
    {
      this.forwards := forwards;
      bound := Zeros(forwards);
      published := false;
      requests := [];
    }

    /** `reset_all_bound_ports`. */
    method ResetAll()
      requires Valid()
      modifies `bound
      ensures bound == Zeros(forwards)
    {
      for i := 0 to |bound|
        invariant Valid() && i <= |bound|
        invariant forall j :: 0 <= j < i ==> bound[j] == 0
      {
        bound := bound[i := 0];
      }
    }

    /** `cancel_remote_forwards`: one cancel for each remembered port, then forget it. */
    method CancelAll()
      requires Valid()
      modifies `bound, `requests
      ensures bound == Zeros(forwards)
      ensures requests == old(requests) + Cancels(old(bound), forwards)
    {
      for i := 0 to forwards
        invariant Valid()
        invariant forall j :: 0 <= j < i ==> bound[j] == 0
        invariant forall j :: i <= j < |bound| ==> bound[j] == old(bound)[j]
        invariant requests == old(requests) + Cancels(old(bound), i)
      {
        var port := bound[i];
        if port == 0 {
          continue;
        }
        Assoc(old(requests), Cancels(old(bound), i), [Cancel(i, port)]);
        requests := requests + [Cancel(i, port)];
        bound := bound[i := 0];
      }
    }

    /** `rollback_remote_forwards` for the forwards registered so far. */
    method Rollback(registered: seq<nat>)
      requires Valid() && |registered| <= forwards
      requires forall i :: 0 <= i < |registered| ==> registered[i] == i
      requires forall j :: |registered| <= j < |bound| ==> bound[j] == 0
      modifies `bound, `requests
      ensures bound == Zeros(forwards)
      ensures requests == old(requests) + Cancels(old(bound), |registered|)
    {
      for i := 0 to |registered|
        invariant Valid()
        invariant forall j :: 0 <= j < i ==> bound[j] == 0
        invariant forall j :: i <= j < |bound| ==> bound[j] == old(bound)[j]
        invariant requests == old(requests) + Cancels(old(bound), i)
      {
        var index := registered[i];
        var port := bound[index];
        if port == 0 {
          continue;
        }
        Assoc(old(requests), Cancels(old(bound), i), [Cancel(index, port)]);
        requests := requests + [Cancel(index, port)];
        bound := bound[index := 0];
      }
    }

    /** `setup_remote_forwards`: all forwards are granted, or those granted are taken back. */
    method SetUp(a: Attempt) returns (ok: bool)
      requires Valid() && a.connects
      modifies `bound, `requests
      ensures ok <==> Publishes(a, forwards)
      ensures ok ==> bound == Remembered(a, forwards, forwards)
      ensures ok ==> requests == old(requests) + Asked(forwards)
      ensures !ok ==> bound == Zeros(forwards)
      ensures !ok ==> requests == old(requests) + AttemptRequests(a, forwards)
    {
      ResetAll();
      var registered: seq<nat> := [];
      ghost var n := forwards;
      for i := 0 to forwards
        invariant i <= GrantedCount(a, n)
        invariant bound == Remembered(a, i, n)
        invariant |registered| == i && forall j :: 0 <= j < i ==> registered[j] == j
        invariant requests == old(requests) + Asked(i)
      {
        requests := requests + [Ask(i)];
        Assoc(old(requests), Asked(i), [Ask(i)]);
        if GrantedAt(a, i) {
          bound := bound[i := a.replies[i].port % U16];
          registered := registered + [i];
        } else {
          CancelsAreTakenBack(a, bound, i);
          Rollback(registered);
          Assoc(old(requests), Asked(i + 1), TakenBack(a, i));
          return false;
        }
      }
      return true;
    }

    /** `connect_and_run`: true when the user ended a published session. */
    method ConnectAndRun(a: Attempt) returns (ok: bool)
      requires Valid() && !published && bound == Zeros(forwards)
      modifies this
      ensures Valid() && published == Publishes(a, forwards)
      ensures ok <==> published && a.ending.Interrupted?
      ensures !published ==> bound == Zeros(forwards) && requests == old(requests) + AttemptRequests(a, forwards)
      ensures published ==> bound == Remembered(a, forwards, forwards)
      ensures published ==> requests == old(requests) + Asked(forwards)
    {
      if !a.connects {
        return false;
      }
      if forwards != 0 {
        var granted := SetUp(a);
        if !granted {
          return false;
        }
      }
      published := true;
      return a.ending.Interrupted?;
    }

    /** One attempt, with everything taken back at its end. */
    method Try(a: Attempt) returns (ok: bool, wasConnected: bool)
      requires Valid() && !published && bound == Zeros(forwards)
      modifies this
      ensures Valid() && !published && bound == Zeros(forwards)
      ensures wasConnected == Publishes(a, forwards)
      ensures ok <==> wasConnected && a.ending.Interrupted?
      ensures requests == old(requests) + AttemptRequests(a, forwards)
    {
      ok := ConnectAndRun(a);
      wasConnected := published;
      if published {
        CancelsAreTakenBack(a, bound, forwards);
        CancelAll();
        Assoc(old(requests), Asked(forwards), TakenBack(a, forwards));
      }
      published := false;
    }

    /** One pass of the reconnect loop, up to the end of its wait if it has one. */
    method Pass(a: Attempt, ghost i: nat, everConnected: bool, delay: nat) returns (outcome: Outcome, waits: seq<Wait>)
      requires Valid() && !published && bound == Zeros(forwards)
      requires everConnected <==> i > 0
      modifies this
      ensures outcome == Verdict(a, i, forwards)
      ensures waits == if Waits(a, i, forwards) then [Wait(delay, false, Zeros(forwards))] else []
      ensures !a.abandoned ==> Valid() && !published && bound == Zeros(forwards)
      ensures !a.abandoned ==> requests == old(requests) + AttemptRequests(a, forwards)
    {
      if a.abandoned {
        // The attempt is dropped at one of its awaits, whatever it has done so far.
        published, bound, requests := *, *, *;
        return Finished, [];
      }
      var ok, wasConnected := Try(a);
      if ok {
        return Finished, [];
      }
      if !wasConnected && !everConnected {
        return Failed, [];
      }
      waits := [Wait(delay, published, bound)];
      outcome := if a.interruptedWait then Finished else StillRunning;
    }

    /**
    `run`, over a finite script: what the run has come to after `ran` attempts, and what
    was seen at every wait.
    */
    method Run(script: seq<Attempt>) returns (outcome: Outcome, ran: nat, waits: seq<Wait>)
      requires Valid() && !published && bound == Zeros(forwards) && requests == []
      modifies this
      ensures ran <= |script| && (outcome.StillRunning? ==> ran == |script|)
      ensures ran > 0 ==> AllContinue(script, ran - 1, forwards)
      ensures ran > 0 ==> outcome == Verdict(script[ran - 1], ran - 1, forwards)
      ensures ran == 0 ==> outcome == StillRunning
      ensures waits == WaitsOf(script, WaitCount(script, ran, forwards), forwards)
      ensures (ran == 0 || !script[ran - 1].abandoned) ==>
        requests == AllRequests(script, ran, forwards) && !published && bound == Zeros(forwards)
    {
      var delay, everConnected := MIN_DELAY, false;
      ran, waits := 0, [];
      while ran < |script|
        invariant Valid() && ran <= |script|
        invariant !published && bound == Zeros(forwards)
        invariant AllContinue(script, ran, forwards)
        invariant everConnected <==> ran > 0
        invariant delay == if ran == 0 then MIN_DELAY else Doubled(DelayAt(script, ran - 1))
        invariant waits == WaitsOf(script, ran, forwards)
        invariant requests == AllRequests(script, ran, forwards)
      {
        if script[ran].milliseconds > STABLE_MILLISECONDS {
          delay := MIN_DELAY;
        }
        assert delay == DelayAt(script, ran);
        var seen;
        outcome, seen := Pass(script[ran], ran, everConnected, delay);
        assert waits + [] == waits;
        waits, ran := waits + seen, ran + 1;
        if !outcome.StillRunning? {
          return;
        }
        everConnected, delay := true, Doubled(delay);
      }
      outcome := StillRunning;
    }
  }

  // --------------------------------------------------------------- consequences

  /** A run fails exactly when its first attempt ends by itself before publishing. */
  lemma {:induction false} FailsIffFirstAttemptFails(script: seq<Attempt>, ran: nat, n: nat)
    requires 0 < ran <= |script| && AllContinue(script, ran - 1, n)
    ensures Verdict(script[ran - 1], ran - 1, n) == Failed <==> FailsBeforePublishing(script[0], n)
  {
    if ran > 1 {
      FailsIffFirstAttemptFails(script, ran - 1, n);
    }
  }

  /** Every wait of a run: nothing published, nothing remembered, one second to a minute. */
  lemma {:induction false} WaitsAreClean(script: seq<Attempt>, m: nat, n: nat, i: nat)
    requires i < m <= |script|
    ensures |WaitsOf(script, m, n)| == m
    ensures WaitsOf(script, m, n)[i] == Wait(Backoff(QuickInARow(script, i)), false, Zeros(n))
    ensures MIN_DELAY <= WaitsOf(script, m, n)[i].delay <= MAX_DELAY
  {
    WaitsCounted(script, m - 1, n);
    if i < m - 1 {
      WaitsAreClean(script, m - 1, n, i);
    } else {
      DelayIsBackoff(script, i);
      BackoffBounded(QuickInARow(script, i));
    }
  }

  lemma {:induction false} WaitsCounted(script: seq<Attempt>, m: nat, n: nat)
    requires m <= |script|
    ensures |WaitsOf(script, m, n)| == m
  {
    if m > 0 {
      WaitsCounted(script, m - 1, n);
    }
  }

  /** The delay doubles with every quick attempt in a row, up to a minute. */
  lemma {:induction false} DelayIsBackoff(script: seq<Attempt>, i: nat)
    requires i < |script|
    ensures DelayAt(script, i) == Backoff(QuickInARow(script, i))
  {
    if i > 0 {
      DelayIsBackoff(script, i - 1);
    }
  }

  /** The delay is between one second and a minute, and a quick failure never shortens it. */
  lemma {:induction false} BackoffBounded(quick: nat)
    ensures MIN_DELAY <= Backoff(quick) <= MAX_DELAY
    ensures Backoff(quick) <= Backoff(quick + 1)
    ensures Backoff(quick) == MAX_DELAY <==> quick >= 6
  {
    if quick > 0 {
      BackoffBounded(quick - 1);
    }
  }

  /** How often a request is made. */
  function Count(requests: seq<Request>, request: Request): nat {
    if requests == [] then 0
    else (if requests[0] == request then 1 else 0) + Count(requests[1..], request)
  }

  lemma {:induction false} CountOfConcat(before: seq<Request>, after: seq<Request>, request: Request)
    ensures Count(before + after, request) == Count(before, request) + Count(after, request)
  {
    if before == [] {
      assert before + after == after;
    } else {
      CountOfConcat(before[1..], after, request);
      assert (before + after)[1..] == before[1..] + after;
    }
  }

  lemma CountOfOne(j: nat, bound: nat, i: nat, port: nat)
    ensures Count(CancelOf(j, bound), Cancel(i, port)) == if j == i && bound == port && port != 0 then 1 else 0
  {
  }

  lemma {:induction false} AskingCancelsNothing(k: nat, i: nat, port: nat)
    ensures Count(Asked(k), Cancel(i, port)) == 0
  {
    if k > 0 {
      AskingCancelsNothing(k - 1, i, port);
      CountOfConcat(Asked(k - 1), [Ask(k - 1)], Cancel(i, port));
    }
  }

  lemma {:induction false} TakenBackOnce(a: Attempt, k: nat, i: nat, port: nat)
    requires forall j: nat :: j < k ==> GrantedAt(a, j)
    ensures Count(TakenBack(a, k), Cancel(i, port))
      == if i < k && port == RememberedPort(a, i) && port != 0 then 1 else 0
  {
    if k > 0 {
      var bound := RememberedPort(a, k - 1);
      TakenBackOnce(a, k - 1, i, port);
      CountOfOne(k - 1, bound, i, port);
      CountOfConcat(TakenBack(a, k - 1), CancelOf(k - 1, bound), Cancel(i, port));
    }
  }

  /** An attempt is granted a forward, and remembers its port. */
  predicate GrantedWith(a: Attempt, n: nat, i: nat, port: nat) {
    a.connects && i < GrantedCount(a, n) && GrantedAt(a, i) && port == RememberedPort(a, i) != 0
  }

  /** Whichever way an attempt ends, each forward granted with a port is cancelled exactly once. */
  lemma GrantedForwardsCancelledOnce(a: Attempt, n: nat, i: nat, port: nat)
    ensures Count(AttemptRequests(a, n), Cancel(i, port)) == if GrantedWith(a, n, i, port) then 1 else 0
  {
    if a.connects {
      var k := GrantedCount(a, n);
      var asked := if k < n then k + 1 else n;
      TakenBackOnce(a, k, i, port);
      AskingCancelsNothing(asked, i, port);
      CountOfConcat(Asked(asked), TakenBack(a, k), Cancel(i, port));
    }
  }

  function GrantsOf(script: seq<Attempt>, ran: nat, n: nat, i: nat, port: nat): nat
    requires ran <= |script|
  {
    if ran == 0 then 0
    else GrantsOf(script, ran - 1, n, i, port) + if GrantedWith(script[ran - 1], n, i, port) then 1 else 0
  }

  /** Over a whole run, grants and cancels balance for every forward and port. */
  lemma {:induction false} RunCancelsEveryGrant(script: seq<Attempt>, ran: nat, n: nat, i: nat, port: nat)
    requires ran <= |script|
    ensures Count(AllRequests(script, ran, n), Cancel(i, port)) == GrantsOf(script, ran, n, i, port)
  {
    if ran > 0 {
      RunCancelsEveryGrant(script, ran - 1, n, i, port);
      GrantedForwardsCancelledOnce(script[ran - 1], n, i, port);
      CountOfConcat(AllRequests(script, ran - 1, n), AttemptRequests(script[ran - 1], n), Cancel(i, port));
    }
  }

  // --------------------------------------------------------- in terms of the script

  /** The attempt connects and every forward is granted. */
  predicate AllGranted(a: Attempt, n: nat) {
    a.connects && forall i: nat :: i < n ==> i < |a.replies| && a.replies[i].Granted?
  }

  lemma PublishesIffAllGranted(a: Attempt, n: nat)
    ensures Publishes(a, n) <==> AllGranted(a, n)
  {
    assert forall i: nat :: GrantedAt(a, i) <==> i < |a.replies| && a.replies[i].Granted?;
  }

  /**
  What an attempt does to the run: it goes on after a lost session, and after any other end but
  that of the first attempt, unless the user interrupts the attempt or the wait after it.
  */
  lemma RunGoesOnIff(a: Attempt, i: nat, n: nat)
    ensures Verdict(a, i, n) == StillRunning <==>
      !a.abandoned && !a.interruptedWait && if AllGranted(a, n) then a.ending.Lost? else i > 0
    ensures Verdict(a, i, n) == Failed <==> !a.abandoned && !AllGranted(a, n) && i == 0
    ensures Waits(a, i, n) <==> !a.abandoned && if AllGranted(a, n) then a.ending.Lost? else i > 0
  {
    PublishesIffAllGranted(a, n);
  }

  const DELAYS := [1, 2, 4, 8, 16, 32, 60]

  /**
  The wait after an attempt, in seconds: it starts over with the run and with every attempt that
  lasted more than ten seconds, doubles after each shorter one and stays at a minute.
  */
  lemma {:induction false} DelayTable(script: seq<Attempt>, first: nat, i: nat)
    requires first <= i < |script| && (first == 0 || script[first].milliseconds > 10_000)
    requires forall j :: first < j <= i ==> script[j].milliseconds <= 10_000
    ensures DelayAt(script, i) == DELAYS[if i - first < 6 then i - first else 6]
  {
    if i > first {
      DelayTable(script, first, i - 1);
    }
  }

  lemma {:induction false} AskingCounts(k: nat, i: nat)
    ensures Count(Asked(k), Ask(i)) == if i < k then 1 else 0
  {
    if k > 0 {
      AskingCounts(k - 1, i);
      CountOfConcat(Asked(k - 1), [Ask(k - 1)], Ask(i));
      assert [Ask(k - 1)][1..] == [];
    }
  }

  lemma {:induction false} TakingBackAsksNothing(a: Attempt, k: nat, i: nat)
    requires forall j: nat :: j < k ==> GrantedAt(a, j)
    ensures Count(TakenBack(a, k), Ask(i)) == 0
  {
    if k > 0 {
      var cancel := CancelOf(k - 1, RememberedPort(a, k - 1));
      TakingBackAsksNothing(a, k - 1, i);
      CountOfConcat(TakenBack(a, k - 1), cancel, Ask(i));
      assert cancel != [] ==> cancel[1..] == [];
    }
  }

  /** Every forward is asked for once, unless the attempt does not connect or one before it is refused. */
  lemma ForwardsAskedOnce(a: Attempt, n: nat, i: nat)
    ensures Count(AttemptRequests(a, n), Ask(i)) ==
      if a.connects && i < n && forall j: nat :: j < i ==> GrantedAt(a, j) then 1 else 0
  {
    if a.connects {
      var k := GrantedCount(a, n);
      var asked := if k < n then k + 1 else n;
      AskingCounts(asked, i);
      TakingBackAsksNothing(a, k, i);
      CountOfConcat(Asked(asked), TakenBack(a, k), Ask(i));
      assert i < asked <==> i < n && i <= k;
    }
  }

  /** The forwards are asked for in their order. */
  lemma {:induction false} AskedInOrder(k: nat)
    ensures |Asked(k)| == k && forall i: nat :: i < k ==> Asked(k)[i] == Ask(i)
  {
    if k > 0 {
      AskedInOrder(k - 1);
    }
  }

  /** A port is remembered by its last sixteen bits: as it is, when it has no more. */
  lemma PortsRemembered(a: Attempt, i: nat)
    requires GrantedAt(a, i)
    ensures a.replies[i].port < 65536 ==> RememberedPort(a, i) == a.replies[i].port
    ensures RememberedPort(a, i) + 65536 * (a.replies[i].port / 65536) == a.replies[i].port
  {
  }
}
