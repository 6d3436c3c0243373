/**
Connecting to an upstream WebSocket: bounded retries, bounded redirects in each, and an
authorization header that must not leave the host it was meant for.

A server is a script of replies, one for each connection attempt; every attempt past the
script times out.
*/
module Redirects {
  import opened Wrappers
  import opened Text

  const RETRIES := 3
  const MAX_REDIRECTS := 5

  /** A parsed URL: its host, if it has one, and everything else. */
  datatype Url = Url(host: Option<string>, rest: string)

  /**
  What an attempt meets. An HTTP reply has a status and the WebSocket URL its location
  leads to, if there is a usable one.
  */
  datatype Reply = Accepted | Http(status: nat, location: Option<Url>) | TimedOut

  function ReplyAt(script: seq<Reply>, i: nat): Reply {
    if i < |script| then script[i] else TimedOut
  }

  /** The redirect statuses of section 15.4 of RFC 9110 that are followed. */
  predicate IsRedirectStatus(status: nat) {
    status in {301, 302, 303, 307, 308}
  }

  predicate IsRedirect(reply: Reply) {
    reply.Http? && IsRedirectStatus(reply.status)
  }

  /** Hosts are compared without regard to ASCII case. */
  function HostKey(url: Url): Option<string> {
    if url.host.Some? then Some(AsciiLower(url.host.value)) else None
  }

  predicate SameHost(a: Url, b: Url) {
    a.host.Some? && b.host.Some? && AsciiLower(a.host.value) == AsciiLower(b.host.value)
  }

  /** One connection attempt: where to, whether with the header, and whether a redirect led there. */
  datatype Sent = Sent(url: Url, authorized: bool, redirected: bool)

  datatype State = State(sent: Sent, attempt: nat, redirects: nat)

  predicate InRange(s: State) {
    1 <= s.attempt <= RETRIES && s.redirects <= MAX_REDIRECTS
  }

  /** How many connection attempts can still be made. */
  function Left(s: State): nat
    requires InRange(s)
  {
    (RETRIES - s.attempt) * (MAX_REDIRECTS + 1) + (MAX_REDIRECTS + 1 - s.redirects)
  }

  /** The next retry repeats the last request. */
  function Retry(s: State): Option<State> {
    if s.attempt < RETRIES then Some(State(s.sent.(redirected := false), s.attempt + 1, 0)) else None
  }

  /** `websocket_redirect_request`: the header is kept on the same host only. */
  function Follow(s: State, next: Url): State {
    State(Sent(next, s.sent.authorized && SameHost(s.sent.url, next), true), s.attempt, s.redirects + 1)
  }

  function Next(s: State, reply: Reply): (r: Option<State>)
    requires InRange(s)
    ensures r.Some? ==> InRange(r.value) && Left(r.value) < Left(s)
  {
    if reply.Accepted? then None
    else if IsRedirect(reply) then
      if reply.location.None? then None
      else if s.redirects >= MAX_REDIRECTS then Retry(s)
      else Some(Follow(s, reply.location.value))
    else Retry(s)
  }

  /** Everything sent from a state on, when `i` attempts were made before it. */
  function Trace(s: State, script: seq<Reply>, i: nat): seq<Sent>
    requires InRange(s)
    decreases Left(s)
  {
    var next := Next(s, ReplyAt(script, i));
    [s.sent] + if next.Some? then Trace(next.value, script, i + 1) else []
  }

  function Start(url: Url, token: bool): State {
    State(Sent(url, token, false), 1, 0)
  }

  /** Connected, or given up after a redirect that cannot be followed, or after all retries. */
  datatype Outcome = Connected | BadRedirect | Exhausted

  function OutcomeOf(reply: Reply): Outcome {
    if reply.Accepted? then Connected
    else if IsRedirect(reply) && reply.location.None? then BadRedirect
    else Exhausted
  }

  function Rest(next: Option<State>, script: seq<Reply>, i: nat): seq<Sent>
    requires next.Some? ==> InRange(next.value)
  {
    if next.Some? then Trace(next.value, script, i) else []
  }

  /** Moving the first request of a trace to the log. */
  lemma SendOne(log: seq<Sent>, s: State, script: seq<Reply>)
    requires InRange(s)
    ensures log + Trace(s, script, |log|) == log + [s.sent] + Rest(Next(s, ReplyAt(script, |log|)), script, |log| + 1)
  {
  }

  /** The requests of one retry: the first one and the redirects it follows. */
  method FollowRedirects(first: Sent, attempt: nat, script: seq<Reply>, sent: seq<Sent>)
    returns (log: seq<Sent>, last: Sent, outcome: Outcome)
    requires 1 <= attempt <= RETRIES && !first.redirected
    ensures log != [] && outcome == OutcomeOf(ReplyAt(script, |log| - 1))
    ensures (sent + Trace(State(first, attempt, 0), script, |sent|)
             == log + Rest(if outcome.Exhausted? then Retry(State(last, attempt, 0)) else None, script, |log|))
  {
    log, last := sent, first;
    var redirects := 0;
    while true
      invariant redirects <= MAX_REDIRECTS
      invariant log + Trace(State(last, attempt, redirects), script, |log|)
             == sent + Trace(State(first, attempt, 0), script, |sent|)
      decreases MAX_REDIRECTS - redirects
    {
      var reply := ReplyAt(script, |log|);
      SendOne(log, State(last, attempt, redirects), script);
      log := log + [last];
      if reply.Accepted? {
        return log, last, Connected;
      }
      if IsRedirect(reply) {
        if reply.location.None? {
          return log, last, BadRedirect;
        }
        if redirects >= MAX_REDIRECTS {
          return log, last, Exhausted;
        }
        var next := reply.location.value;
        last := Sent(next, last.authorized && SameHost(last.url, next), true);
        redirects := redirects + 1;
        continue;
      }
      return log, last, Exhausted;
    }
  }

  /** `connect_upstream_websocket`. */
  method Connect(url: Url, token: bool, script: seq<Reply>) returns (outcome: Outcome, log: seq<Sent>)
    ensures log == Trace(Start(url, token), script, 0)
    ensures log != [] && outcome == OutcomeOf(ReplyAt(script, |log| - 1))
  {
    log := [];
    var request := Sent(url, token, false);
    var attempt := 1;
    while true
      invariant 1 <= attempt <= RETRIES && !request.redirected
      invariant log + Trace(State(request, attempt, 0), script, |log|) == Trace(Start(url, token), script, 0)
      decreases RETRIES - attempt
    {
      log, request, outcome := FollowRedirects(request, attempt, script, log);
      if !outcome.Exhausted? || attempt == RETRIES {
        assert log + [] == log;
        return;
      }
      request := request.(redirected := false);
      attempt := attempt + 1;
    }
  }

  // --------------------------------------------------------------- consequences

  /** A whole connect makes at most eighteen attempts. */
  lemma {:induction false} AttemptsBounded(s: State, script: seq<Reply>, i: nat)
    requires InRange(s)
    ensures 1 <= |Trace(s, script, i)| <= Left(s)
    decreases Left(s)
  {
    var next := Next(s, ReplyAt(script, i));
    if next.Some? {
      AttemptsBounded(next.value, script, i + 1);
    }
  }

  lemma AtMostEighteen(url: Url, token: bool, script: seq<Reply>)
    ensures |Trace(Start(url, token), script, 0)| <= 18
  {
    AttemptsBounded(Start(url, token), script, 0);
  }

  /** A server that keeps redirecting is tried exactly as often as the bound allows. */
  lemma {:induction false} EndlessRedirects(s: State, script: seq<Reply>, i: nat)
    requires InRange(s) && i + Left(s) <= |script|
    requires forall j :: i <= j < |script| ==> IsRedirect(script[j]) && script[j].location.Some?
    ensures |Trace(s, script, i)| == Left(s)
    decreases Left(s)
  {
    var next := Next(s, ReplyAt(script, i));
    if next.Some? {
      EndlessRedirects(next.value, script, i + 1);
    }
  }

  /** The requests up to the `k`-th all followed redirects within one host. */
  predicate NeverLeftHost(trace: seq<Sent>, k: nat)
    requires k < |trace|
  {
    forall j :: 0 < j <= k && trace[j].redirected ==> SameHost(trace[j - 1].url, trace[j].url)
  }

  /** A request carries the header exactly when it was given one and no redirect before it left the host. */
  lemma {:induction false} HeaderIffHostKept(s: State, script: seq<Reply>, i: nat, k: nat)
    requires InRange(s) && k < |Trace(s, script, i)|
    ensures Trace(s, script, i)[k].authorized <==> s.sent.authorized && NeverLeftHost(Trace(s, script, i), k)
    decreases Left(s)
  {
    var trace := Trace(s, script, i);
    var next := Next(s, ReplyAt(script, i));
    if k > 0 {
      var rest := Trace(next.value, script, i + 1);
      assert trace == [s.sent] + rest && rest[0] == next.value.sent;
      HeaderIffHostKept(next.value, script, i + 1, k - 1);
      assert NeverLeftHost(trace, k)
        <==> NeverLeftHost(rest, k - 1) && (rest[0].redirected ==> SameHost(s.sent.url, rest[0].url)) by {
        ShiftHosts(trace, rest, k);
      }
    }
  }

  lemma ShiftHosts(trace: seq<Sent>, rest: seq<Sent>, k: nat)
    requires 0 < k <= |rest| && |trace| == |rest| + 1 && trace[1..] == rest
    ensures NeverLeftHost(trace, k)
      <==> NeverLeftHost(rest, k - 1) && (rest[0].redirected ==> SameHost(trace[0].url, rest[0].url))
  {
    assert forall j :: 0 < j <= k ==> trace[j] == rest[j - 1];
    if NeverLeftHost(trace, k) {
      forall j | 0 < j <= k - 1 && rest[j].redirected
        ensures SameHost(rest[j - 1].url, rest[j].url)
      {
        assert trace[j + 1] == rest[j];
      }
      assert trace[1] == rest[0];
    }
  }

  /** When a request carries the header, every URL visited so far has the original host. */
  lemma {:induction false} HeaderStaysOnHost(s: State, script: seq<Reply>, i: nat, k: nat)
    requires InRange(s) && k < |Trace(s, script, i)| && Trace(s, script, i)[k].authorized
    ensures forall j :: 0 <= j <= k ==> HostKey(Trace(s, script, i)[j].url) == HostKey(s.sent.url)
    ensures s.sent.authorized
    decreases Left(s)
  {
    var trace := Trace(s, script, i);
    if k > 0 {
      var next := Next(s, ReplyAt(script, i)).value;
      HeaderStaysOnHost(next, script, i + 1, k - 1);
      assert trace[1..] == Trace(next, script, i + 1);
      assert HostKey(next.sent.url) == HostKey(s.sent.url);
    }
  }

  // -------------------------------------------------------- in terms of the replies

  predicate Redirecting(reply: Reply) {
    reply.Http? && (reply.status == 301 || reply.status == 302 || reply.status == 303
                    || reply.status == 307 || reply.status == 308)
  }

  /** What leads from one request to the next: a redirect to where it leads, anything else to the same place. */
  predicate Leads(before: Sent, reply: Reply, after: Sent) {
    && !reply.Accepted?
    && (after.redirected ==> Redirecting(reply) && reply.location == Some(after.url))
    && (!after.redirected ==> after.url == before.url && after.authorized == before.authorized)
  }

  lemma {:induction false} EachRequestFollows(s: State, script: seq<Reply>, i: nat, k: nat)
    requires InRange(s) && k + 1 < |Trace(s, script, i)|
    ensures Leads(Trace(s, script, i)[k], ReplyAt(script, i + k), Trace(s, script, i)[k + 1])
    decreases Left(s)
  {
    var trace, next := Trace(s, script, i), Next(s, ReplyAt(script, i)).value;
    var rest := Trace(next, script, i + 1);
    assert trace == [s.sent] + rest && rest[0] == next.sent;
    if k > 0 {
      EachRequestFollows(next, script, i + 1, k - 1);
    }
  }

  /** A connect ends with the reply that accepts it, or with one that leaves nothing to try. */
  lemma {:induction false} LastReplyEnds(s: State, script: seq<Reply>, i: nat)
    requires InRange(s)
    ensures var last := ReplyAt(script, i + |Trace(s, script, i)| - 1);
      || last.Accepted? || (Redirecting(last) && last.location.None?) || |Trace(s, script, i)| >= 4 - s.attempt
    decreases Left(s)
  {
    var next := Next(s, ReplyAt(script, i));
    if next.Some? {
      LastReplyEnds(next.value, script, i + 1);
    }
  }

  predicate Refused(reply: Reply) {
    !reply.Accepted? && !Redirecting(reply)
  }

  /** A server that only refuses is asked three times, at the same place and with the same header. */
  lemma RefusalsTriedThrice(url: Url, token: bool, script: seq<Reply>)
    requires forall i: nat :: i < 3 ==> Refused(ReplyAt(script, i))
    ensures var sent := Sent(url, token, false); Trace(Start(url, token), script, 0) == [sent, sent, sent]
  {
    var s := Start(url, token);
    var s2, s3 := State(s.sent, 2, 0), State(s.sent, 3, 0);
    assert Refused(ReplyAt(script, 0)) && Refused(ReplyAt(script, 1)) && Refused(ReplyAt(script, 2));
    assert Next(s, ReplyAt(script, 0)) == Some(s2) && Next(s2, ReplyAt(script, 1)) == Some(s3);
    assert Trace(s3, script, 2) == [s.sent] && Trace(s2, script, 1) == [s.sent] + Trace(s3, script, 2);
  }

  /** Up to five redirects in a row are followed to the server that accepts. */
  lemma {:induction false} FiveRedirectsFollowed(s: State, script: seq<Reply>, i: nat, n: nat)
    requires 1 <= s.attempt <= 3 && s.redirects + n <= 5 && i + n < |script| && script[i + n].Accepted?
    requires forall j :: i <= j < i + n ==> Redirecting(script[j]) && script[j].location.Some?
    ensures InRange(s) && |Trace(s, script, i)| == n + 1
    ensures n > 0 ==> Redirecting(script[i + n - 1]) && script[i + n - 1].location == Some(Trace(s, script, i)[n].url)
    decreases n
  {
    if n > 0 {
      var next := Follow(s, script[i].location.value);
      assert Next(s, ReplyAt(script, i)) == Some(next);
      FiveRedirectsFollowed(next, script, i + 1, n - 1);
      assert Trace(s, script, i) == [s.sent] + Trace(next, script, i + 1);
    }
  }

  /** A sixth one makes the next retry start over from where the fifth led. */
  lemma SixthRedirectRetries(s: State, reply: Reply)
    requires InRange(s) && s.redirects == 5 && Redirecting(reply) && reply.location.Some?
    ensures Next(s, reply) ==
      if s.attempt < 3 then Some(State(s.sent.(redirected := false), s.attempt + 1, 0)) else None
  {
  }

  /** Hosts agree when they differ in nothing but the case of ASCII letters. */
  lemma SameHostIgnoresCase(a: Url, b: Url)
    ensures SameHost(a, b) <==> a.host.Some? && b.host.Some? && SameButForCase(a.host.value, b.host.value)
  {
    if a.host.Some? && b.host.Some? {
      LowerAgreeIff(a.host.value, b.host.value);
    }
  }
}
