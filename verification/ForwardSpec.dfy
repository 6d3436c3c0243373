/** SSH forward specifications: `[bind_address:]port:host:hostport`, with brackets around IPv6 addresses. */
module ForwardSpec {
  import opened Wrappers
  import opened Text

  datatype Spec = Spec(bindHost: string, bindPort: nat, destHost: string, destPort: nat)

  datatype HostPort = HostPort(host: string, port: nat, rest: string)

  // ------------------------------------------------------------------ printing

  /** `socket_addr`. */
  function SocketAddr(host: string, port: nat): string {
    Address(host, Digits(port))
  }

  function Address(host: string, digits: string): string {
    if ':' in host then "[" + host + "]:" + digits else host + ":" + digits
  }

  function Print(spec: Spec): string {
    SocketAddr(spec.bindHost, spec.bindPort) + ":" + SocketAddr(spec.destHost, spec.destPort)
  }

  // ------------------------------------------------------------------- parsing

  function SplitColons(s: string): seq<string> {
    if ':' !in s then [s] else [Before(s, ':')] + SplitColons(s[|Before(s, ':')| + 1..])
  }

  /** A port up to the next colon, and what follows it. */
  function ParsePort(host: string, s: string): Result<HostPort> {
    var digits := Before(s, ':');
    match ParseU16(digits)
    case None => Err("invalid port")
    case Some(port) => Ok(HostPort(host, port, s[|digits|..]))
  }

  /** `parse_host_port`. */
  function ParseHostPort(text: string): Result<HostPort> {
    var s := TrimStart(text);
    if "[" <= s then
      if ']' !in s then Err("missing ']' in IPv6 address")
      else
        var inner := Before(s, ']');
        var rest := s[|inner| + 1..];
        if !(":" <= rest) then Err("expected ':' after ']'")
        else ParsePort(if inner == [] then [] else inner[1..], rest[1..])
    else if ':' !in s then Err("missing ':' before port")
    else
      var host := Before(s, ':');
      if host == [] then Err("host must not be empty") else ParsePort(host, s[|host| + 1..])
  }

  function ParsePlain(parts: seq<string>): Result<Spec> {
    if |parts| == 3 then
      match (ParseU16(parts[0]), ParseU16(parts[2]))
      case (None, _) => Err("invalid bind port")
      case (_, None) => Err("invalid destination port")
      case (Some(bindPort), Some(destPort)) => Ok(Spec("127.0.0.1", bindPort, parts[1], destPort))
    else if |parts| == 4 then
      match (ParseU16(parts[1]), ParseU16(parts[3]))
      case (None, _) => Err("invalid bind port")
      case (_, None) => Err("invalid destination port")
      case (Some(bindPort), Some(destPort)) => Ok(Spec(parts[0], bindPort, parts[2], destPort))
    else Err("invalid forward spec")
  }

  function ParseBracketed(s: string): Result<Spec> {
    match ParseHostPort(s)
    case Err(e) => Err(e)
    case Ok(bind) =>
      if !(":" <= bind.rest) || |bind.rest| == 1 then Err("missing destination")
      else
        match ParseHostPort(bind.rest[1..])
        case Err(e) => Err(e)
        case Ok(dest) =>
          if dest.rest != [] then Err("unexpected trailing data")
          else Ok(Spec(bind.host, bind.port, dest.host, dest.port))
  }

  /** `parse_forward_spec`. */
  function Parse(text: string): Result<Spec> {
    var s := Trim(text);
    if s == [] then Err("forward spec must not be empty")
    else if '[' !in s then ParsePlain(SplitColons(s))
    else ParseBracketed(s)
  }

  // -------------------------------------------------------------------- ports

  lemma {:induction false} DigitsAreDigits(n: nat)
    ensures AllDigits(Digits(n)) && DecimalValue(Digits(n)) == n
  {
    if n >= 10 {
      DigitsAreDigits(n / 10);
      assert Digits(n)[..|Digits(n)| - 1] == Digits(n / 10);
      OneDigit(n % 10);
    } else {
      OneDigit(n);
      assert Digits(n)[..0] == [];
    }
  }

  lemma OneDigit(n: nat)
    requires n < 10
    ensures IsDigit(Digit(n)) && DigitValue(Digit(n)) == n
  {
  }

  /** Printing and reading a port. */
  lemma PortRoundTrip(port: nat)
    requires port <= U16_MAX
    ensures ParseU16(Digits(port)) == Some(port)
    ensures ':' !in Digits(port) && '[' !in Digits(port) && ']' !in Digits(port) && NoSpace(Digits(port))
  {
    DigitsAreDigits(port);
  }

  /** Text without brackets and white space. */
  predicate Clean(s: string) {
    '[' !in s && ']' !in s && NoSpace(s)
  }

  /** Text that is read as a port. */
  predicate IsPort(digits: string, port: nat) {
    ParseU16(digits) == Some(port) && ':' !in digits && Clean(digits)
  }

  /** A port ends at a colon or at the end. */
  predicate EndsPort(tail: string) {
    tail == [] || tail[0] == ':'
  }

  lemma BeforeTail(digits: string, tail: string)
    requires ':' !in digits && EndsPort(tail)
    ensures Before(digits + tail, ':') == digits
  {
    if tail == [] {
      BeforeFirst(digits, ':', []);
      assert digits + tail == digits;
    } else {
      BeforeFirst(digits, ':', tail[1..]);
      assert digits + tail == digits + [':'] + tail[1..];
    }
  }

  lemma PortParses(host: string, digits: string, port: nat, tail: string)
    requires IsPort(digits, port) && EndsPort(tail)
    ensures ParsePort(host, digits + tail) == Ok(HostPort(host, port, tail))
  {
    BeforeTail(digits, tail);
    assert (digits + tail)[|digits|..] == tail;
  }

  lemma BracketedReads(s: string, inner: string, rest: string)
    requires "[" <= inner && ']' !in inner && ":" <= rest && s == inner + [']'] + rest
    ensures ParseHostPort(s) == ParsePort(inner[1..], rest[1..])
  {
    assert s[0] == '[' && TrimStart(s) == s;
    BeforeFirst(inner, ']', rest);
    assert s[|inner| + 1..] == rest;
  }

  lemma PlainReads(s: string, host: string, after: string)
    requires Clean(host) && ':' !in host && s == host + [':'] + after
    ensures ParseHostPort(s) == if host == [] then Err("host must not be empty") else ParsePort(host, after)
  {
    assert s[0] != '[' && TrimStart(s) == s;
    BeforeFirst(host, ':', after);
    assert s[|host| + 1..] == after;
  }

  lemma BracketedText(host: string, digits: string, tail: string)
    requires ':' in host
    ensures Address(host, digits) + tail == "[" + host + [']'] + (":" + (digits + tail))
    ensures ("[" + host)[1..] == host && (":" + (digits + tail))[1..] == digits + tail
  {
  }

  /** The port is read after the host, in brackets or not. */
  lemma AddressReads(host: string, digits: string, tail: string)
    requires Clean(host)
    ensures ParseHostPort(Address(host, digits) + tail)
      == if host == [] then Err("host must not be empty") else ParsePort(host, digits + tail)
  {
    var s, after := Address(host, digits) + tail, digits + tail;
    if ':' in host {
      BracketedText(host, digits, tail);
      BracketedReads(s, "[" + host, ":" + after);
    } else {
      assert s == host + [':'] + after;
      PlainReads(s, host, after);
    }
  }

  /** A printed address is read back, whatever follows it; an empty host is refused. */
  lemma AddressParses(host: string, digits: string, port: nat, tail: string)
    requires Clean(host) && IsPort(digits, port) && EndsPort(tail)
    ensures ParseHostPort(Address(host, digits) + tail)
      == if host == [] then Err("host must not be empty") else Ok(HostPort(host, port, tail))
  {
    AddressReads(host, digits, tail);
    PortParses(host, digits, port, tail);
  }

  // -------------------------------------------------------------- whole specs

  lemma SplitFirst(part: string, rest: string)
    requires ':' !in part
    ensures SplitColons(part + ":" + rest) == [part] + SplitColons(rest)
  {
    assert part + ":" + rest == part + [':'] + rest;
    BeforeFirst(part, ':', rest);
    assert (part + ":" + rest)[|part| + 1..] == rest;
  }

  lemma SplitFour(a: string, b: string, c: string, d: string)
    requires ':' !in a && ':' !in b && ':' !in c && ':' !in d
    ensures SplitColons(a + ":" + (b + ":" + (c + ":" + d))) == [a, b, c, d]
  {
    SplitFirst(a, b + ":" + (c + ":" + d));
    SplitFirst(b, c + ":" + d);
    SplitFirst(c, d);
  }

  /** The text of two addresses joined by a colon. */
  function Joined(bindHost: string, bindDigits: string, destHost: string, destDigits: string): string {
    Address(bindHost, bindDigits) + (":" + Address(destHost, destDigits))
  }

  lemma AddressText(host: string, digits: string)
    requires Clean(host) && Clean(digits)
    ensures NoSpace(Address(host, digits)) && ('[' in Address(host, digits) <==> ':' in host)
  {
    if ':' in host {
      assert Address(host, digits)[0] == '[';
    }
  }

  lemma JoinedText(bindHost: string, bindDigits: string, destHost: string, destDigits: string)
    requires Clean(bindHost) && Clean(bindDigits) && Clean(destHost) && Clean(destDigits)
    ensures NoSpace(Joined(bindHost, bindDigits, destHost, destDigits))
    ensures '[' in Joined(bindHost, bindDigits, destHost, destDigits) <==> ':' in bindHost || ':' in destHost
  {
    AddressText(bindHost, bindDigits);
    AddressText(destHost, destDigits);
    TwoParts(Address(bindHost, bindDigits), Address(destHost, destDigits));
  }

  lemma TwoParts(a: string, b: string)
    requires NoSpace(a) && NoSpace(b)
    ensures NoSpace(a + (":" + b)) && ('[' in a + (":" + b) <==> '[' in a || '[' in b)
  {
    assert '[' in a + (":" + b) <==> '[' in a || '[' in ":" + b;
    assert '[' in ":" + b <==> '[' in b;
  }

  lemma ParseClean(text: string)
    requires NoSpace(text) && text != []
    ensures Parse(text) == if '[' !in text then ParsePlain(SplitColons(text)) else ParseBracketed(text)
  {
    TrimNothing(text);
  }

  lemma BracketedSpecParses(spec: Spec, bindDigits: string, destDigits: string)
    requires Clean(spec.bindHost) && Clean(spec.destHost)
    requires IsPort(bindDigits, spec.bindPort) && IsPort(destDigits, spec.destPort)
    ensures ParseBracketed(Joined(spec.bindHost, bindDigits, spec.destHost, destDigits))
      == if spec.bindHost == [] || spec.destHost == [] then Err("host must not be empty") else Ok(spec)
  {
    var dest := Address(spec.destHost, destDigits);
    AddressParses(spec.bindHost, bindDigits, spec.bindPort, ":" + dest);
    AddressParses(spec.destHost, destDigits, spec.destPort, []);
    assert dest + [] == dest && (":" + dest)[1..] == dest;
  }

  lemma PlainSpecParses(spec: Spec, bindDigits: string, destDigits: string)
    requires ':' !in spec.bindHost && ':' !in spec.destHost
    requires IsPort(bindDigits, spec.bindPort) && IsPort(destDigits, spec.destPort)
    ensures ParsePlain(SplitColons(Joined(spec.bindHost, bindDigits, spec.destHost, destDigits))) == Ok(spec)
  {
    SplitFour(spec.bindHost, bindDigits, spec.destHost, destDigits);
    JoinedFour(spec.bindHost, bindDigits, spec.destHost, destDigits);
  }

  lemma JoinedFour(a: string, b: string, c: string, d: string)
    requires ':' !in a && ':' !in c
    ensures Joined(a, b, c, d) == a + ":" + (b + ":" + (c + ":" + d))
  {
  }

  /** What is read back from two printed addresses, for any hosts without brackets and white space. */
  lemma JoinedParses(spec: Spec, bindDigits: string, destDigits: string)
    requires Clean(spec.bindHost) && Clean(spec.destHost)
    requires IsPort(bindDigits, spec.bindPort) && IsPort(destDigits, spec.destPort)
    ensures Parse(Joined(spec.bindHost, bindDigits, spec.destHost, destDigits))
      == if EmptyBesideBracketed(spec) then Err("host must not be empty") else Ok(spec)
  {
    JoinedText(spec.bindHost, bindDigits, spec.destHost, destDigits);
    ParseClean(Joined(spec.bindHost, bindDigits, spec.destHost, destDigits));
    if ':' in spec.bindHost || ':' in spec.destHost {
      BracketedSpecParses(spec, bindDigits, destDigits);
    } else {
      PlainSpecParses(spec, bindDigits, destDigits);
    }
  }

  /** An empty host is refused only when the other one is in brackets. */
  predicate EmptyBesideBracketed(spec: Spec) {
    (spec.bindHost == [] && ':' in spec.destHost) || (spec.destHost == [] && ':' in spec.bindHost)
  }

  predicate IsPrintable(spec: Spec) {
    Clean(spec.bindHost) && Clean(spec.destHost) && spec.bindPort <= U16_MAX && spec.destPort <= U16_MAX
  }

  /** Printing and parsing give the same specification back, unless an empty host stands beside a bracketed one. */
  lemma RoundTripIff(spec: Spec)
    requires IsPrintable(spec)
    ensures Parse(Print(spec)) == Ok(spec) <==> !EmptyBesideBracketed(spec)
    ensures spec.bindHost != [] && spec.destHost != [] ==> Parse(Print(spec)) == Ok(spec)
  {
    PortRoundTrip(spec.bindPort);
    PortRoundTrip(spec.destPort);
    var bindDigits, destDigits := Digits(spec.bindPort), Digits(spec.destPort);
    JoinedParses(spec, bindDigits, destDigits);
    assert Print(spec) == Joined(spec.bindHost, bindDigits, spec.destHost, destDigits);
  }

  /** Without a bind address the forward listens on the loopback address. */
  lemma DefaultBindAddress(bindPort: nat, destHost: string, destPort: nat)
    requires bindPort <= U16_MAX && destPort <= U16_MAX && Clean(destHost) && ':' !in destHost
    ensures Parse(Digits(bindPort) + ":" + SocketAddr(destHost, destPort))
      == Ok(Spec("127.0.0.1", bindPort, destHost, destPort))
  {
    PortRoundTrip(bindPort);
    PortRoundTrip(destPort);
    DefaultBind(bindPort, Digits(bindPort), destHost, destPort, Digits(destPort));
  }

  lemma DefaultBind(bindPort: nat, bindDigits: string, destHost: string, destPort: nat, destDigits: string)
    requires IsPort(bindDigits, bindPort) && IsPort(destDigits, destPort) && Clean(destHost) && ':' !in destHost
    ensures Parse(bindDigits + ":" + Address(destHost, destDigits))
      == Ok(Spec("127.0.0.1", bindPort, destHost, destPort))
  {
    var dest := Address(destHost, destDigits);
    AddressText(destHost, destDigits);
    TwoParts(bindDigits, dest);
    assert bindDigits + ":" + dest == bindDigits + (":" + dest);
    ParseClean(bindDigits + (":" + dest));
    SplitThree(bindDigits, destHost, destDigits);
  }

  lemma SplitThree(a: string, b: string, c: string)
    requires ':' !in a && ':' !in b && ':' !in c
    ensures SplitColons(a + ":" + (b + ":" + c)) == [a, b, c]
  {
    SplitFirst(a, b + ":" + c);
    SplitFirst(b, c);
  }

  // ------------------------------------------------------------------ other texts

  function JoinColons(parts: seq<string>): string
    requires parts != []
  {
    if |parts| == 1 then parts[0] else parts[0] + ":" + JoinColons(parts[1..])
  }

  lemma {:induction false} BeforeSplits(s: string)
    requires ':' in s
    ensures var part := Before(s, ':'); ':' !in part && s == part + ":" + s[|part| + 1..]
  {
    if s[0] != ':' {
      assert s == [s[0]] + s[1..];
      BeforeSplits(s[1..]);
      assert Before(s, ':') == [s[0]] + Before(s[1..], ':');
    }
  }

  /** The parts of a text are what stands between its colons. */
  lemma {:induction false} PartsRebuild(s: string)
    ensures SplitColons(s) != [] && JoinColons(SplitColons(s)) == s
    ensures forall i :: 0 <= i < |SplitColons(s)| ==> ':' !in SplitColons(s)[i]
    decreases |s|
  {
    if ':' in s {
      BeforeSplits(s);
      var rest := s[|Before(s, ':')| + 1..];
      PartsRebuild(rest);
      assert SplitColons(s)[1..] == SplitColons(rest);
    }
  }

  /** Without brackets exactly the texts of three or four parts with readable ports are accepted. */
  lemma PlainAcceptedIff(text: string)
    requires NoSpace(text) && text != [] && '[' !in text
    ensures var parts := SplitColons(text); var n := |parts|;
      Parse(text).Ok? <==> (n == 3 || n == 4) && ParseU16(parts[n - 3]).Some? && ParseU16(parts[n - 1]).Some?
  {
    ParseClean(text);
  }

  /** Beside a bracketed host nothing may follow the second port. */
  lemma TrailingDataRefused(spec: Spec, bindDigits: string, destDigits: string, tail: string)
    requires Clean(spec.bindHost) && Clean(spec.destHost) && spec.bindHost != [] && spec.destHost != []
    requires IsPort(bindDigits, spec.bindPort) && IsPort(destDigits, spec.destPort)
    requires tail != [] && tail[0] == ':'
    ensures ParseBracketed(Address(spec.bindHost, bindDigits) + (":" + (Address(spec.destHost, destDigits) + tail)))
      == Err("unexpected trailing data")
  {
    var dest := Address(spec.destHost, destDigits) + tail;
    AddressParses(spec.bindHost, bindDigits, spec.bindPort, ":" + dest);
    AddressParses(spec.destHost, destDigits, spec.destPort, tail);
    assert (":" + dest)[1..] == dest;
  }
}
