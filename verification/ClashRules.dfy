/**
Clash rule lists converted to sing-box rule-sets, and the meaning of both: which names,
addresses and processes a list or a rule-set matches.
*/
module ClashRules {
  import opened Wrappers
  import opened Text
  import opened Json

  const RULESET_VERSION := 4
  const CHUNK := 512

  datatype Kind = Suffix | Domain | Keyword | Regex | Cidr | Process

  datatype Entry = Entry(kind: Kind, value: string)

  function KeyOf(kind: Kind): string {
    match kind
    case Suffix => "domain_suffix"
    case Domain => "domain"
    case Keyword => "domain_keyword"
    case Regex => "domain_regex"
    case Cidr => "ip_cidr"
    case Process => "process_name"
  }

  // ---------------------------------------------------------- classification

  function AsciiUpper(s: string): string {
    seq(|s|, i requires 0 <= i < |s| => if 'a' <= s[i] <= 'z' then (s[i] as int - 32) as char else s[i])
  }

  const SKIPPED_PREFIXES := [
    "USER-AGENT,", "URL-REGEX,", "SCRIPT,", "AND,", "OR,", "NOT,", "GEOIP,", "FINAL,", "MATCH,", "RULE-SET,"]

  predicate IsSkipped(line: string) {
    exists i :: 0 <= i < |SKIPPED_PREFIXES| && SKIPPED_PREFIXES[i] <= AsciiUpper(line)
  }

  /** `addresses` are the texts that parse as IPv4 or IPv6 addresses. */
  predicate LooksLikeCidr(s: string, addresses: set<string>) {
    '/' in s && ParseU16(s[|Before(s, '/')| + 1..]).Some? && Before(s, '/') in addresses
  }

  function NormalizeSuffix(s: string): string {
    TrimStartChar(Trim(s), '.')
  }

  /** The first field after a rule's type. */
  function Field(line: string, prefix: string): string
    requires prefix <= line
  {
    Trim(Before(line[|prefix|..], ','))
  }

  function CidrEntry(value: string, addresses: set<string>): Option<Entry> {
    if LooksLikeCidr(value, addresses) then Some(Entry(Cidr, value)) else None
  }

  /** Plain list lines, without a rule type. */
  function ClassifyPlain(line: string, addresses: set<string>): Option<Entry>
    requires line != []
  {
    if IsSkipped(line) then None
    else if LooksLikeCidr(line, addresses) then Some(Entry(Cidr, line))
    else if "+." <= line then Some(Entry(Suffix, NormalizeSuffix(line[2..])))
    else if line[0] == '.' then Some(Entry(Suffix, NormalizeSuffix(line)))
    else if line[0] == '+' then Some(Entry(Suffix, NormalizeSuffix(TrimStartChar(line, '+'))))
    else if '/' in line then None
    else Some(Entry(Suffix, NormalizeSuffix(line)))
  }

  /** `classify_line`: the entry a trimmed line contributes, if any. */
  function Classify(line: string, addresses: set<string>): Option<Entry> {
    if line == [] || line[0] == '#' then None
    else if "PROCESS-NAME," <= line then
      (var name := Field(line, "PROCESS-NAME,"); if name == [] then None else Some(Entry(Process, name)))
    else if "DOMAIN-SUFFIX," <= line then Some(Entry(Suffix, NormalizeSuffix(Field(line, "DOMAIN-SUFFIX,"))))
    else if "DOMAIN," <= line then Some(Entry(Domain, Field(line, "DOMAIN,")))
    else if "DOMAIN-KEYWORD," <= line then Some(Entry(Keyword, Field(line, "DOMAIN-KEYWORD,")))
    else if "DOMAIN-REGEX," <= line then Some(Entry(Regex, Field(line, "DOMAIN-REGEX,")))
    else if "IP-CIDR," <= line then CidrEntry(Field(line, "IP-CIDR,"), addresses)
    else if "IP-CIDR6," <= line then CidrEntry(Field(line, "IP-CIDR6,"), addresses)
    else ClassifyPlain(line, addresses)
  }

  // --------------------------------------------------------------- conversion

  /** The six value lists filled while reading lines. */
  datatype Lists = Lists(
    suffixes: seq<string>, domains: seq<string>, keywords: seq<string>,
    regexes: seq<string>, cidrs: seq<string>, processes: seq<string>)
  {
    function Of(kind: Kind): seq<string> {
      match kind
      case Suffix => suffixes
      case Domain => domains
      case Keyword => keywords
      case Regex => regexes
      case Cidr => cidrs
      case Process => processes
    }

    function Push(entry: Option<Entry>): (r: Lists)
      ensures forall kind :: r.Of(kind) == Of(kind) + Contribution(entry, kind)
    {
      match entry
      case None => this
      case Some(Entry(kind, value)) =>
        match kind
        case Suffix => this.(suffixes := suffixes + [value])
        case Domain => this.(domains := domains + [value])
        case Keyword => this.(keywords := keywords + [value])
        case Regex => this.(regexes := regexes + [value])
        case Cidr => this.(cidrs := cidrs + [value])
        case Process => this.(processes := processes + [value])
    }
  }

  function Contribution(entry: Option<Entry>, kind: Kind): seq<string> {
    if entry.Some? && entry.value.kind == kind then [entry.value.value] else []
  }

  const NO_LISTS := Lists([], [], [], [], [], [])

  /** The entry of each line, if it contributes one. */
  function Entries(lines: seq<string>, addresses: set<string>): seq<Option<Entry>> {
    seq(|lines|, i requires 0 <= i < |lines| => Classify(Trim(lines[i]), addresses))
  }

  /** The lists after the first `n` entries. */
  function Collected(entries: seq<Option<Entry>>, n: nat): Lists
    requires n <= |entries|
  {
    if n == 0 then NO_LISTS else Collected(entries, n - 1).Push(entries[n - 1])
  }

  /** A headless rule: one key and its alternatives. */
  datatype Rule = Rule(kind: Kind, values: seq<string>)

  function Chunks(kind: Kind, values: seq<string>): seq<Rule> {
    if values == [] then []
    else if |values| <= CHUNK then [Rule(kind, values)]
    else [Rule(kind, values[..CHUNK])] + Chunks(kind, values[CHUNK..])
  }

  function RulesOf(lists: Lists): seq<Rule> {
    Chunks(Suffix, lists.suffixes) + Chunks(Domain, lists.domains) + Chunks(Keyword, lists.keywords)
    + Chunks(Regex, lists.regexes) + Chunks(Cidr, lists.cidrs) + Chunks(Process, lists.processes)
  }

  /** `lines_to_singbox_source`, up to printing the document. */
  function Convert(lines: seq<string>, addresses: set<string>): Result<seq<Rule>> {
    var rules := RulesOf(Collected(Entries(lines, addresses), |lines|));
    if rules == [] then Err("no rules extracted") else Ok(rules)
  }

  /** `push_chunks`: full chunks in a row, then what is left. */
  method PushChunks(rules: seq<Rule>, kind: Kind, values: seq<string>) returns (result: seq<Rule>)
    ensures result == rules + Chunks(kind, values)
  {
    result := rules;
    var todo := values;
    while todo != []
      invariant result + Chunks(kind, todo) == rules + Chunks(kind, values)
      decreases |todo|
    {
      var size := if |todo| < CHUNK then |todo| else CHUNK;
      var chunk := Rule(kind, todo[..size]);
      assert size == |todo| ==> todo[..size] == todo && Chunks(kind, todo[size..]) == [];
      assert Chunks(kind, todo) == [chunk] + Chunks(kind, todo[size..]);
      assert result + Chunks(kind, todo) == result + [chunk] + Chunks(kind, todo[size..]);
      result := result + [chunk];
      todo := todo[size..];
    }
  }

  method ConvertLines(lines: seq<string>, addresses: set<string>) returns (r: Result<seq<Rule>>)
    ensures r == Convert(lines, addresses)
  {
    var lists := NO_LISTS;
    for i := 0 to |lines|
      invariant lists == Collected(Entries(lines, addresses), i)
    {
      lists := lists.Push(Classify(Trim(lines[i]), addresses));
    }
    var rules := PushChunks([], Suffix, lists.suffixes);
    assert rules == Chunks(Suffix, lists.suffixes);
    rules := PushChunks(rules, Domain, lists.domains);
    rules := PushChunks(rules, Keyword, lists.keywords);
    rules := PushChunks(rules, Regex, lists.regexes);
    rules := PushChunks(rules, Cidr, lists.cidrs);
    rules := PushChunks(rules, Process, lists.processes);
    r := if rules == [] then Err("no rules extracted") else Ok(rules);
  }

  // ----------------------------------------------------------------- chunking

  function Flatten(rules: seq<Rule>): seq<string> {
    if rules == [] then [] else rules[0].values + Flatten(rules[1..])
  }

  lemma {:induction false} ChunksConcatenate(kind: Kind, values: seq<string>)
    ensures Flatten(Chunks(kind, values)) == values
    decreases |values|
  {
    var chunks := Chunks(kind, values);
    if |values| > CHUNK {
      ChunksConcatenate(kind, values[CHUNK..]);
      assert chunks[1..] == Chunks(kind, values[CHUNK..]);
    } else if values != [] {
      assert chunks[1..] == [];
    }
  }

  lemma {:induction false} ChunkSizes(kind: Kind, values: seq<string>, i: nat)
    requires i < |Chunks(kind, values)|
    ensures Chunks(kind, values)[i].kind == kind && 1 <= |Chunks(kind, values)[i].values| <= CHUNK
    ensures i < |Chunks(kind, values)| - 1 ==> |Chunks(kind, values)[i].values| == CHUNK
    decreases |values|
  {
    if |values| > CHUNK && i > 0 {
      ChunkSizes(kind, values[CHUNK..], i - 1);
    }
  }

  /** Chunking loses, repeats and reorders nothing; only the last chunk may be short. */
  lemma ChunksKeepEverything(kind: Kind, values: seq<string>)
    ensures Flatten(Chunks(kind, values)) == values
    ensures forall rule :: rule in Chunks(kind, values) ==> rule.kind == kind && 1 <= |rule.values| <= 512
    ensures forall i :: 0 <= i < |Chunks(kind, values)| - 1 ==> |Chunks(kind, values)[i].values| == 512
  {
    ChunksConcatenate(kind, values);
    forall i | 0 <= i < |Chunks(kind, values)|
      ensures Chunks(kind, values)[i].kind == kind && 1 <= |Chunks(kind, values)[i].values| <= CHUNK
      ensures i < |Chunks(kind, values)| - 1 ==> |Chunks(kind, values)[i].values| == CHUNK
    {
      ChunkSizes(kind, values, i);
    }
  }

  // ------------------------------------------------------------------ meaning

  /** What a connection is matched by. */
  datatype Query = Name(name: string) | Address(address: string) | Program(program: string)

  /** What the engine accepts as regular expressions and address ranges, and what these match. */
  datatype Engine = Engine(
    regexes: set<string>,
    cidrs: set<string>,
    regex: set<(string, string)>,
    ranges: set<(string, string)>)

  predicate Contains(s: string, t: string) {
    exists i :: 0 <= i <= |s| && t <= s[i..]
  }

  /** Names are compared without their final dots and without regard to ASCII case. */
  function Normal(name: string): string {
    AsciiLower(TrimEndChar(name, '.'))
  }

  /** A suffix without the dots around it. */
  function SuffixCore(suffix: string): string {
    Normal(TrimStartChar(suffix, '.'))
  }

  predicate IsBelow(name: string, core: string) {
    |core| < |name| && EndsWith(name, core) && name[|name| - |core| - 1] == '.'
  }

  /**
  The engine's suffix rule: all leading dots are dropped; with one a suffix matches
  subdomains only, without one it matches the name itself as well.
  */
  predicate SuffixMatches(suffix: string, name: string) {
    (!("." <= suffix) && Normal(name) == SuffixCore(suffix)) || IsBelow(Normal(name), SuffixCore(suffix))
  }

  predicate EntryMatches(entry: Entry, query: Query, engine: Engine) {
    match entry.kind
    case Suffix => query.Name? && SuffixMatches(entry.value, query.name)
    case Domain => query.Name? && Normal(query.name) == Normal(entry.value)
    case Keyword => query.Name? && Contains(Normal(query.name), AsciiLower(entry.value))
    case Regex => query.Name? && (entry.value, Normal(query.name)) in engine.regex
    case Cidr => query.Address? && (entry.value, query.address) in engine.ranges
    case Process => query.Program? && query.program == entry.value
  }

  predicate RuleMatches(rule: Rule, query: Query, engine: Engine) {
    exists v :: v in rule.values && EntryMatches(Entry(rule.kind, v), query, engine)
  }

  predicate RuleSetMatches(rules: seq<Rule>, query: Query, engine: Engine) {
    exists rule :: rule in rules && RuleMatches(rule, query, engine)
  }

  /** A list matches what the entry of some line matches. */
  predicate ListMatches(entries: seq<Option<Entry>>, query: Query, engine: Engine) {
    exists i :: 0 <= i < |entries| && entries[i].Some? && EntryMatches(entries[i].value, query, engine)
  }

  /** The chunks of one kind hold exactly its values. */
  lemma {:induction false} ChunksHold(kind: Kind, values: seq<string>, v: string)
    ensures v in values <==> exists rule :: rule in Chunks(kind, values) && v in rule.values
    decreases |values|
  {
    var chunks := Chunks(kind, values);
    if |values| > CHUNK {
      ChunksHold(kind, values[CHUNK..], v);
      assert values == values[..CHUNK] + values[CHUNK..];
      assert chunks[0].values == values[..CHUNK];
      assert chunks == [chunks[0]] + Chunks(kind, values[CHUNK..]);
    } else if values != [] {
      assert chunks[0].values == values && chunks[0] in chunks;
    }
  }

  /** The values of one kind that the lines contribute, read from the front. */
  function Contributed(entries: seq<Option<Entry>>, kind: Kind): seq<string> {
    if entries == [] then [] else Contribution(entries[0], kind) + Contributed(entries[1..], kind)
  }

  lemma {:induction false} ContributedLast(entries: seq<Option<Entry>>, kind: Kind)
    requires entries != []
    ensures Contributed(entries, kind)
      == Contributed(entries[..|entries| - 1], kind) + Contribution(entries[|entries| - 1], kind)
  {
    if |entries| > 1 {
      var last := |entries| - 1;
      ContributedLast(entries[1..], kind);
      assert entries[1..][..last - 1] == entries[..last][1..];
    }
  }

  lemma {:induction false} CollectedInOrder(entries: seq<Option<Entry>>, n: nat, kind: Kind)
    requires n <= |entries|
    ensures Collected(entries, n).Of(kind) == Contributed(entries[..n], kind)
  {
    if n > 0 {
      CollectedInOrder(entries, n - 1, kind);
      ContributedLast(entries[..n], kind);
      assert entries[..n][..n - 1] == entries[..n - 1];
    }
  }

  /** A value is contributed under a kind exactly when some line has it as its entry. */
  lemma {:induction false} ContributedFrom(entries: seq<Option<Entry>>, kind: Kind, v: string)
    ensures v in Contributed(entries, kind) <==> Some(Entry(kind, v)) in entries
  {
    if entries != [] {
      ContributedFrom(entries[1..], kind, v);
      assert entries == [entries[0]] + entries[1..];
    }
  }

  lemma RuleSetHolds(lists: Lists, rule: Rule)
    ensures rule in RulesOf(lists) <==> rule in Chunks(rule.kind, lists.Of(rule.kind))
  {
    ChunksOfKind(Suffix, lists.suffixes, rule);
    ChunksOfKind(Domain, lists.domains, rule);
    ChunksOfKind(Keyword, lists.keywords, rule);
    ChunksOfKind(Regex, lists.regexes, rule);
    ChunksOfKind(Cidr, lists.cidrs, rule);
    ChunksOfKind(Process, lists.processes, rule);
  }

  lemma ChunksOfKind(kind: Kind, values: seq<string>, rule: Rule)
    ensures rule in Chunks(kind, values) ==> rule.kind == kind
  {
    ChunksKeepEverything(kind, values);
  }

  /** An entry is in the emitted rules exactly when a line contributed it. */
  lemma EntryEmitted(entries: seq<Option<Entry>>, entry: Entry)
    ensures Some(entry) in entries
      <==> exists rule :: rule in RulesOf(Collected(entries, |entries|))
                          && rule.kind == entry.kind && entry.value in rule.values
  {
    var lists := Collected(entries, |entries|);
    var chunks := Chunks(entry.kind, lists.Of(entry.kind));
    assert entries[..|entries|] == entries;
    CollectedInOrder(entries, |entries|, entry.kind);
    ContributedFrom(entries, entry.kind, entry.value);
    ChunksHold(entry.kind, lists.Of(entry.kind), entry.value);
    ChunksKeepEverything(entry.kind, lists.Of(entry.kind));
    forall rule: Rule | rule.kind == entry.kind
      ensures rule in chunks <==> rule in RulesOf(lists)
    {
      RuleSetHolds(lists, rule);
    }
  }

  /** A query matches the emitted rule-set exactly when it matches the entry of some line. */
  lemma RulesMatchAsEntries(entries: seq<Option<Entry>>, query: Query, engine: Engine)
    ensures RuleSetMatches(RulesOf(Collected(entries, |entries|)), query, engine)
      <==> ListMatches(entries, query, engine)
  {
    var rules := RulesOf(Collected(entries, |entries|));
    if RuleSetMatches(rules, query, engine) {
      var rule :| rule in rules && RuleMatches(rule, query, engine);
      var v :| v in rule.values && EntryMatches(Entry(rule.kind, v), query, engine);
      EntryEmitted(entries, Entry(rule.kind, v));
    }
    if ListMatches(entries, query, engine) {
      var i :| 0 <= i < |entries| && entries[i].Some? && EntryMatches(entries[i].value, query, engine);
      EntryEmitted(entries, entries[i].value);
    }
  }

  /** A list that contributes nothing is an error; any other list keeps its meaning. */
  lemma ConversionKeepsMeaning(lines: seq<string>, addresses: set<string>, query: Query, engine: Engine)
    ensures Convert(lines, addresses).Err? <==> forall entry :: entry in Entries(lines, addresses) ==> entry.None?
    ensures Convert(lines, addresses).Ok? ==>
      (RuleSetMatches(Convert(lines, addresses).value, query, engine)
       <==> ListMatches(Entries(lines, addresses), query, engine))
  {
    var entries := Entries(lines, addresses);
    RulesMatchAsEntries(entries, query, engine);
    NoRulesIffNoEntries(entries);
  }

  lemma NoRulesIffNoEntries(entries: seq<Option<Entry>>)
    ensures RulesOf(Collected(entries, |entries|)) == [] <==> forall entry :: entry in entries ==> entry.None?
  {
    var lists := Collected(entries, |entries|);
    var rules := RulesOf(lists);
    if entry :| entry in entries && entry.Some? {
      EntryEmitted(entries, entry.value);
    }
    if rules != [] {
      RuleSetHolds(lists, rules[0]);
      ChunksKeepEverything(rules[0].kind, lists.Of(rules[0].kind));
      assert rules[0] in rules;
      var v := rules[0].values[0];
      EntryEmitted(entries, Entry(rules[0].kind, v));
      assert v in rules[0].values;
    }
  }

  // ------------------------------------------------------------ order and spelling

  /** The chunks of a kind, put back together, are its contributions in line order. */
  lemma ChunksInLineOrder(lines: seq<string>, addresses: set<string>, kind: Kind)
    ensures Flatten(Chunks(kind, Collected(Entries(lines, addresses), |lines|).Of(kind)))
      == Contributed(Entries(lines, addresses), kind)
  {
    var entries := Entries(lines, addresses);
    CollectedInOrder(entries, |lines|, kind);
    assert entries[..|lines|] == entries;
    ChunksKeepEverything(kind, Collected(entries, |lines|).Of(kind));
  }

  /** A host name as lists write it. */
  predicate PlainHost(host: string) {
    && host != [] && NoSpace(host) && ',' !in host && '/' !in host
    && host[0] != '.' && host[0] != '+' && host[0] != '#'
  }

  lemma NotSkipped(line: string)
    requires ',' !in line
    ensures !IsSkipped(line)
  {
    forall i | 0 <= i < |SKIPPED_PREFIXES|
      ensures !(SKIPPED_PREFIXES[i] <= AsciiUpper(line))
    {
      var prefix := SKIPPED_PREFIXES[i];
      assert prefix[|prefix| - 1] == ',';
      assert ',' !in AsciiUpper(line);
    }
  }

  /** Without a comma no typed rule matches. */
  lemma UntypedLine(line: string, addresses: set<string>)
    requires line != [] && line[0] != '#' && ',' !in line
    ensures Classify(line, addresses) == ClassifyPlain(line, addresses)
  {
    assert "PROCESS-NAME,"[12] == ',' && "DOMAIN-SUFFIX,"[13] == ',' && "DOMAIN,"[6] == ',';
    assert "DOMAIN-KEYWORD,"[14] == ',' && "DOMAIN-REGEX,"[12] == ',';
    assert "IP-CIDR,"[7] == ',' && "IP-CIDR6,"[8] == ',';
  }

  lemma NormalizePlain(host: string)
    requires PlainHost(host)
    ensures NormalizeSuffix(host) == host && NormalizeSuffix("." + host) == host
  {
    TrimNothing(host);
    TrimNothing("." + host);
    assert ("." + host)[1..] == host;
  }

  /** What an untyped line without commas and slashes contributes. */
  lemma UntypedSuffix(line: string, addresses: set<string>)
    requires line != [] && line[0] != '#' && ',' !in line && '/' !in line
    ensures Classify(line, addresses) == Some(Entry(Suffix, NormalizeSuffix(
      if "+." <= line then line[2..] else if line[0] == '+' then TrimStartChar(line, '+') else line)))
  {
    NotSkipped(line);
    UntypedLine(line, addresses);
  }

  /** A typed rule contributes its first field. */
  lemma TypedSuffix(rest: string, addresses: set<string>)
    ensures Classify("DOMAIN-SUFFIX," + rest, addresses)
      == Some(Entry(Suffix, NormalizeSuffix(Trim(Before(rest, ',')))))
  {
    var line := "DOMAIN-SUFFIX," + rest;
    assert line[|"DOMAIN-SUFFIX,"|..] == rest;
    assert line[0] == 'D' && "PROCESS-NAME,"[0] == 'P';
  }

  /** The ways a list can write a host and everything below it; the last one names a policy. */
  datatype Spelling = Bare | Dotted | PlusDotted | Plus | Typed | TypedWithPolicy(policy: string)

  function Spelled(spelling: Spelling, host: string): string {
    match spelling
    case Bare => host
    case Dotted => "." + host
    case PlusDotted => "+." + host
    case Plus => "+" + host
    case Typed => "DOMAIN-SUFFIX," + host
    case TypedWithPolicy(policy) => "DOMAIN-SUFFIX," + (host + [','] + policy)
  }

  lemma SpellingsAgree(spelling: Spelling, host: string, addresses: set<string>)
    requires PlainHost(host)
    ensures Classify(Spelled(spelling, host), addresses) == Some(Entry(Suffix, host))
  {
    NormalizePlain(host);
    TrimNothing(host);
    match spelling
    case Bare => UntypedSuffix(host, addresses);
    case Dotted => UntypedSuffix("." + host, addresses);
    case PlusDotted =>
      UntypedSuffix("+." + host, addresses);
      assert ("+." + host)[2..] == host;
    case Plus =>
      UntypedSuffix("+" + host, addresses);
      assert ("+" + host)[1..] == host;
    case Typed =>
      TypedSuffix(host, addresses);
      BeforeFirst(host, ',', []);
    case TypedWithPolicy(policy) =>
      TypedSuffix(host + [','] + policy, addresses);
      BeforeFirst(host, ',', policy);
  }

  /** In every spelling a host line matches exactly the host and its subdomains. */
  lemma SuffixLinesCoverApexAndSubdomains(
    spelling: Spelling, host: string, addresses: set<string>, name: string, engine: Engine)
    requires PlainHost(host)
    ensures ListMatches([Classify(Spelled(spelling, host), addresses)], Name(name), engine)
      <==> Normal(name) == Normal(host) || IsBelow(Normal(name), Normal(host))
  {
    SpellingsAgree(spelling, host, addresses);
    assert TrimStartChar(host, '.') == host;
    var entries := [Some(Entry(Suffix, host))];
    assert ListMatches(entries, Name(name), engine) <==> SuffixMatches(host, name) by {
      if SuffixMatches(host, name) {
        assert entries[0].Some? && EntryMatches(entries[0].value, Name(name), engine);
      }
    }
  }

  /** Suffixes leave the classifier without a leading dot. */
  lemma SuffixesUndotted(line: string, addresses: set<string>)
    ensures Classify(line, addresses).Some? && Classify(line, addresses).value.kind == Suffix ==>
      !("." <= Classify(line, addresses).value.value)
  {
  }

  // ------------------------------------------------------------------ loading

  /** The engine refuses empty names and suffixes, and patterns and ranges it cannot read. */
  predicate EntryLoads(entry: Entry, engine: Engine) {
    match entry.kind
    case Suffix => entry.value != []
    case Domain => entry.value != []
    case Regex => entry.value in engine.regexes
    case Cidr => entry.value in engine.cidrs
    case _ => true
  }

  /** One bad value makes the whole rule-set unusable. */
  predicate RuleSetLoads(rules: seq<Rule>, engine: Engine) {
    forall rule, v :: rule in rules && v in rule.values ==> EntryLoads(Entry(rule.kind, v), engine)
  }

  /** The emitted rule-set loads exactly when every line's entry does. */
  lemma LoadsIffEveryEntryLoads(lines: seq<string>, addresses: set<string>, engine: Engine)
    requires Convert(lines, addresses).Ok?
    ensures RuleSetLoads(Convert(lines, addresses).value, engine)
      <==> forall entry :: Some(entry) in Entries(lines, addresses) ==> EntryLoads(entry, engine)
  {
    var entries := Entries(lines, addresses);
    var rules := Convert(lines, addresses).value;
    if RuleSetLoads(rules, engine) {
      forall entry | Some(entry) in entries
        ensures EntryLoads(entry, engine)
      {
        EntryEmitted(entries, entry);
      }
    } else {
      var rule, v :| rule in rules && v in rule.values && !EntryLoads(Entry(rule.kind, v), engine);
      EntryEmitted(entries, Entry(rule.kind, v));
    }
  }

  // ------------------------------------------------------- lines that name nothing

  predicate OnlyDots(s: string) {
    forall i :: 0 <= i < |s| ==> s[i] == '.'
  }

  lemma {:induction false} NothingLeftIff(s: string)
    ensures TrimStartChar(s, '.') == [] <==> OnlyDots(s)
  {
    if s != [] {
      NothingLeftIff(s[1..]);
      assert s == [s[0]] + s[1..];
    }
  }

  /** Typed rules whose first field is blank, or for suffixes nothing but dots. */
  predicate HollowTyped(line: string) {
    || ("DOMAIN," <= line && Field(line, "DOMAIN,") == [])
    || ("DOMAIN-SUFFIX," <= line && OnlyDots(Trim(Field(line, "DOMAIN-SUFFIX,"))))
  }

  /** Untyped lines of dots, also after `+.` or after plus signs. */
  predicate HollowPlain(line: string)
    requires line != []
  {
    if "+." <= line then OnlyDots(Trim(line[2..]))
    else if line[0] == '+' then OnlyDots(Trim(TrimStartChar(line, '+')))
    else line[0] == '.' && OnlyDots(Trim(line))
  }

  /** A line that names a host or a suffix and leaves it empty. */
  predicate Hollow(line: string) {
    line != [] && (HollowTyped(line) || HollowPlain(line))
  }

  predicate ContributesNothing(entry: Option<Entry>) {
    entry == Some(Entry(Suffix, [])) || entry == Some(Entry(Domain, []))
  }

  lemma {:induction false} NoSlashAfterPlus(line: string)
    requires '/' in line
    ensures '/' in TrimStartChar(line, '+')
  {
    if line != [] && line[0] == '+' {
      assert line == [line[0]] + line[1..];
      NoSlashAfterPlus(line[1..]);
    }
  }

  lemma {:induction false} SlashSurvivesTrimStart(s: string)
    requires '/' in s
    ensures '/' in TrimStart(s)
  {
    if IsSpace(s[0]) {
      assert s == [s[0]] + s[1..];
      SlashSurvivesTrimStart(s[1..]);
    }
  }

  lemma {:induction false} SlashSurvivesTrimEnd(s: string)
    requires '/' in s
    ensures '/' in TrimEnd(s)
  {
    if IsSpace(s[|s| - 1]) {
      assert s == s[..|s| - 1] + [s[|s| - 1]];
      SlashSurvivesTrimEnd(s[..|s| - 1]);
    }
  }

  lemma DotsHaveNoSlash(s: string)
    requires OnlyDots(Trim(s))
    ensures '/' !in s
  {
    if '/' in s {
      SlashSurvivesTrimStart(s);
      SlashSurvivesTrimEnd(TrimStart(s));
    }
  }

  /** Lines that start with a plus sign or a dot are not typed and not skipped. */
  lemma PlainStart(line: string, addresses: set<string>)
    requires line != [] && (line[0] == '+' || line[0] == '.')
    ensures Classify(line, addresses) == ClassifyPlain(line, addresses) && !IsSkipped(line)
    ensures !HollowTyped(line)
  {
    assert "PROCESS-NAME,"[0] == 'P' && "DOMAIN-SUFFIX,"[0] == 'D' && "DOMAIN,"[0] == 'D';
    assert "DOMAIN-KEYWORD,"[0] == 'D' && "DOMAIN-REGEX,"[0] == 'D' && "IP-CIDR,"[0] == 'I' && "IP-CIDR6,"[0] == 'I';
    forall i | 0 <= i < |SKIPPED_PREFIXES|
      ensures !(SKIPPED_PREFIXES[i] <= AsciiUpper(line))
    {
      assert SKIPPED_PREFIXES[i][0] in "USAONGFMR";
      assert AsciiUpper(line)[0] == line[0];
    }
  }

  lemma HollowPlainIff(line: string, addresses: set<string>)
    requires line != [] && (line[0] == '+' || line[0] == '.')
    ensures ContributesNothing(Classify(line, addresses)) <==> Hollow(line)
  {
    PlainStart(line, addresses);
    var rest := if "+." <= line then line[2..] else if line[0] == '+' then TrimStartChar(line, '+') else line;
    NothingLeftIff(Trim(rest));
    if OnlyDots(Trim(rest)) {
      DotsHaveNoSlash(rest);
      SlashInRest(line);
    }
  }

  /** Dropping plus signs and a dot drops no slash. */
  lemma SlashInRest(line: string)
    ensures "+." <= line && '/' in line ==> '/' in line[2..]
    ensures '/' in line ==> '/' in TrimStartChar(line, '+')
  {
    if '/' in line {
      NoSlashAfterPlus(line);
    }
    assert "+." <= line ==> line == "+." + line[2..];
  }

  lemma HollowSuffixIff(line: string, addresses: set<string>)
    requires "DOMAIN-SUFFIX," <= line
    ensures ContributesNothing(Classify(line, addresses)) <==> Hollow(line)
  {
    var rest := line[|"DOMAIN-SUFFIX,"|..];
    assert line == "DOMAIN-SUFFIX," + rest;
    TypedSuffix(rest, addresses);
    NothingLeftIff(Trim(Field(line, "DOMAIN-SUFFIX,")));
    assert line[0] == 'D' && line[6] == '-' && "DOMAIN,"[6] == ',';
  }

  lemma HollowDomainIff(line: string, addresses: set<string>)
    requires "DOMAIN," <= line
    ensures ContributesNothing(Classify(line, addresses)) <==> Hollow(line)
  {
    assert line[0] == 'D' && line[6] == ',' && "PROCESS-NAME,"[0] == 'P' && "DOMAIN-SUFFIX,"[6] == '-';
  }

  lemma NotHollow(line: string, addresses: set<string>)
    requires Trim(line) == line && !("DOMAIN," <= line) && !("DOMAIN-SUFFIX," <= line)
    requires line != [] ==> line[0] != '+' && line[0] != '.'
    ensures !ContributesNothing(Classify(line, addresses)) && !Hollow(line)
  {
  }

  /** A line contributes an empty host or suffix exactly when its text is hollow. */
  lemma ContributesNothingIff(line: string, addresses: set<string>)
    requires Trim(line) == line
    ensures ContributesNothing(Classify(line, addresses)) <==> Hollow(line)
  {
    if line != [] && (line[0] == '+' || line[0] == '.') {
      HollowPlainIff(line, addresses);
    } else if "DOMAIN-SUFFIX," <= line {
      HollowSuffixIff(line, addresses);
    } else if "DOMAIN," <= line {
      HollowDomainIff(line, addresses);
    } else {
      NotHollow(line, addresses);
    }
  }

  /** The patterns and ranges that lines contribute are ones the engine can read. */
  ghost predicate Readable(entries: seq<Option<Entry>>, engine: Engine) {
    forall entry :: Some(entry) in entries && (entry.kind == Regex || entry.kind == Cidr) ==> EntryLoads(entry, engine)
  }

  /** The emitted rule-set loads exactly when no line is hollow and its patterns and ranges can be read. */
  lemma LoadsIffNoLineHollow(lines: seq<string>, addresses: set<string>, engine: Engine)
    requires Convert(lines, addresses).Ok?
    ensures RuleSetLoads(Convert(lines, addresses).value, engine)
      <==> (forall line :: line in lines ==> !Hollow(Trim(line))) && Readable(Entries(lines, addresses), engine)
  {
    var entries := Entries(lines, addresses);
    LoadsIffEveryEntryLoads(lines, addresses, engine);
    forall i | 0 <= i < |lines|
      ensures ContributesNothing(entries[i]) <==> Hollow(Trim(lines[i]))
    {
      TrimTwice(lines[i]);
      ContributesNothingIff(Trim(lines[i]), addresses);
    }
    EntriesLoadIff(entries, engine);
  }

  lemma EntriesLoadIff(entries: seq<Option<Entry>>, engine: Engine)
    ensures (forall entry :: Some(entry) in entries ==> EntryLoads(entry, engine))
      <==> (forall i :: 0 <= i < |entries| ==> !ContributesNothing(entries[i])) && Readable(entries, engine)
  {
    if i :| 0 <= i < |entries| && ContributesNothing(entries[i]) {
      assert Some(entries[i].value) in entries && !EntryLoads(entries[i].value, engine);
    }
    if entry :| Some(entry) in entries && !EntryLoads(entry, engine) {
      var i :| 0 <= i < |entries| && entries[i] == Some(entry);
      assert entry.kind == Suffix || entry.kind == Domain ==> ContributesNothing(entries[i]);
    }
  }

  /** One hollow line and the whole list cannot be loaded, though it converts. */
  lemma HollowLineMakesListUnusable(lines: seq<string>, addresses: set<string>, engine: Engine, i: nat)
    requires i < |lines| && Hollow(Trim(lines[i]))
    ensures Convert(lines, addresses).Ok? && !RuleSetLoads(Convert(lines, addresses).value, engine)
  {
    var entries := Entries(lines, addresses);
    TrimTwice(lines[i]);
    ContributesNothingIff(Trim(lines[i]), addresses);
    assert entries[i] in entries;
    NoRulesIffNoEntries(entries);
    assert lines[i] in lines;
    LoadsIffNoLineHollow(lines, addresses, engine);
  }

  /** Some of the lines this is about. */
  lemma HollowLines(line: string)
    requires line in [".", "..", "+", "+.", "+..", "DOMAIN,", "DOMAIN-SUFFIX,", "DOMAIN-SUFFIX, ,x"]
    ensures Hollow(line)
  {
    assert Trim([]) == [] && Trim(" ") == [];
    if line == "DOMAIN-SUFFIX, ,x" {
      BeforeFirst(" ", ',', "x");
      assert line[|"DOMAIN-SUFFIX,"|..] == " " + [','] + "x";
    } else if line == "DOMAIN-SUFFIX," {
      assert line[|"DOMAIN-SUFFIX,"|..] == [];
    } else if line == "DOMAIN," {
      assert line[|"DOMAIN,"|..] == [];
    } else {
      TrimNothing(line);
      PlusAndDots(line);
    }
  }

  lemma PlusAndDots(line: string)
    requires line in [".", "..", "+", "+.", "+.."]
    ensures HollowPlain(line)
  {
    assert "+"[1..] == [] && "+."[2..] == [] && "+.."[2..] == ".";
    TrimNothing(".");
    TrimNothing("..");
    assert TrimStartChar("+", '+') == TrimStartChar([], '+');
  }
}
