/** What each kind of list line matches, from its text to the keys of the emitted document. */
module ClashMeaning {
  import opened Wrappers
  import opened Text
  import opened Json
  import opened ClashRules
  import opened SuffixMigration

  // ------------------------------------------------------------------ typed lines

  datatype LineType = DomainLine | KeywordLine | RegexLine | CidrLine | Cidr6Line | ProcessLine

  function TypeText(t: LineType): string {
    match t
    case DomainLine => "DOMAIN,"
    case KeywordLine => "DOMAIN-KEYWORD,"
    case RegexLine => "DOMAIN-REGEX,"
    case CidrLine => "IP-CIDR,"
    case Cidr6Line => "IP-CIDR6,"
    case ProcessLine => "PROCESS-NAME,"
  }

  /** A line with its type and value, and perhaps a policy that is not looked at. */
  function Written(t: LineType, value: string, policy: Option<string>): string {
    TypeText(t) + if policy.Some? then value + [','] + policy.value else value
  }

  /** A value as lists write it. */
  predicate PlainValue(value: string) {
    value != [] && NoSpace(value) && ',' !in value
  }

  lemma FieldOf(t: LineType, value: string, policy: Option<string>)
    requires PlainValue(value)
    ensures TypeText(t) <= Written(t, value, policy) && Field(Written(t, value, policy), TypeText(t)) == value
  {
    var line, rest := Written(t, value, policy), if policy.Some? then value + [','] + policy.value else value;
    assert line[|TypeText(t)|..] == rest;
    BeforeFirst(value, ',', if policy.Some? then policy.value else []);
    TrimNothing(value);
  }

  /** The types are told apart by their first letters, or where one of them ends. */
  lemma TypesDiffer(line: string)
    ensures "DOMAIN," <= line ==> line[0] == 'D' && line[6] == ','
    ensures "DOMAIN-SUFFIX," <= line ==> line[6] == '-' && line[7] == 'S'
    ensures "DOMAIN-KEYWORD," <= line ==> line[0] == 'D' && line[6] == '-' && line[7] == 'K'
    ensures "DOMAIN-REGEX," <= line ==> line[0] == 'D' && line[6] == '-' && line[7] == 'R'
    ensures "IP-CIDR," <= line ==> line[0] == 'I' && line[7] == ','
    ensures "IP-CIDR6," <= line ==> line[0] == 'I' && line[7] == '6'
    ensures "PROCESS-NAME," <= line ==> line[0] == 'P'
  {
  }

  function EntryFor(t: LineType, value: string, addresses: set<string>): Option<Entry> {
    match t
    case DomainLine => Some(Entry(Domain, value))
    case KeywordLine => Some(Entry(Keyword, value))
    case RegexLine => Some(Entry(Regex, value))
    case ProcessLine => if value == [] then None else Some(Entry(Process, value))
    case _ => if LooksLikeCidr(value, addresses) then Some(Entry(Cidr, value)) else None
  }

  lemma TypedEntry(line: string, t: LineType, addresses: set<string>)
    requires TypeText(t) <= line
    ensures Classify(line, addresses) == EntryFor(t, Field(line, TypeText(t)), addresses)
  {
    TypesDiffer(line);
  }

  /** What a typed line matches: names, parts of names, patterns, ranges that are ones, or programs. */
  predicate TypedMatches(t: LineType, value: string, addresses: set<string>, query: Query, engine: Engine) {
    match t
    case DomainLine => query.Name? && Normal(query.name) == Normal(value)
    case KeywordLine => query.Name? && Contains(Normal(query.name), AsciiLower(value))
    case RegexLine => query.Name? && (value, Normal(query.name)) in engine.regex
    case ProcessLine => query.Program? && query.program == value
    case _ => query.Address? && LooksLikeCidr(value, addresses) && (value, query.address) in engine.ranges
  }

  lemma OneEntryMatches(entry: Option<Entry>, query: Query, engine: Engine)
    ensures ListMatches([entry], query, engine) <==> entry.Some? && EntryMatches(entry.value, query, engine)
  {
    var entries := [entry];
    if entry.Some? && EntryMatches(entry.value, query, engine) {
      assert entries[0].Some? && EntryMatches(entries[0].value, query, engine);
    }
  }

  lemma EntryForMatches(t: LineType, value: string, addresses: set<string>, query: Query, engine: Engine)
    requires value != []
    ensures ListMatches([EntryFor(t, value, addresses)], query, engine)
      <==> TypedMatches(t, value, addresses, query, engine)
  {
    OneEntryMatches(EntryFor(t, value, addresses), query, engine);
  }

  lemma TypedLineEntry(t: LineType, value: string, policy: Option<string>, addresses: set<string>)
    requires PlainValue(value)
    ensures Classify(Written(t, value, policy), addresses) == EntryFor(t, value, addresses)
  {
    FieldOf(t, value, policy);
    TypedEntry(Written(t, value, policy), t, addresses);
  }

  lemma TypedLinesMatch(
    t: LineType, value: string, policy: Option<string>, addresses: set<string>, query: Query, engine: Engine)
    requires PlainValue(value)
    ensures ListMatches([Classify(Written(t, value, policy), addresses)], query, engine)
      <==> TypedMatches(t, value, addresses, query, engine)
  {
    TypedLineEntry(t, value, policy, addresses);
    EntryForMatches(t, value, addresses, query, engine);
  }

  // ----------------------------------------------------------- ranges and ignored lines

  /** A range is an address, a slash and a number; written alone or typed, it is kept as it is. */
  lemma RangeSpelling(address: string, digits: string, addresses: set<string>)
    requires '/' !in address
    ensures LooksLikeCidr(address + ['/'] + digits, addresses) <==> address in addresses && ParseU16(digits).Some?
  {
    var text := address + ['/'] + digits;
    BeforeFirst(address, '/', digits);
    assert text[|address|] == '/' && text[|address| + 1..] == digits;
  }

  lemma PlainRange(line: string, addresses: set<string>)
    requires line != [] && line[0] != '#' && ',' !in line && LooksLikeCidr(line, addresses)
    ensures Classify(line, addresses) == Some(Entry(Cidr, line))
  {
    NotSkipped(line);
    UntypedLine(line, addresses);
  }

  const IGNORED := [
    "USER-AGENT,", "URL-REGEX,", "SCRIPT,", "AND,", "OR,", "NOT,", "GEOIP,", "FINAL,", "MATCH,", "RULE-SET,"]

  /** Comments, and rules about anything but names, addresses and programs, in any case, contribute nothing. */
  lemma IgnoredLines(line: string, i: nat, addresses: set<string>)
    requires i < |IGNORED| && IGNORED[i] <= AsciiUpper(line)
    ensures Classify(line, addresses) == None
    ensures Classify(['#'] + line, addresses) == None && Classify([], addresses) == None
  {
    assert IGNORED[i][0] in "USAONGFMR";
    assert AsciiUpper(line)[0] == IGNORED[i][0];
    assert line[0] != 'P' && line[0] != 'D' && line[0] != 'I' && line[0] != '#';
    TypesDiffer(line);
    assert IsSkipped(line) by { assert SKIPPED_PREFIXES[i] <= AsciiUpper(line); }
  }

  // --------------------------------------------------------------- the document

  /** What a value means under the key it stands under. */
  predicate KeyMatches(key: string, value: string, query: Query, engine: Engine) {
    || (key == "domain" && query.Name? && Normal(query.name) == Normal(value))
    || (key == "domain_suffix" && query.Name? && SuffixMatches(value, query.name))
    || (key == "domain_keyword" && query.Name? && Contains(Normal(query.name), AsciiLower(value)))
    || (key == "domain_regex" && query.Name? && (value, Normal(query.name)) in engine.regex)
    || (key == "ip_cidr" && query.Address? && (value, query.address) in engine.ranges)
    || (key == "process_name" && query.Program? && query.program == value)
  }

  /** Some value of the rule matches under its key. */
  predicate JsonRuleMatches(rule: Json, query: Query, engine: Engine) {
    rule.Obj? && exists key :: key in rule.fields && ValuesMatch(key, rule.fields[key], query, engine)
  }

  predicate ValuesMatch(key: string, values: Json, query: Query, engine: Engine) {
    && values.Arr?
    && exists i :: 0 <= i < |values.items| && values.items[i].Str? && KeyMatches(key, values.items[i].s, query, engine)
  }

  predicate DocumentMatches(document: Json, query: Query, engine: Engine) {
    match Get(document, "rules")
    case Some(Arr(rules)) => exists i :: 0 <= i < |rules| && JsonRuleMatches(rules[i], query, engine)
    case _ => false
  }

  lemma KeyMeansKind(kind: Kind, value: string, query: Query, engine: Engine)
    ensures KeyMatches(KeyOf(kind), value, query, engine) <==> EntryMatches(Entry(kind, value), query, engine)
  {
    match kind
    case Suffix =>
    case Domain =>
    case Keyword =>
    case Regex =>
    case Cidr =>
    case Process =>
  }

  lemma RuleJsonMatches(rule: Rule, query: Query, engine: Engine)
    ensures JsonRuleMatches(RuleJson(rule), query, engine) <==> RuleMatches(rule, query, engine)
  {
    var key, items := KeyOf(rule.kind), Strs(rule.values).items;
    assert forall i :: 0 <= i < |items| ==> items[i] == Str(rule.values[i]);
    assert RuleJson(rule).fields == map[key := Strs(rule.values)] && key in RuleJson(rule).fields;
    if JsonRuleMatches(RuleJson(rule), query, engine) {
      var i :| 0 <= i < |items| && items[i].Str? && KeyMatches(key, items[i].s, query, engine);
      KeyMeansKind(rule.kind, rule.values[i], query, engine);
    }
    if RuleMatches(rule, query, engine) {
      var v :| v in rule.values && EntryMatches(Entry(rule.kind, v), query, engine);
      var i :| 0 <= i < |rule.values| && rule.values[i] == v;
      KeyMeansKind(rule.kind, v, query, engine);
      assert KeyMatches(key, items[i].s, query, engine);
    }
  }

  lemma DocumentMatchesRules(rules: seq<Rule>, query: Query, engine: Engine)
    ensures DocumentMatches(Document(rules), query, engine) <==> RuleSetMatches(rules, query, engine)
  {
    var listed := Document(rules).fields["rules"].items;
    forall i | 0 <= i < |rules|
      ensures listed[i] == RuleJson(rules[i])
      ensures JsonRuleMatches(listed[i], query, engine) <==> RuleMatches(rules[i], query, engine)
    {
      RuleJsonMatches(rules[i], query, engine);
    }
    if rule :| rule in rules && RuleMatches(rule, query, engine) {
      var i :| 0 <= i < |rules| && rules[i] == rule;
      assert JsonRuleMatches(listed[i], query, engine);
    }
  }

  /** The emitted document, read by its keys, matches exactly what the entries of the lines match. */
  lemma DocumentKeepsMeaning(lines: seq<string>, addresses: set<string>, query: Query, engine: Engine)
    requires Convert(lines, addresses).Ok?
    ensures var document := Document(Convert(lines, addresses).value);
      && Get(document, "version") == Some(Num(4))
      && (DocumentMatches(document, query, engine) <==> ListMatches(Entries(lines, addresses), query, engine))
  {
    ConversionKeepsMeaning(lines, addresses, query, engine);
    DocumentMatchesRules(Convert(lines, addresses).value, query, engine);
  }
}
