/**
The migration of stored rule-sets: one leading dot is removed from each `domain_suffix`
entry, so that the entry covers the name itself as well as its subdomains.
*/
module SuffixMigration {
  import opened Wrappers
  import opened Text
  import opened Json
  import opened ClashRules

  function StripDot(s: string): string {
    if "." <= s && |s| > 1 then s[1..] else s
  }

  function StripItem(item: Json): Json {
    if item.Str? then Str(StripDot(item.s)) else item
  }

  function StripItems(items: seq<Json>): seq<Json> {
    seq(|items|, i requires 0 <= i < |items| => StripItem(items[i]))
  }

  const SUFFIX_KEY := "domain_suffix"

  /** The suffix list of a rule, when it has one. */
  function SuffixItems(rule: Json): Option<seq<Json>> {
    match Get(rule, SUFFIX_KEY)
    case Some(Arr(items)) => Some(items)
    case _ => None
  }

  function StripRule(rule: Json): Json {
    if SuffixItems(rule).Some? then Obj(rule.fields[SUFFIX_KEY := Arr(StripItems(SuffixItems(rule).value))]) else rule
  }

  function StripRules(rules: seq<Json>): seq<Json> {
    seq(|rules|, i requires 0 <= i < |rules| => StripRule(rules[i]))
  }

  function RulesIn(doc: Json): Option<seq<Json>> {
    match Get(doc, "rules")
    case Some(Arr(rules)) => Some(rules)
    case _ => None
  }

  function StripDoc(doc: Json): Json {
    if RulesIn(doc).Some? then Obj(doc.fields["rules" := Arr(StripRules(RulesIn(doc).value))]) else doc
  }

  method StripItemsInPlace(items: seq<Json>) returns (result: seq<Json>, changed: bool)
    ensures result == StripItems(items)
    ensures changed <==> StripItems(items) != items
  {
    result, changed := items, false;
    for i := 0 to |items|
      invariant |result| == |items|
      invariant result[..i] == StripItems(items)[..i]
      invariant result[i..] == items[i..]
      invariant changed <==> StripItems(items)[..i] != items[..i]
    {
      ghost var stripped := StripItems(items);
      assert stripped[..i + 1] == stripped[..i] + [stripped[i]] && items[..i + 1] == items[..i] + [items[i]];
      if items[i].Str? && "." <= items[i].s && |items[i].s| > 1 {
        result := result[i := Str(items[i].s[1..])];
        assert |stripped[i].s| < |items[i].s|;
        changed := true;
      } else {
        assert stripped[i] == items[i];
      }
      assert result[..i + 1] == result[..i] + [result[i]];
    }
  }

  /** `strip_leading_dots_in_ruleset_json` on a parsed document: the new document, if anything changed. */
  method StripLeadingDots(doc: Json) returns (r: Option<Json>)
    ensures r == if StripDoc(doc) == doc then None else Some(StripDoc(doc))
  {
    if RulesIn(doc).None? {
      return None;
    }
    var rules := RulesIn(doc).value;
    var result, changed := rules, false;
    for i := 0 to |rules|
      invariant |result| == |rules|
      invariant result[..i] == StripRules(rules)[..i]
      invariant result[i..] == rules[i..]
      invariant changed <==> StripRules(rules)[..i] != rules[..i]
    {
      ghost var stripped := StripRules(rules);
      assert stripped[..i + 1] == stripped[..i] + [stripped[i]] && rules[..i + 1] == rules[..i] + [rules[i]];
      if SuffixItems(rules[i]).Some? {
        var items, edited := StripItemsInPlace(SuffixItems(rules[i]).value);
        result := result[i := Obj(rules[i].fields[SUFFIX_KEY := Arr(items)])];
        RuleUnchanged(rules[i]);
        changed := changed || edited;
      }
      assert result[..i + 1] == result[..i] + [result[i]];
    }
    assert result == StripRules(rules);
    assert rules[..|rules|] == rules && StripRules(rules)[..|rules|] == StripRules(rules);
    DocUnchanged(doc);
    return if changed then Some(Obj(doc.fields["rules" := Arr(result)])) else None;
  }

  lemma RuleUnchanged(rule: Json)
    requires SuffixItems(rule).Some?
    ensures StripRule(rule) == rule <==> StripItems(SuffixItems(rule).value) == SuffixItems(rule).value
  {
    var items := SuffixItems(rule).value;
    assert Get(StripRule(rule), SUFFIX_KEY) == Some(Arr(StripItems(items)));
    if StripItems(items) == items {
      assert rule.fields[SUFFIX_KEY := Arr(items)] == rule.fields;
    }
  }

  lemma DocUnchanged(doc: Json)
    requires RulesIn(doc).Some?
    ensures StripDoc(doc) == doc <==> StripRules(RulesIn(doc).value) == RulesIn(doc).value
  {
    var rules := RulesIn(doc).value;
    assert Get(StripDoc(doc), "rules") == Some(Arr(StripRules(rules)));
    if StripRules(rules) == rules {
      assert doc.fields["rules" := Arr(rules)] == doc.fields;
    }
  }

  // ------------------------------------------------------------------ meaning

  predicate RuleLists(rule: Json, suffix: string) {
    SuffixItems(rule).Some? && Str(suffix) in SuffixItems(rule).value
  }

  /** A suffix is listed by some rule of a document. */
  predicate Listed(doc: Json, suffix: string) {
    RulesIn(doc).Some? && exists rule :: rule in RulesIn(doc).value && RuleLists(rule, suffix)
  }

  ghost predicate MatchedBySuffix(doc: Json, name: string) {
    exists suffix :: Listed(doc, suffix) && SuffixMatches(suffix, name)
  }

  predicate DoublyDotted(suffix: string) {
    ".." <= suffix
  }

  /** A suffix that is listed with exactly one dot in front of something. */
  predicate SinglyDotted(suffix: string) {
    "." <= suffix && |suffix| > 1 && !DoublyDotted(suffix)
  }

  /** Stripping keeps what is below a suffix, and gains the suffix itself when it had one dot. */
  lemma StrippedSuffix(suffix: string, name: string)
    ensures SuffixMatches(StripDot(suffix), name)
      <==> SuffixMatches(suffix, name) || (SinglyDotted(suffix) && Normal(name) == SuffixCore(suffix))
  {
    if "." <= suffix && |suffix| > 1 {
      assert TrimStartChar(suffix, '.') == TrimStartChar(suffix[1..], '.');
    }
  }

  lemma {:induction false} TrimmedEnd(s: string)
    ensures TrimEndChar(AsciiLower(TrimEndChar(s, '.')), '.') == AsciiLower(TrimEndChar(s, '.'))
  {
    var t := TrimEndChar(s, '.');
    assert t != [] ==> AsciiLower(t)[|t| - 1] != '.';
  }

  lemma NormalTwice(s: string)
    ensures Normal(Normal(s)) == Normal(s)
  {
    TrimmedEnd(s);
    var t := AsciiLower(TrimEndChar(s, '.'));
    assert AsciiLower(t) == t;
  }

  lemma LoneDot()
    ensures SuffixCore(".") == []
  {
    assert TrimStartChar(".", '.') == TrimStartChar([], '.');
  }

  /**
  What the migration is for: a stripped suffix matches the name it is the suffix of. It does
  so exactly when the suffix had no more than one leading dot.
  */
  lemma CoversApexIff(suffix: string)
    requires SuffixCore(suffix) != []
    ensures SuffixMatches(StripDot(suffix), SuffixCore(suffix)) <==> !DoublyDotted(suffix)
  {
    var core := SuffixCore(suffix);
    NormalTwice(TrimStartChar(suffix, '.'));
    StrippedSuffix(suffix, core);
    assert !IsBelow(core, core);
    LoneDot();
    assert "." <= suffix && |suffix| == 1 ==> suffix == ".";
  }

  /** Items and rules of the stripped document are the stripped items and rules. */
  lemma ListedAfter(doc: Json, suffix: string)
    ensures Listed(StripDoc(doc), suffix) <==> exists before :: Listed(doc, before) && StripDot(before) == suffix
  {
    if RulesIn(doc).Some? {
      var rules := RulesIn(doc).value;
      assert RulesIn(StripDoc(doc)) == Some(StripRules(rules));
      if Listed(StripDoc(doc), suffix) {
        var i :| 0 <= i < |rules| && RuleLists(StripRule(rules[i]), suffix);
        var before := RuleListsAfter(rules[i], suffix);
        assert Listed(doc, before);
      }
      if before :| Listed(doc, before) && StripDot(before) == suffix {
        var i :| 0 <= i < |rules| && RuleLists(rules[i], before);
        RuleKeepsListing(rules[i], before);
        assert StripRules(rules)[i] == StripRule(rules[i]);
        assert StripRule(rules[i]) in StripRules(rules);
      }
    }
  }

  lemma RuleListsAfter(rule: Json, suffix: string) returns (before: string)
    requires RuleLists(StripRule(rule), suffix)
    ensures RuleLists(rule, before) && StripDot(before) == suffix
  {
    var items := SuffixItems(rule).value;
    assert SuffixItems(StripRule(rule)) == Some(StripItems(items));
    var i :| 0 <= i < |items| && StripItem(items[i]) == Str(suffix);
    before := items[i].s;
  }

  lemma RuleKeepsListing(rule: Json, suffix: string)
    requires RuleLists(rule, suffix)
    ensures RuleLists(StripRule(rule), StripDot(suffix))
  {
    var items := SuffixItems(rule).value;
    var i :| 0 <= i < |items| && items[i] == Str(suffix);
    assert SuffixItems(StripRule(rule)) == Some(StripItems(items));
    assert StripItems(items)[i] == Str(StripDot(suffix));
  }

  /** The migration adds exactly the names that were listed with one dot, whatever else is listed. */
  lemma MigrationAddsApexNames(doc: Json, name: string)
    ensures MatchedBySuffix(StripDoc(doc), name)
      <==> (MatchedBySuffix(doc, name)
            || exists suffix :: Listed(doc, suffix) && SinglyDotted(suffix) && Normal(name) == SuffixCore(suffix))
  {
    if MatchedBySuffix(StripDoc(doc), name) {
      var suffix :| Listed(StripDoc(doc), suffix) && SuffixMatches(suffix, name);
      ListedAfter(doc, suffix);
      var before :| Listed(doc, before) && StripDot(before) == suffix;
      StrippedSuffix(before, name);
    }
    if before :| Listed(doc, before) && SuffixMatches(StripDot(before), name) {
      ListedAfter(doc, StripDot(before));
    } else {
      forall before | Listed(doc, before)
        ensures !SuffixMatches(before, name) && !(SinglyDotted(before) && Normal(name) == SuffixCore(before))
      {
        StrippedSuffix(before, name);
      }
    }
  }

  /** The migration touches nothing but suffix lists. */
  lemma MigrationKeepsTheRest(doc: Json, key: string, i: nat, field: string)
    ensures key != "rules" ==> Get(StripDoc(doc), key) == Get(doc, key)
    ensures RulesIn(doc).Some? ==>
      RulesIn(StripDoc(doc)).Some? && |RulesIn(StripDoc(doc)).value| == |RulesIn(doc).value|
    ensures (RulesIn(doc).Some? && i < |RulesIn(doc).value| && field != SUFFIX_KEY ==>
      Get(RulesIn(StripDoc(doc)).value[i], field) == Get(RulesIn(doc).value[i], field))
  {
  }

  // -------------------------------------------------------------- idempotence

  /** A suffix that would be stripped again. */
  predicate StripsTwice(suffix: string) {
    DoublyDotted(suffix) && |suffix| > 2
  }

  lemma StripDotTwice(suffix: string)
    ensures StripDot(StripDot(suffix)) == StripDot(suffix) <==> !StripsTwice(suffix)
  {
    if StripsTwice(suffix) {
      assert |StripDot(StripDot(suffix))| < |StripDot(suffix)|;
    }
  }

  lemma RuleTwice(rule: Json)
    ensures StripRule(StripRule(rule)) == StripRule(rule)
      <==> forall suffix :: RuleLists(rule, suffix) ==> !StripsTwice(suffix)
  {
    if SuffixItems(rule).Some? {
      var items := SuffixItems(rule).value;
      assert SuffixItems(StripRule(rule)) == Some(StripItems(items));
      RuleUnchanged(StripRule(rule));
      ItemsTwice(items);
    }
  }

  lemma ItemsTwice(items: seq<Json>)
    ensures StripItems(StripItems(items)) == StripItems(items)
      <==> forall suffix :: Str(suffix) in items ==> !StripsTwice(suffix)
  {
    var once := StripItems(items);
    if suffix :| Str(suffix) in items && StripsTwice(suffix) {
      var i :| 0 <= i < |items| && items[i] == Str(suffix);
      StripDotTwice(suffix);
      assert StripItems(once)[i] != once[i];
    } else {
      forall i | 0 <= i < |items|
        ensures StripItems(once)[i] == once[i]
      {
        if items[i].Str? {
          assert Str(items[i].s) in items;
          StripDotTwice(items[i].s);
        }
      }
    }
  }

  /** A second migration changes nothing exactly when no suffix has two leading dots and more. */
  lemma MigrationIdempotentIff(doc: Json)
    ensures StripDoc(StripDoc(doc)) == StripDoc(doc) <==> forall suffix :: Listed(doc, suffix) ==> !StripsTwice(suffix)
  {
    if RulesIn(doc).Some? {
      var rules := RulesIn(doc).value;
      var once := StripRules(rules);
      assert RulesIn(StripDoc(doc)) == Some(once);
      DocUnchanged(StripDoc(doc));
      if suffix :| Listed(doc, suffix) && StripsTwice(suffix) {
        var i :| 0 <= i < |rules| && RuleLists(rules[i], suffix);
        RuleTwice(rules[i]);
        assert StripRules(once)[i] != once[i];
      } else {
        forall i | 0 <= i < |rules|
          ensures StripRules(once)[i] == once[i]
        {
          RuleTwice(rules[i]);
          assert rules[i] in rules;
        }
      }
    }
  }

  // ------------------------------------------------------------- fixed point

  function RuleJson(rule: Rule): Json {
    Obj(map[KeyOf(rule.kind) := Strs(rule.values)])
  }

  /** The document the converter prints. */
  function Document(rules: seq<Rule>): Json {
    Obj(map["version" := Num(RULESET_VERSION),
            "rules" := Arr(seq(|rules|, i requires 0 <= i < |rules| => RuleJson(rules[i])))])
  }

  predicate Undotted(rule: Rule) {
    rule.kind == Suffix ==> forall v :: v in rule.values ==> !("." <= v)
  }

  lemma UndottedRuleUnchanged(rule: Rule)
    requires Undotted(rule)
    ensures StripRule(RuleJson(rule)) == RuleJson(rule)
  {
    if rule.kind == Suffix {
      var items := Strs(rule.values).items;
      assert SuffixItems(RuleJson(rule)) == Some(items);
      forall i | 0 <= i < |items|
        ensures StripItems(items)[i] == items[i]
      {
        assert rule.values[i] in rule.values;
      }
      RuleUnchanged(RuleJson(rule));
    } else {
      assert KeyOf(rule.kind) != SUFFIX_KEY;
    }
  }

  /** Converter output is a fixed point of the migration. */
  lemma ConverterOutputUnchanged(lines: seq<string>, addresses: set<string>)
    requires Convert(lines, addresses).Ok?
    ensures StripDoc(Document(Convert(lines, addresses).value)) == Document(Convert(lines, addresses).value)
  {
    var entries := Entries(lines, addresses);
    var rules := Convert(lines, addresses).value;
    forall rule | rule in rules
      ensures Undotted(rule)
    {
      forall v | v in rule.values && rule.kind == Suffix
        ensures !("." <= v)
      {
        EntryEmitted(entries, Entry(Suffix, v));
        var i :| 0 <= i < |lines| && entries[i] == Some(Entry(Suffix, v));
        SuffixesUndotted(Trim(lines[i]), addresses);
      }
    }
    UndottedDocumentUnchanged(rules);
  }

  lemma UndottedDocumentUnchanged(rules: seq<Rule>)
    requires forall rule :: rule in rules ==> Undotted(rule)
    ensures StripDoc(Document(rules)) == Document(rules)
  {
    var listed := RulesIn(Document(rules)).value;
    forall i | 0 <= i < |rules|
      ensures StripRules(listed)[i] == listed[i]
    {
      assert rules[i] in rules;
      UndottedRuleUnchanged(rules[i]);
    }
    DocUnchanged(Document(rules));
  }

  // --------------------------------------------------------- dots that are left

  /** Suffixes that keep a leading dot: a lone dot is not stripped, and of two dots one is. */
  predicate KeepsDot(suffix: string) {
    suffix == "." || DoublyDotted(suffix)
  }

  lemma StrippedKeepsDotIff(suffix: string)
    ensures "." <= StripDot(suffix) <==> KeepsDot(suffix)
  {
    if "." <= suffix && |suffix| == 1 {
      assert suffix == ".";
    }
  }

  /** No leading dot is left after the migration exactly when no listed suffix is a lone dot or has two dots. */
  lemma NoLeadingDotLeftIff(doc: Json)
    ensures (forall after :: Listed(StripDoc(doc), after) ==> !("." <= after))
      <==> forall suffix :: Listed(doc, suffix) ==> !KeepsDot(suffix)
  {
    if suffix :| Listed(doc, suffix) && KeepsDot(suffix) {
      ListedAfter(doc, StripDot(suffix));
      StrippedKeepsDotIff(suffix);
    } else {
      forall after | Listed(StripDoc(doc), after)
        ensures !("." <= after)
      {
        ListedAfter(doc, after);
        var before :| Listed(doc, before) && StripDot(before) == after;
        StrippedKeepsDotIff(before);
      }
    }
  }

  lemma ListedInDocument(suffix: string)
    ensures Listed(Document([Rule(Suffix, [suffix])]), suffix)
  {
    var rule := Rule(Suffix, [suffix]);
    var doc := Document([rule]);
    assert RulesIn(doc).value[0] == RuleJson(rule);
    assert SuffixItems(RuleJson(rule)) == Some(Strs([suffix]).items);
    assert Strs([suffix]).items[0] == Str(suffix);
    assert RuleLists(RuleJson(rule), suffix) && RuleJson(rule) in RulesIn(doc).value;
  }

  /** Documents that keep a leading dot: a lone dot, two dots, and two dots before a name. */
  lemma LeadingDotLeft(suffix: string)
    requires suffix in [".", "..", "..example.com"]
    ensures exists after :: Listed(StripDoc(Document([Rule(Suffix, [suffix])])), after) && "." <= after
  {
    ListedInDocument(suffix);
    assert KeepsDot(suffix);
    NoLeadingDotLeftIff(Document([Rule(Suffix, [suffix])]));
  }
}
