/** First-match evaluation of a route rule list, with sniffing as a step that decides nothing. */
module Routing {
  import opened Wrappers
  import opened Text
  import opened Json

  /** What rules can observe of a flow: rule-set membership, private destinations, other items. */
  datatype Flow = Flow(sets: set<string>, isPrivate: bool, holds: (string, Json) -> bool)

  datatype Decision = Route(outbound: string) | Reject | HijackDns

  /** The situation of a flow: the engine's mode and what sniffing reveals. */
  datatype Engine = Engine(mode: string, sniff: Flow -> Flow)

  const ADDRESS_KEYS := {"domain", "domain_suffix", "domain_keyword", "domain_regex", "ip_cidr", "ip_is_private"}
  const LABEL_KEYS := {"action", "outbound", "sniffer", "timeout"}

  /** Modes are compared without regard to ASCII case. */
  predicate IsMode(mode: string, name: string) {
    AsciiLower(mode) == AsciiLower(name)
  }

  lemma ModesDiffer(mode: string)
    ensures !(IsMode(mode, "direct") && IsMode(mode, "global"))
    ensures IsMode(mode, "rule") ==> !IsMode(mode, "direct") && !IsMode(mode, "global")
  {
    assert AsciiLower("direct")[0] == 'd' && AsciiLower("global")[0] == 'g' && |AsciiLower("rule")| == 4;
  }

  predicate ItemHolds(key: string, value: Json, mode: string, flow: Flow) {
    if key == "clash_mode" then value.Str? && (value.s == [] || IsMode(mode, value.s))
    else if key == "rule_set" then
      value.Arr? && exists i :: 0 <= i < |value.items| && value.items[i].Str? && value.items[i].s in flow.sets
    else if key == "ip_is_private" then value == Bool(true) && flow.isPrivate
    else flow.holds(key, value)
  }

  /** The address items of a rule are alternatives; every other kind of item must hold. */
  predicate Matches(rule: Json, mode: string, flow: Flow) {
    && rule.Obj?
    && (|| (forall k :: k in rule.fields ==> k !in ADDRESS_KEYS)
        || (exists k :: k in rule.fields && k in ADDRESS_KEYS && ItemHolds(k, rule.fields[k], mode, flow)))
    && (forall k :: k in rule.fields && k !in ADDRESS_KEYS && k !in LABEL_KEYS ==>
          ItemHolds(k, rule.fields[k], mode, flow))
  }

  function DecisionOf(rule: Json): Option<Decision> {
    match Get(rule, "action")
    case Some(Str("sniff")) => None
    case Some(Str("reject")) => Some(Reject)
    case Some(Str("hijack-dns")) => Some(HijackDns)
    case _ => match Get(rule, "outbound") case Some(Str(o)) => Some(Route(o)) case _ => Some(Reject)
  }

  datatype Scanned = Scanned(decision: Option<Decision>, flow: Flow)

  function Scan(rules: seq<Json>, e: Engine, flow: Flow): Scanned {
    if rules == [] then Scanned(None, flow)
    else if !Matches(rules[0], e.mode, flow) then Scan(rules[1..], e, flow)
    else
      var d := DecisionOf(rules[0]);
      if d.Some? then Scanned(d, flow) else Scan(rules[1..], e, e.sniff(flow))
  }

  function Evaluate(rules: seq<Json>, final: string, e: Engine, flow: Flow): Decision {
    var d := Scan(rules, e, flow).decision;
    if d.Some? then d.value else Route(final)
  }

  lemma {:induction false} ScanSplits(a: seq<Json>, b: seq<Json>, e: Engine, flow: Flow)
    ensures var first := Scan(a, e, flow);
      Scan(a + b, e, flow) == if first.decision.Some? then first else Scan(b, e, first.flow)
  {
    if a == [] {
      assert a + b == b;
    } else {
      assert (a + b)[1..] == a[1..] + b;
      ScanSplits(a[1..], b, e, flow);
      ScanSplits(a[1..], b, e, e.sniff(flow));
    }
  }

  // --------------------------------------------- the rule shapes the compiler emits

  function SetRule(tags: seq<string>, outbound: string): Json {
    Obj(map["action" := Str("route"), "rule_set" := Strs(tags), "outbound" := Str(outbound)])
  }

  function RejectRule(tags: seq<string>): Json {
    Obj(map["action" := Str("reject"), "rule_set" := Strs(tags)])
  }

  function ItemRule(key: string, value: Json, outbound: string): Json {
    Obj(map["action" := Str("route"), key := value, "outbound" := Str(outbound)])
  }

  function CatchAll(outbound: string): Json {
    Obj(map["action" := Str("route"), "outbound" := Str(outbound)])
  }

  predicate InAny(tags: seq<string>, flow: Flow) {
    exists i :: 0 <= i < |tags| && tags[i] in flow.sets
  }

  lemma SetRuleMatches(tags: seq<string>, outbound: string, mode: string, flow: Flow)
    ensures Matches(SetRule(tags, outbound), mode, flow) <==> InAny(tags, flow)
    ensures Matches(RejectRule(tags), mode, flow) <==> InAny(tags, flow)
    ensures DecisionOf(SetRule(tags, outbound)) == Some(Route(outbound)) && DecisionOf(RejectRule(tags)) == Some(Reject)
  {
    var items := Strs(tags).items;
    assert ItemHolds("rule_set", Strs(tags), mode, flow) <==> InAny(tags, flow) by {
      assert forall i :: 0 <= i < |items| ==> items[i] == Str(tags[i]);
    }
    assert "rule_set" in SetRule(tags, outbound).fields && "rule_set" in RejectRule(tags).fields;
  }

  lemma ItemRuleMatches(key: string, value: Json, outbound: string, mode: string, flow: Flow)
    requires key !in LABEL_KEYS
    ensures Matches(ItemRule(key, value, outbound), mode, flow) <==> ItemHolds(key, value, mode, flow)
    ensures DecisionOf(ItemRule(key, value, outbound)) == Some(Route(outbound))
  {
    var fields := ItemRule(key, value, outbound).fields;
    assert key in fields && fields[key] == value;
  }

  lemma CatchAllMatches(outbound: string, mode: string, flow: Flow)
    ensures Matches(CatchAll(outbound), mode, flow) && DecisionOf(CatchAll(outbound)) == Some(Route(outbound))
  {
  }
}
