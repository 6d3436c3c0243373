/**
The pass after the mixin that puts the control-plane rules back in front, and what it
does to the rules the user wrote.
*/
module Priority {
  import opened Wrappers
  import opened Json
  import opened ProxySettings
  import opened ControlPlane
  import opened Mixin

  /** The list at `/route/rules`, when it is one. */
  function RulesOf(base: Json): Option<seq<Json>> {
    match Get(base, "route")
    case None => None
    case Some(route) => match Get(route, "rules") case Some(Arr(rules)) => Some(rules) case _ => None
  }

  function WithRules(base: Json, rules: seq<Json>): Json
    requires RulesOf(base).Some?
  {
    var route := base.fields["route"];
    Obj(base.fields["route" := Obj(route.fields["rules" := Arr(rules)])])
  }

  function ProxyTag(base: Json): string {
    match Get(base, "outbounds")
    case Some(Arr(outbounds)) =>
      if exists i :: 0 <= i < |outbounds| && IsStr(Get(outbounds[i], "tag"), "Proxy") then "Proxy" else "direct"
    case _ => "direct"
  }

  /** The rules the pass takes out of the list before putting the current ones in front. */
  predicate Removed(rule: Json, health: seq<Json>, s: Settings, x: Surroundings) {
    rule in health || IsProcessBypass(rule) || IsMeshRule(rule) || IsPeerBypass(rule, s, x)
  }

  function Retained(rules: seq<Json>, health: seq<Json>, s: Settings, x: Surroundings): seq<Json> {
    if rules == [] then []
    else (if Removed(rules[0], health, s, x) then [] else [rules[0]]) + Retained(rules[1..], health, s, x)
  }

  function ControlRules(base: Json, s: Settings, x: Surroundings): seq<Json> {
    MeshHealthRules(s, x, ProxyTag(base)) + ProcessBypassRules(s, x) + PeerBypassRules(s, x)
  }

  /** Whether the pass has anything to do. */
  predicate Active(base: Json, s: Settings, x: Surroundings) {
    (ProcessBypassRules(s, x) != [] || PeerBypassRules(s, x) != []) && RulesOf(base).Some?
  }

  function Prioritized(base: Json, s: Settings, x: Surroundings): Json {
    if !Active(base, s, x) then base
    else
      var health := MeshHealthRules(s, x, ProxyTag(base));
      WithRules(base, ControlRules(base, s, x) + Retained(RulesOf(base).value, health, s, x))
  }

  lemma {:induction false} RetainedSnoc(rules: seq<Json>, i: nat, health: seq<Json>, s: Settings, x: Surroundings)
    requires i < |rules|
    ensures Retained(rules[..i + 1], health, s, x)
         == Retained(rules[..i], health, s, x) + (if Removed(rules[i], health, s, x) then [] else [rules[i]])
  {
    if i > 0 {
      RetainedSnoc(rules[1..], i - 1, health, s, x);
      assert rules[..i + 1][1..] == rules[1..][..i] && rules[..i][1..] == rules[1..][..i - 1];
    }
  }

  /** `prioritize_mesh_route_rules`: one retaining pass over the list, then the splice. */
  method Prioritize(base: Json, s: Settings, x: Surroundings) returns (result: Json)
    ensures result == Prioritized(base, s, x)
  {
    var health := MeshHealthRules(s, x, ProxyTag(base));
    var process := ProcessBypassRules(s, x);
    var peers := CollectPeerBypassRules(s, x);
    if process == [] && peers == [] {
      return base;
    }
    if RulesOf(base).None? {
      return base;
    }
    var rules, kept := RulesOf(base).value, [];
    for i := 0 to |rules|
      invariant kept == Retained(rules[..i], health, s, x)
    {
      RetainedSnoc(rules, i, health, s, x);
      if !Removed(rules[i], health, s, x) {
        kept := kept + [rules[i]];
      }
    }
    assert rules[..|rules|] == rules;
    result := WithRules(base, health + process + peers + kept);
  }

  // ------------------------------------------------------------- results

  predicate AllRemoved(rules: seq<Json>, health: seq<Json>, s: Settings, x: Surroundings) {
    forall i :: 0 <= i < |rules| ==> Removed(rules[i], health, s, x)
  }

  predicate NoneRemoved(rules: seq<Json>, health: seq<Json>, s: Settings, x: Surroundings) {
    forall i :: 0 <= i < |rules| ==> !Removed(rules[i], health, s, x)
  }

  lemma {:induction false} RetainedSplits(a: seq<Json>, b: seq<Json>, health: seq<Json>, s: Settings, x: Surroundings)
    ensures Retained(a + b, health, s, x) == Retained(a, health, s, x) + Retained(b, health, s, x)
  {
    if a == [] {
      assert a + b == b;
    } else {
      RetainedSplits(a[1..], b, health, s, x);
      assert (a + b)[1..] == a[1..] + b;
    }
  }

  lemma {:induction false} RetainedExtremes(rules: seq<Json>, health: seq<Json>, s: Settings, x: Surroundings)
    ensures AllRemoved(rules, health, s, x) ==> Retained(rules, health, s, x) == []
    ensures NoneRemoved(rules, health, s, x) ==> Retained(rules, health, s, x) == rules
    ensures NoneRemoved(Retained(rules, health, s, x), health, s, x)
  {
    if rules != [] {
      RetainedExtremes(rules[1..], health, s, x);
    }
  }

  /** Where each retained rule stood, counting from `start`. */
  function Origins(rules: seq<Json>, start: nat, health: seq<Json>, s: Settings, x: Surroundings): seq<nat> {
    if rules == [] then []
    else (if Removed(rules[0], health, s, x) then [] else [start]) + Origins(rules[1..], start + 1, health, s, x)
  }

  predicate Ascending(o: seq<nat>, low: nat, high: nat) {
    && (forall j :: 0 <= j < |o| ==> low <= o[j] < high)
    && (forall j, k :: 0 <= j < k < |o| ==> o[j] < o[k])
  }

  lemma {:induction false} OriginsAscend(rules: seq<Json>, start: nat, health: seq<Json>, s: Settings, x: Surroundings)
    ensures Ascending(Origins(rules, start, health, s, x), start, start + |rules|)
  {
    if rules != [] {
      OriginsAscend(rules[1..], start + 1, health, s, x);
    }
  }

  lemma {:induction false} OriginsComplete(
    rules: seq<Json>, start: nat, health: seq<Json>, s: Settings, x: Surroundings, i: nat)
    requires i < |rules|
    ensures start + i in Origins(rules, start, health, s, x) <==> !Removed(rules[i], health, s, x)
  {
    OriginsAscend(rules[1..], start + 1, health, s, x);
    var head := if Removed(rules[0], health, s, x) then [] else [start];
    var rest := Origins(rules[1..], start + 1, health, s, x);
    assert Origins(rules, start, health, s, x) == head + rest;
    if i > 0 {
      OriginsComplete(rules[1..], start + 1, health, s, x, i - 1);
      assert start + i in rest <==> start + i in head + rest;
    } else {
      assert start !in rest;
    }
  }

  lemma {:induction false} OriginsRetained(
    rules: seq<Json>, start: nat, health: seq<Json>, s: Settings, x: Surroundings)
    ensures var o, r := Origins(rules, start, health, s, x), Retained(rules, health, s, x);
      |o| == |r| && forall j :: 0 <= j < |o| ==> start <= o[j] < start + |rules| && rules[o[j] - start] == r[j]
  {
    if rules != [] {
      OriginsRetained(rules[1..], start + 1, health, s, x);
      var o, r := Origins(rules[1..], start + 1, health, s, x), Retained(rules[1..], health, s, x);
      assert forall j :: 0 <= j < |o| ==> rules[o[j] - start] == rules[1..][o[j] - (start + 1)] == r[j];
    }
  }

  /** `kept` is exactly the rules no removal predicate matches, in their order. */
  ghost predicate Selects(
    rules: seq<Json>, kept: seq<Json>, origin: seq<nat>, health: seq<Json>, s: Settings, x: Surroundings)
  {
    && |kept| == |origin|
    && (forall j :: 0 <= j < |origin| ==> origin[j] < |rules| && rules[origin[j]] == kept[j])
    && (forall j, k :: 0 <= j < k < |origin| ==> origin[j] < origin[k])
    && (forall i :: 0 <= i < |rules| ==> (i in origin <==> !Removed(rules[i], health, s, x)))
  }

  lemma RetainedSelects(rules: seq<Json>, health: seq<Json>, s: Settings, x: Surroundings)
    ensures Selects(rules, Retained(rules, health, s, x), Origins(rules, 0, health, s, x), health, s, x)
  {
    OriginsAscend(rules, 0, health, s, x);
    OriginsRetained(rules, 0, health, s, x);
    forall i | 0 <= i < |rules| ensures i in Origins(rules, 0, health, s, x) <==> !Removed(rules[i], health, s, x) {
      OriginsComplete(rules, 0, health, s, x, i);
    }
  }

  lemma ControlRulesRemoved(base: Json, s: Settings, x: Surroundings)
    ensures AllRemoved(ControlRules(base, s, x), MeshHealthRules(s, x, ProxyTag(base)), s, x)
  {
    ProcessRulesRecognised(s, x);
    PeerRulesRecognised(PeerCidrs(s, x), s, x);
  }

  /**
  Whatever the mixin left in the list, the result is the control-plane rules followed by
  exactly the rules no removal predicate matches, in their order.
  */
  lemma PrioritizedShape(base: Json, s: Settings, x: Surroundings)
    requires Active(base, s, x)
    ensures var control, health := ControlRules(base, s, x), MeshHealthRules(s, x, ProxyTag(base));
      exists kept, origin ::
        && RulesOf(Prioritized(base, s, x)) == Some(control + kept)
        && Selects(RulesOf(base).value, kept, origin, health, s, x)
  {
    var rules, health := RulesOf(base).value, MeshHealthRules(s, x, ProxyTag(base));
    RetainedSelects(rules, health, s, x);
  }

  lemma WithSameRules(base: Json, rules: seq<Json>)
    requires RulesOf(base) == Some(rules)
    ensures WithRules(base, rules) == base
  {
    var route := base.fields["route"];
    assert route.fields["rules" := Arr(rules)] == route.fields;
    assert base.fields["route" := route] == base.fields;
  }

  /** A second pass changes nothing. */
  lemma PrioritizeTwice(base: Json, s: Settings, x: Surroundings)
    ensures Prioritized(Prioritized(base, s, x), s, x) == Prioritized(base, s, x)
  {
    if Active(base, s, x) {
      var once := Prioritized(base, s, x);
      var health := MeshHealthRules(s, x, ProxyTag(base));
      var control, kept := ControlRules(base, s, x), Retained(RulesOf(base).value, health, s, x);
      assert ProxyTag(once) == ProxyTag(base);
      assert RulesOf(once) == Some(control + kept);
      RetainedSplits(control, kept, health, s, x);
      ControlRulesRemoved(base, s, x);
      RetainedExtremes(control, health, s, x);
      RetainedExtremes(RulesOf(base).value, health, s, x);
      RetainedExtremes(kept, health, s, x);
      assert Retained(control + kept, health, s, x) == kept;
      WithSameRules(once, control + kept);
    }
  }
}
