/** What a merged document holds at every path, and what that does to the rules of an overlay. */
module MixinShape {
  import opened Wrappers
  import opened Json
  import opened Routing
  import opened Mixin
  import opened Priority

  // ------------------------------------------------------------ values at a path

  function At(v: Json, path: seq<string>): Option<Json>
    decreases |path|
  {
    if path == [] then Some(v)
    else if v.Obj? && path[0] in v.fields then At(v.fields[path[0]], path[1..])
    else None
  }

  /** The merge of two values, inside a route section or not. */
  function Merged(base: Json, overlay: Json, inRoute: bool): Json {
    if inRoute then MergeRoute(base, overlay) else MergeJson(base, overlay)
  }

  /** The lists that are joined instead of replaced: the rules of a route section, and three lists elsewhere. */
  predicate IsJoined(key: string, inRoute: bool) {
    if inRoute then key == "rules" else key in {"outbounds", "inbounds", "endpoints"}
  }

  predicate EntersRoute(key: string, inRoute: bool) {
    !inRoute && key == "route"
  }

  lemma MergedFields(base: Json, overlay: Json, inRoute: bool, key: string)
    requires base.Obj? && overlay.Obj?
    ensures Merged(base, overlay, inRoute).Obj?
    ensures var fields := Merged(base, overlay, inRoute).fields;
      && (key in fields <==> key in base.fields || key in overlay.fields)
      && (key in base.fields && key !in overlay.fields ==> fields[key] == base.fields[key])
      && (key in overlay.fields && !IsJoined(key, inRoute) ==>
            fields[key] == Merged(Entry(base.fields, key), overlay.fields[key], EntersRoute(key, inRoute)))
  {
    if key in overlay.fields {
      EntryOf(base, overlay, inRoute, key);
    }
  }

  lemma EntryOf(base: Json, overlay: Json, inRoute: bool, key: string)
    requires base.Obj? && overlay.Obj? && key in overlay.fields
    ensures Merged(base, overlay, inRoute).Obj? && key in Merged(base, overlay, inRoute).fields
    ensures var entry := Entry(base.fields, key);
      Merged(base, overlay, inRoute).fields[key] ==
      if inRoute then MergeRouteEntry(key, entry, overlay.fields[key])
      else MergeEntry(key, entry, overlay.fields[key])
  {
  }

  /** A joined list: rules of the overlay come first, other entries of the overlay come last. */
  lemma MergedLists(base: Json, overlay: Json, inRoute: bool, key: string)
    requires base.Obj? && overlay.Obj? && key in overlay.fields && IsJoined(key, inRoute)
    ensures Merged(base, overlay, inRoute).Obj? && key in Merged(base, overlay, inRoute).fields
    ensures var joined, added := Merged(base, overlay, inRoute).fields[key], overlay.fields[key];
      && (!added.Arr? ==> joined == added)
      && (added.Arr? && key in base.fields && base.fields[key].Arr? ==>
            var held := base.fields[key].items;
            joined == Arr(if inRoute then added.items + held else held + added.items))
      && (added.Arr? && (key !in base.fields || !base.fields[key].Arr?) ==> joined == added)
  {
    EntryOf(base, overlay, inRoute, key);
    assert overlay.fields[key].Arr? ==> overlay.fields[key].items + [] == overlay.fields[key].items;
  }

  /** The overlay ends at the path with a value that is not merged: no object, no joined list. */
  predicate Decides(overlay: Json, inRoute: bool, path: seq<string>)
    decreases |path|
  {
    if path == [] then !overlay.Obj?
    else
      && overlay.Obj? && path[0] in overlay.fields
      && var value := overlay.fields[path[0]];
      if IsJoined(path[0], inRoute) then !value.Arr? && At(value, path[1..]).Some?
      else Decides(value, EntersRoute(path[0], inRoute), path[1..])
  }

  lemma {:induction false} DecidedReplaces(base: Json, overlay: Json, inRoute: bool, path: seq<string>)
    requires Decides(overlay, inRoute, path)
    ensures At(overlay, path).Some? && At(Merged(base, overlay, inRoute), path) == At(overlay, path)
    decreases |path|
  {
    if path != [] {
      var key := path[0];
      if base.Obj? {
        MergedFields(base, overlay, inRoute, key);
      }
      if IsJoined(key, inRoute) {
        if base.Obj? {
          MergedLists(base, overlay, inRoute, key);
        }
      } else {
        var inner := if base.Obj? then Entry(base.fields, key) else Null;
        DecidedReplaces(inner, overlay.fields[key], EntersRoute(key, inRoute), path[1..]);
      }
    }
  }

  lemma {:induction false} ScalarDecides(overlay: Json, inRoute: bool, path: seq<string>)
    requires At(overlay, path).Some? && !At(overlay, path).value.Obj? && !At(overlay, path).value.Arr?
    ensures Decides(overlay, inRoute, path)
    decreases |path|
  {
    if path != [] {
      ScalarDecides(overlay.fields[path[0]], EntersRoute(path[0], inRoute), path[1..]);
    }
  }

  /** A scalar of the overlay, or a list of it that is not joined, is the value there, at any depth. */
  lemma OverlayValuesReplace(base: Json, overlay: Json, path: seq<string>)
    requires || Decides(overlay, false, path)
             || (At(overlay, path).Some? && !At(overlay, path).value.Obj? && !At(overlay, path).value.Arr?)
    ensures At(overlay, path).Some? && At(MergeJson(base, overlay), path) == At(overlay, path)
  {
    if !Decides(overlay, false, path) {
      ScalarDecides(overlay, false, path);
    }
    DecidedReplaces(base, overlay, false, path);
  }

  /** The overlay's objects lead towards the path, and one of them stops short of it. */
  predicate SaysNothing(overlay: Json, inRoute: bool, path: seq<string>)
    decreases |path|
  {
    && path != [] && overlay.Obj?
    && (path[0] in overlay.fields ==>
          !IsJoined(path[0], inRoute) && SaysNothing(overlay.fields[path[0]], EntersRoute(path[0], inRoute), path[1..]))
  }

  lemma {:induction false} UnnamedStays(base: Json, overlay: Json, inRoute: bool, path: seq<string>)
    requires SaysNothing(overlay, inRoute, path)
    ensures At(Merged(base, overlay, inRoute), path) == At(base, path)
    ensures At(overlay, path).None?
    decreases |path|
  {
    var key := path[0];
    if base.Obj? {
      MergedFields(base, overlay, inRoute, key);
    }
    if key in overlay.fields {
      var inner := if base.Obj? then Entry(base.fields, key) else Null;
      UnnamedStays(inner, overlay.fields[key], EntersRoute(key, inRoute), path[1..]);
      assert At(Null, path[1..]).None?;
    }
  }

  /** What the overlay says nothing about, at any depth, stays as it was. */
  lemma UnnamedPathsStay(base: Json, overlay: Json, path: seq<string>)
    requires SaysNothing(overlay, false, path)
    ensures At(MergeJson(base, overlay), path) == At(base, path)
  {
    UnnamedStays(base, overlay, false, path);
  }

  // --------------------------------------------------------------- merged rules

  /** The overlay's rules come before the rules of the base, in their order. */
  lemma OverlayRulesFirst(base: Json, overlay: Json)
    requires RulesOf(base).Some? && RulesOf(overlay).Some?
    ensures RulesOf(MergeJson(base, overlay)) == Some(RulesOf(overlay).value + RulesOf(base).value)
  {
    MergedFields(base, overlay, false, "route");
    MergedLists(base.fields["route"], overlay.fields["route"], true, "rules");
    MergedFields(base.fields["route"], overlay.fields["route"], true, "rules");
  }

  /** So a flow that a rule of the overlay decides keeps that decision, and the base decides the others. */
  lemma OverlayRulesDecideFirst(base: Json, overlay: Json, final: string, e: Engine, flow: Flow)
    requires RulesOf(base).Some? && RulesOf(overlay).Some?
    ensures RulesOf(MergeJson(base, overlay)).Some?
    ensures var first := Scan(RulesOf(overlay).value, e, flow);
      Evaluate(RulesOf(MergeJson(base, overlay)).value, final, e, flow) ==
      if first.decision.Some? then first.decision.value else Evaluate(RulesOf(base).value, final, e, first.flow)
  {
    OverlayRulesFirst(base, overlay);
    ScanSplits(RulesOf(overlay).value, RulesOf(base).value, e, flow);
  }

  /** Outbounds, inbounds and endpoints of the overlay follow those of the base. */
  lemma OverlayEntriesLast(base: Json, overlay: Json, key: string, held: seq<Json>, added: seq<Json>)
    requires key in {"outbounds", "inbounds", "endpoints"}
    requires Get(base, key) == Some(Arr(held)) && Get(overlay, key) == Some(Arr(added))
    ensures Get(MergeJson(base, overlay), key) == Some(Arr(held + added))
  {
    MergedLists(base, overlay, false, key);
  }
}
