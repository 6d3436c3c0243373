/**
The user's mixin: a recursive merge that replaces scalars, prepends route rules and appends
to the outbound, inbound and endpoint lists, and the laws of doing it more than once.
*/
module Mixin {
  import opened Json

  predicate IsAppended(key: string) {
    key == "outbounds" || key == "inbounds" || key == "endpoints"
  }

  function Items(v: Json): seq<Json> {
    if v.Arr? then v.items else []
  }

  function PrependRules(base: Json, overlay: Json): Json {
    if overlay.Arr? then Arr(overlay.items + Items(base)) else overlay
  }

  function AppendArray(base: Json, overlay: Json): Json {
    if overlay.Arr? then Arr(Items(base) + overlay.items) else overlay
  }

  function MergeEntry(key: string, base: Json, overlay: Json): Json
    decreases overlay, 2
  {
    if key == "route" then MergeRoute(base, overlay)
    else if IsAppended(key) then AppendArray(base, overlay)
    else MergeJson(base, overlay)
  }

  function MergeJson(base: Json, overlay: Json): Json
    decreases overlay, 1
  {
    if base.Obj? && overlay.Obj? then
      Obj(map k | k in base.fields.Keys + overlay.fields.Keys ::
            if k in overlay.fields then MergeEntry(k, Entry(base.fields, k), overlay.fields[k]) else base.fields[k])
    else overlay
  }

  function MergeRouteEntry(key: string, base: Json, overlay: Json): Json
    decreases overlay, 2
  {
    if key == "rules" then PrependRules(base, overlay) else MergeJson(base, overlay)
  }

  function MergeRoute(base: Json, overlay: Json): Json
    decreases overlay, 1
  {
    if base.Obj? && overlay.Obj? then
      Obj(map k | k in base.fields.Keys + overlay.fields.Keys ::
            if k in overlay.fields then MergeRouteEntry(k, Entry(base.fields, k), overlay.fields[k])
            else base.fields[k])
    else overlay
  }

  // --------------------------------------------------- the in-place merge

  /** `merge_json`: visits the overlay's keys in any order and rewrites the base entry by entry. */
  method MergeJsonInPlace(base: Json, overlay: Json) returns (merged: Json)
    ensures merged == MergeJson(base, overlay)
    decreases overlay, 1
  {
    merged := base;
    if !base.Obj? || !overlay.Obj? {
      return overlay;
    }
    var todo := overlay.fields.Keys;
    while todo != {}
      invariant todo <= overlay.fields.Keys && merged.Obj?
      invariant merged.fields.Keys == base.fields.Keys + (overlay.fields.Keys - todo)
      invariant forall k :: k in merged.fields ==> k in overlay.fields && k !in todo ==>
        merged.fields[k] == MergeEntry(k, Entry(base.fields, k), overlay.fields[k])
      invariant forall k :: k in base.fields && (k !in overlay.fields || k in todo) ==>
        merged.fields[k] == base.fields[k]
      decreases todo
    {
      var k :| k in todo;
      var entry := Entry(merged.fields, k);
      if k == "route" {
        entry := MergeRouteInPlace(entry, overlay.fields[k]);
      } else if IsAppended(k) {
        entry := AppendArray(entry, overlay.fields[k]);
      } else {
        entry := MergeJsonInPlace(entry, overlay.fields[k]);
      }
      merged := Obj(merged.fields[k := entry]);
      todo := todo - {k};
    }
    assert merged.fields == MergeJson(base, overlay).fields;
  }

  method MergeRouteInPlace(base: Json, overlay: Json) returns (merged: Json)
    ensures merged == MergeRoute(base, overlay)
    decreases overlay, 1
  {
    merged := base;
    if !base.Obj? || !overlay.Obj? {
      return overlay;
    }
    var todo := overlay.fields.Keys;
    while todo != {}
      invariant todo <= overlay.fields.Keys && merged.Obj?
      invariant merged.fields.Keys == base.fields.Keys + (overlay.fields.Keys - todo)
      invariant forall k :: k in merged.fields ==> k in overlay.fields && k !in todo ==>
        merged.fields[k] == MergeRouteEntry(k, Entry(base.fields, k), overlay.fields[k])
      invariant forall k :: k in base.fields && (k !in overlay.fields || k in todo) ==>
        merged.fields[k] == base.fields[k]
      decreases todo
    {
      var k :| k in todo;
      var entry := Entry(merged.fields, k);
      if k == "rules" {
        entry := PrependRules(entry, overlay.fields[k]);
      } else {
        entry := MergeJsonInPlace(entry, overlay.fields[k]);
      }
      merged := Obj(merged.fields[k := entry]);
      todo := todo - {k};
    }
    assert merged.fields == MergeRoute(base, overlay).fields;
  }

  // ------------------------------------------------------ mixins compose

  /** A merged list of the second overlay meets a list in the first. */
  predicate CompatibleList(o1: Json, o2: Json) {
    o2.Arr? ==> o1.Arr?
  }

  predicate CompatibleEntry(key: string, o1: Json, o2: Json)
    decreases o2, 2
  {
    if key == "route" then CompatibleRoute(o1, o2)
    else if IsAppended(key) then CompatibleList(o1, o2)
    else Compatible(o1, o2)
  }

  /** Every object or merged list of `o2` meets the same kind, or nothing, in `o1`. */
  predicate Compatible(o1: Json, o2: Json)
    decreases o2, 1
  {
    o2.Obj? ==>
      && o1.Obj?
      && forall k :: k in o2.fields && k in o1.fields ==> CompatibleEntry(k, o1.fields[k], o2.fields[k])
  }

  predicate CompatibleRouteEntry(key: string, o1: Json, o2: Json)
    decreases o2, 2
  {
    if key == "rules" then CompatibleList(o1, o2) else Compatible(o1, o2)
  }

  predicate CompatibleRoute(o1: Json, o2: Json)
    decreases o2, 1
  {
    o2.Obj? ==>
      && o1.Obj?
      && forall k :: k in o2.fields && k in o1.fields ==> CompatibleRouteEntry(k, o1.fields[k], o2.fields[k])
  }

  /** Merging into nothing keeps the overlay as it is. */
  lemma MergeIntoNull(key: string, v: Json)
    ensures MergeJson(Null, v) == v && MergeRoute(Null, v) == v
    ensures AppendArray(Null, v) == v && PrependRules(Null, v) == v
    ensures MergeEntry(key, Null, v) == v && MergeRouteEntry(key, Null, v) == v
  {
    assert v.Arr? ==> [] + v.items == v.items && v.items + [] == v.items;
  }

  lemma ListsCompose(b: Json, o1: Json, o2: Json)
    requires CompatibleList(o1, o2)
    ensures AppendArray(AppendArray(b, o1), o2) == AppendArray(b, AppendArray(o1, o2))
    ensures PrependRules(PrependRules(b, o1), o2) == PrependRules(b, PrependRules(o1, o2))
  {
    if o2.Arr? {
      assert (Items(b) + o1.items) + o2.items == Items(b) + (o1.items + o2.items);
      assert o2.items + (o1.items + Items(b)) == (o2.items + o1.items) + Items(b);
    }
  }

  lemma {:induction false} EntriesCompose(key: string, b: Json, o1: Json, o2: Json)
    requires CompatibleEntry(key, o1, o2)
    ensures MergeEntry(key, MergeEntry(key, b, o1), o2) == MergeEntry(key, b, MergeEntry(key, o1, o2))
    decreases o2, 2
  {
    if key == "route" {
      RoutesCompose(b, o1, o2);
    } else if IsAppended(key) {
      ListsCompose(b, o1, o2);
    } else {
      MixinsCompose(b, o1, o2);
    }
  }

  lemma {:induction false} RouteEntriesCompose(key: string, b: Json, o1: Json, o2: Json)
    requires CompatibleRouteEntry(key, o1, o2)
    ensures MergeRouteEntry(key, MergeRouteEntry(key, b, o1), o2)
      == MergeRouteEntry(key, b, MergeRouteEntry(key, o1, o2))
    decreases o2, 2
  {
    if key == "rules" {
      ListsCompose(b, o1, o2);
    } else {
      MixinsCompose(b, o1, o2);
    }
  }

  lemma {:induction false} RoutesCompose(b: Json, o1: Json, o2: Json)
    requires CompatibleRoute(o1, o2)
    ensures MergeRoute(MergeRoute(b, o1), o2) == MergeRoute(b, MergeRoute(o1, o2))
    decreases o2, 1
  {
    if b.Obj? && o1.Obj? && o2.Obj? {
      var left, right := MergeRoute(MergeRoute(b, o1), o2), MergeRoute(b, MergeRoute(o1, o2));
      forall k | k in left.fields ensures left.fields[k] == right.fields[k] {
        if k in o2.fields {
          if k in o1.fields {
            RouteEntriesCompose(k, Entry(b.fields, k), o1.fields[k], o2.fields[k]);
          } else {
            MergeIntoNull(k, o2.fields[k]);
          }
        }
      }
      assert left.fields == right.fields;
    }
  }

  /** Two mixins merged one after the other do what their merge does, on every base. */
  lemma {:induction false} MixinsCompose(b: Json, o1: Json, o2: Json)
    requires Compatible(o1, o2)
    ensures MergeJson(MergeJson(b, o1), o2) == MergeJson(b, MergeJson(o1, o2))
    decreases o2, 1
  {
    if b.Obj? && o1.Obj? && o2.Obj? {
      var left, right := MergeJson(MergeJson(b, o1), o2), MergeJson(b, MergeJson(o1, o2));
      forall k | k in left.fields ensures left.fields[k] == right.fields[k] {
        if k in o2.fields {
          if k in o1.fields {
            EntriesCompose(k, Entry(b.fields, k), o1.fields[k], o2.fields[k]);
          } else {
            MergeIntoNull(k, o2.fields[k]);
          }
        }
      }
      assert left.fields == right.fields;
    }
  }

  // ------------------------------------- and only under that condition

  ghost predicate Composes(b: Json, o1: Json, o2: Json) {
    MergeJson(MergeJson(b, o1), o2) == MergeJson(b, MergeJson(o1, o2))
  }

  lemma ListCounterexample(o1: Json, o2: Json) returns (b: Json)
    requires !CompatibleList(o1, o2)
    ensures AppendArray(AppendArray(b, o1), o2) != AppendArray(b, AppendArray(o1, o2))
    ensures PrependRules(PrependRules(b, o1), o2) != PrependRules(b, PrependRules(o1, o2))
  {
    b := Arr([Null]);
    assert |([Null] + o2.items)| != |o2.items| && |(o2.items + [Null])| != |o2.items|;
    assert AppendArray(AppendArray(b, o1), o2) == Arr([] + o2.items);
    assert AppendArray(b, AppendArray(o1, o2)) == Arr([Null] + ([] + o2.items));
    assert PrependRules(PrependRules(b, o1), o2) == Arr(o2.items + []);
    assert PrependRules(b, PrependRules(o1, o2)) == Arr((o2.items + []) + [Null]);
  }

  lemma {:induction false} EntryCounterexample(key: string, o1: Json, o2: Json) returns (b: Json)
    requires !CompatibleEntry(key, o1, o2)
    ensures MergeEntry(key, MergeEntry(key, b, o1), o2) != MergeEntry(key, b, MergeEntry(key, o1, o2))
    decreases o2, 2
  {
    if key == "route" {
      b := RouteCounterexample(o1, o2);
    } else if IsAppended(key) {
      b := ListCounterexample(o1, o2);
    } else {
      b := MixinCounterexample(o1, o2);
    }
  }

  lemma {:induction false} RouteEntryCounterexample(key: string, o1: Json, o2: Json) returns (b: Json)
    requires !CompatibleRouteEntry(key, o1, o2)
    ensures MergeRouteEntry(key, MergeRouteEntry(key, b, o1), o2)
      != MergeRouteEntry(key, b, MergeRouteEntry(key, o1, o2))
    decreases o2, 2
  {
    if key == "rules" {
      b := ListCounterexample(o1, o2);
    } else {
      b := MixinCounterexample(o1, o2);
    }
  }

  /** Some string is in no finite set of keys: a longer one than all of them. */
  lemma {:induction false} FreshKey(keys: set<string>) returns (key: string)
    ensures key !in keys && forall k :: k in keys ==> |k| < |key|
    decreases keys
  {
    if keys == {} {
      key := "x";
    } else {
      var k :| k in keys;
      var rest := FreshKey(keys - {k});
      key := rest + k + "x";
      forall j | j in keys ensures |j| < |key| {
        assert j == k || j in keys - {k};
      }
    }
  }

  lemma {:induction false} RouteCounterexample(o1: Json, o2: Json) returns (b: Json)
    requires !CompatibleRoute(o1, o2)
    ensures MergeRoute(MergeRoute(b, o1), o2) != MergeRoute(b, MergeRoute(o1, o2))
    decreases o2, 1
  {
    if !o1.Obj? {
      var key := FreshKey(o2.fields.Keys);
      b := Obj(map[key := Null]);
      assert key in MergeRoute(b, MergeRoute(o1, o2)).fields;
    } else {
      var k :| k in o2.fields && k in o1.fields && !CompatibleRouteEntry(k, o1.fields[k], o2.fields[k]);
      var inner := RouteEntryCounterexample(k, o1.fields[k], o2.fields[k]);
      b := Obj(map[k := inner]);
      assert MergeRoute(MergeRoute(b, o1), o2).fields[k] != MergeRoute(b, MergeRoute(o1, o2)).fields[k];
    }
  }

  lemma {:induction false} MixinCounterexample(o1: Json, o2: Json) returns (b: Json)
    requires !Compatible(o1, o2)
    ensures !Composes(b, o1, o2)
    decreases o2, 1
  {
    if !o1.Obj? {
      var key := FreshKey(o2.fields.Keys);
      b := Obj(map[key := Null]);
      assert key in MergeJson(b, MergeJson(o1, o2)).fields;
    } else {
      var k :| k in o2.fields && k in o1.fields && !CompatibleEntry(k, o1.fields[k], o2.fields[k]);
      var inner := EntryCounterexample(k, o1.fields[k], o2.fields[k]);
      b := Obj(map[k := inner]);
      assert MergeJson(MergeJson(b, o1), o2).fields[k] != MergeJson(b, MergeJson(o1, o2)).fields[k];
    }
  }

  /** Two mixins compose on every base exactly when they are compatible. */
  lemma MixinsComposeIffCompatible(o1: Json, o2: Json)
    ensures (forall b :: Composes(b, o1, o2)) <==> Compatible(o1, o2)
  {
    if Compatible(o1, o2) {
      forall b ensures Composes(b, o1, o2) {
        MixinsCompose(b, o1, o2);
      }
    } else {
      var b := MixinCounterexample(o1, o2);
      assert !Composes(b, o1, o2);
    }
  }
}
