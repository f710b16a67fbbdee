/** How App.tsx reads its stored layout back: a parsed JSON value is
    accepted exactly when it is an array whose every element is one of the
    six widget ids. */
module Persistence {
  import opened Wrappers
  import opened Types

  /** A parsed JSON value, as far as the layout check looks at it. */
  datatype Json = JString(str: string) | JArray(items: seq<Json>) | JOther

  /** The outcome of reading one key: no (or an empty) entry, an entry that
      `JSON.parse` rejects, or a parsed value. */
  datatype Read<T> = Missing | Unparsable | Parsed(value: T)

  /** `JSON.stringify(layout)`, as a parsed value. */
  function LayoutJson(layout: seq<DashboardComponentId>): (j: Json)
    ensures j.JArray? && |j.items| == |layout|
    ensures forall k :: 0 <= k < |layout| ==> j.items[k] == JString(ComponentName(layout[k]))
  {
    JArray(seq(|layout|, k requires 0 <= k < |layout| => JString(ComponentName(layout[k]))))
  }

  /** `DASHBOARD_COMPONENT_IDS.includes(v)`. */
  predicate IsComponentId(v: Json) {
    v.JString? && ComponentNamed(v.str).Some?
  }

  /** The layout check of the mount effect: `Array.isArray(v)` and every
      element is a widget id. It tests membership only. */
  function AcceptedLayout(v: Json): (r: Option<seq<DashboardComponentId>>)
    ensures r.Some? <==> v.JArray? && forall k :: 0 <= k < |v.items| ==> IsComponentId(v.items[k])
    ensures r.Some? ==> LayoutJson(r.value) == v
  {
    if v.JArray? && forall k :: 0 <= k < |v.items| ==> IsComponentId(v.items[k]) then
      var l := seq(|v.items|, k requires 0 <= k < |v.items| => ComponentNamed(v.items[k].str).value);
      assert LayoutJson(l).items == v.items;
      Some(l)
    else
      None
  }

  /** Every layout the application stores is read back unchanged, whether
      or not it is a permutation of the six ids. */
  lemma LayoutRoundTrip(layout: seq<DashboardComponentId>)
    ensures AcceptedLayout(LayoutJson(layout)) == Some(layout)
  {
    var j := LayoutJson(layout);
    forall k | 0 <= k < |layout| ensures IsComponentId(j.items[k]) {
      ComponentNameRoundTrip(layout[k]);
    }
    assert AcceptedLayout(j).Some?;
    var r := AcceptedLayout(j).value;
    assert LayoutJson(r) == j;
    forall k | 0 <= k < |layout| ensures r[k] == layout[k] {
      assert LayoutJson(r).items[k] == j.items[k];
      ComponentNameRoundTrip(r[k]);
      ComponentNameRoundTrip(layout[k]);
    }
    assert r == layout;
  }

  /** Duplicates, missing ids and the empty array pass the check; a
      non-array or an unknown id does not. */
  lemma LayoutCheckExamples()
    ensures AcceptedLayout(JArray([JString("main"), JString("main")])) == Some([Main, Main])
    ensures AcceptedLayout(JArray([])) == Some([])
    ensures AcceptedLayout(JString("main")).None?
    ensures AcceptedLayout(JArray([JString("chart")])).None?
  {
    LayoutRoundTrip([Main, Main]);
    assert LayoutJson([Main, Main]) == JArray([JString("main"), JString("main")]);
    LayoutRoundTrip([]);
    assert LayoutJson([]) == JArray([]);
    assert !IsComponentId(JArray([JString("chart")]).items[0]);
  }
}
