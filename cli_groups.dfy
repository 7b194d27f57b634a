/**
 * Grouping of scan targets by category, as the scan, JSON and report
 * commands each do with a Go map from category name to targets, and the
 * unspecified order in which Go's `range` visits the keys of such a map.
 */
module CliGroups {
  import opened Folds
  import opened Scanner

  /** `grouped[c]` holds the targets of category `c`, in scan order, and only occurring categories are keys. */
  ghost predicate GroupsTargets(ts: seq<Target>, grouped: map<string, seq<Target>>) {
    forall c :: && (c in grouped <==> Select(ts, TargetCategory, c) != [])
                && (c in grouped ==> grouped[c] == Select(ts, TargetCategory, c))
  }

  lemma GroupStep(front: seq<Target>, t: Target, grouped: map<string, seq<Target>>)
    requires GroupsTargets(front, grouped)
    ensures GroupsTargets(front + [t],
              grouped[t.category := (if t.category in grouped then grouped[t.category] else []) + [t]])
  {
    forall c {
      SelectSnoc(front, t, TargetCategory, c);
    }
  }

  lemma GroupedIsSelect(ts: seq<Target>, grouped: map<string, seq<Target>>, c: string)
    requires GroupsTargets(ts, grouped)
    ensures c in grouped <==> Select(ts, TargetCategory, c) != []
    ensures c in grouped ==> grouped[c] == Select(ts, TargetCategory, c)
  {
  }

  /** `grouped[t.Category] = append(grouped[t.Category], t)` over all targets. */
  method GroupByCategory(ts: seq<Target>) returns (grouped: map<string, seq<Target>>)
    ensures GroupsTargets(ts, grouped)
  {
    grouped := map[];
    for i := 0 to |ts|
      invariant GroupsTargets(ts[..i], grouped)
    {
      var t := ts[i];
      assert ts[..i + 1] == ts[..i] + [t];
      GroupStep(ts[..i], t, grouped);
      var items := if t.category in grouped then grouped[t.category] else [];
      grouped := grouped[t.category := items + [t]];
    }
    assert ts[..|ts|] == ts;
  }

  /** The bytes of the targets, added up one by one. */
  method SumSizes(ts: seq<Target>) returns (total: int)
    ensures total == Sum(ts, TargetSize)
  {
    total := 0;
    for i := 0 to |ts|
      invariant total == Sum(ts[..i], TargetSize)
    {
      assert ts[..i + 1] == ts[..i] + [ts[i]];
      SumSnoc(ts[..i], ts[i], TargetSize);
      total := total + ts[i].size;
    }
    assert ts[..|ts|] == ts;
  }

  /** An order of the keys of `m`, each once: the order of a `range` over a Go map is not specified. */
  method KeysInSomeOrder<V>(m: map<string, V>) returns (ks: seq<string>)
    ensures Distinct(ks)
    ensures forall k :: k in ks <==> k in m
  {
    ks := [];
    var rest := m.Keys;
    while rest != {}
      invariant rest <= m.Keys
      invariant Distinct(ks)
      invariant forall k :: k in ks <==> k in m.Keys - rest
      decreases rest
    {
      var k :| k in rest;
      assert k !in ks;
      ks := ks + [k];
      rest := rest - {k};
    }
  }

  /** Every category of `ts` is among the keys `ks` of its grouping. */
  lemma CoversCategories(ts: seq<Target>, grouped: map<string, seq<Target>>, ks: seq<string>)
    requires GroupsTargets(ts, grouped)
    requires forall k :: k in ks <==> k in grouped
    ensures forall i :: 0 <= i < |ts| ==> TargetCategory(ts[i]) in ks
  {
    forall i | 0 <= i < |ts|
      ensures TargetCategory(ts[i]) in ks
    {
      assert ts[i] in Select(ts, TargetCategory, TargetCategory(ts[i]));
    }
  }
}
