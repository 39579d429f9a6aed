/** connectors/registry.py: the ids one connector goes by during a deprecation window. */
module ConnectorRegistry {
  import opened Prelude

  /** `deprecated` gives each retired id's `replacement` attribute; `order` is the dictionary's order. */
  datatype Registry = Registry(connectors: set<string>, deprecated: map<string, Option<string>>, order: seq<string>) {
    ghost predicate Valid() {
      forall id :: id in order <==> id in deprecated
    }

    function LiveId(name: string): string {
      if name in connectors then name
      else if name in deprecated && deprecated[name].Some? && deprecated[name].value in connectors then deprecated[name].value
      else name
    }

    predicate Retires(id: string, live: string) {
      id in deprecated && deprecated[id] == Some(live)
    }
  }

  function RetiredFrom(reg: Registry, live: string, olds: seq<string>): (r: seq<string>)
    ensures forall x :: x in r <==> x in olds && reg.Retires(x, live)
  {
    if olds == [] then []
    else (if reg.Retires(olds[0], live) then [olds[0]] else []) + RetiredFrom(reg, live, olds[1..])
  }

  /** `dict.fromkeys`: the first occurrence of each value, in order. */
  function FirstOccurrences(xs: seq<string>): (r: seq<string>)
    ensures forall x :: x in r <==> x in xs
    ensures Distinct(r)
    ensures xs != [] ==> r != [] && r[0] == xs[0]
  {
    if xs == [] then []
    else
      var init := FirstOccurrences(xs[..|xs| - 1]);
      assert xs == xs[..|xs| - 1] + [xs[|xs| - 1]];
      if xs[|xs| - 1] in init then init else init + [xs[|xs| - 1]]
  }

  /** `ids_of`. */
  function IdsOf(reg: Registry, name: string): (ids: seq<string>)
    requires reg.Valid()
    ensures ids != [] && ids[0] == name && Distinct(ids)
    ensures forall x :: x in ids <==> x == name || x == reg.LiveId(name) || reg.Retires(x, reg.LiveId(name))
  {
    FirstOccurrences([name, reg.LiveId(name)] + RetiredFrom(reg, reg.LiveId(name), reg.order))
  }

  /** Retired ids are not live and each names a live replacement. */
  ghost predicate Settled(reg: Registry) {
    forall id :: id in reg.deprecated ==>
                    id !in reg.connectors && reg.deprecated[id].Some? && reg.deprecated[id].value in reg.connectors
  }

  /** In a settled registry the ids of a connector are exactly the ids with the same live id, so the
      link is symmetric and transitive whichever id a grant or a tool names. */
  lemma LinkedIsSameLive(reg: Registry, a: string, b: string)
    requires reg.Valid() && Settled(reg)
    ensures b in IdsOf(reg, a) <==> reg.LiveId(b) == reg.LiveId(a)
    ensures reg.LiveId(a) == if a in reg.deprecated then reg.deprecated[a].value else a
  {
    if reg.LiveId(b) == reg.LiveId(a) && b != a {
      assert b in reg.deprecated || b == reg.LiveId(a) || a in reg.deprecated;
    }
  }

  /** Without that, a link can hold one way only. */
  lemma LinkCanBeOneWay()
    ensures var reg := Registry({}, map["old" := Some("new")], ["old"]);
            reg.Valid() && "old" in IdsOf(reg, "new") && "new" !in IdsOf(reg, "old")
  {
    var reg := Registry({}, map["old" := Some("new")], ["old"]);
    assert forall x :: x in reg.order <==> x == "old";
    assert reg.LiveId("old") == "old" && reg.LiveId("new") == "new";
    assert reg.Retires("old", "new");
    assert "old"[0] != "new"[0];
  }
}
