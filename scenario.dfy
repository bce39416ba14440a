/** Clients of the aggregation: the document with children
    `[{receiver: "r1"}, {name: "custom", receiver: "r2"}]`, a root route
    that already carries a name, and the secret `"sec1"`; and the same
    document with a null entry among its children. */
module Scenario {
  import opened Gateways

  /** The decimal digits of `n`. */
  function Decimal(n: nat): string
    decreases n
  {
    if n < 10 then [('0' as int + n) as char] else Decimal(n / 10) + [('0' as int + n % 10) as char]
  }

  /** A naming step that keeps present names and names an unnamed child
      `route-<i>` after its position `i`. */
  function NameByPosition(entries: seq<Entry>): NamingResult {
    Named(seq(|entries|, i requires 0 <= i < |entries| =>
      if entries[i] == Present(None) then Some("route-" + Decimal(i))
      else if entries[i].Present? then entries[i].name
      else None))
  }

  method ExampleDocument() returns (records: seq<Record<string>>)
    ensures |records| == 3
    ensures records[0].id == Some("route-0")
    ensures records[1].id == Some("custom")
    ensures records[2].id == Some("root")
    ensures forall i :: 0 <= i < |records| ==> records[i].secret == "sec1"
  {
    var first := new Route(None, None);
    var custom := new Route(Some("custom"), None);
    var root := new Route(Some("preset"), Some([first, custom]));
    var config := new Config(None, root);
    assert config.Children() == [first, custom];
    assert EntriesOf([first, custom]) == [Present(None), Present(Some("custom"))];
    assert "route-" + Decimal(0) == "route-0";
    records := GetAllGateways(Loaded(config, "sec1"), NameByPosition, "root", "route");
    assert [first, custom] + [root] == [first, custom, root];
    assert root.routes == Some([first, custom, root]);
  }

  /** A null child entry: the root is still renamed and pushed, then the
      map throws and nothing is returned. */
  method ExampleNullEntry() returns (records: seq<Record<string>>)
    ensures records == []
  {
    var custom := new Route(Some("custom"), None);
    var root := new Route(Some("preset"), Some([null, custom]));
    var config := new Config(None, root);
    assert config.Children() == [null, custom];
    records := GetAllGateways(Loaded(config, "sec1"), NameByPosition, "root", "route");
    assert root.name == Some("root");
    assert [null, custom] + [root] == [null, custom, root];
    assert root.routes == Some([null, custom, root]);
  }
}
