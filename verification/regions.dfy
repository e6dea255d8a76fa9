/**
 * The static region table of the registry client and its lookup,
 * `getServiceUrlForRegion`.
 */
module Regions {
  import opened Wrappers

  /** The entries of `_regionalEndpoints`, in the order the `Map` constructor receives them. */
  const RegionalEndpoints: seq<(string, string)> := [
    ("global", "https://icr.io"),
    ("us-south", "https://us.icr.io"),
    ("uk-south", "https://uk.icr.io"),
    ("eu-gb", "https://uk.icr.io"),
    ("eu-central", "https://de.icr.io"),
    ("eu-de", "https://de.icr.io"),
    ("ap-north", "https://jp.icr.io"),
    ("jp-tok", "https://jp.icr.io"),
    ("ap-south", "https://au.icr.io"),
    ("au-syd", "https://au.icr.io"),
    ("jp-osa", "https://jp2.icr.io"),
    ("ca-tor", "https://ca.icr.io"),
    ("br-sao", "https://br.icr.io")
  ]

  /** No key occurs twice among the entries. */
  predicate KeysDistinct(entries: seq<(string, string)>) {
    forall i, j :: 0 <= i < j < |entries| ==> entries[i].0 != entries[j].0
  }

  /**
   * The map a `Map` constructor builds from a list of entries: each entry is
   * set in turn, so a later entry for the same key overrides an earlier one.
   */
  function MapOf(entries: seq<(string, string)>): (m: map<string, string>)
    ensures forall k :: k in m <==> exists i :: 0 <= i < |entries| && entries[i].0 == k
    ensures KeysDistinct(entries) ==>
      forall i :: 0 <= i < |entries| ==> m[entries[i].0] == entries[i].1
  {
    if entries == [] then map[]
    else
      var init := entries[..|entries| - 1];
      var last := entries[|entries| - 1];
      assert forall i :: 0 <= i < |init| ==> init[i] == entries[i];
      MapOf(init)[last.0 := last.1]
  }

  /** With distinct keys, the map has one entry per table entry. */
  lemma {:induction false} MapOfSize(entries: seq<(string, string)>)
    requires KeysDistinct(entries)
    ensures |MapOf(entries)| == |entries|
  {
    if entries != [] {
      var init := entries[..|entries| - 1];
      var last := entries[|entries| - 1];
      assert KeysDistinct(init);
      MapOfSize(init);
      assert last.0 !in MapOf(init);
    }
  }

  /**
   * `getServiceUrlForRegion`: the host listed for `region`, or None when the
   * region is not one of the table's keys (never an error).
   */
  function ServiceUrlForRegion(region: string): (r: Option<string>)
    ensures r.None? <==> forall i :: 0 <= i < |RegionalEndpoints| ==> RegionalEndpoints[i].0 != region
    ensures forall i :: 0 <= i < |RegionalEndpoints| && RegionalEndpoints[i].0 == region ==>
      r == Some(RegionalEndpoints[i].1)
  {
    RegionKeysDistinct();
    var m := MapOf(RegionalEndpoints);
    if region in m then Some(m[region]) else None
  }

  /** No key occurs twice in the table, so every entry is reachable by its key. */
  lemma RegionKeysDistinct()
    ensures KeysDistinct(RegionalEndpoints)
  {
  }

  /** The table has thirteen keys. */
  lemma RegionTableSize()
    ensures |MapOf(RegionalEndpoints)| == 13
  {
    RegionKeysDistinct();
    MapOfSize(RegionalEndpoints);
  }

  /** Each of the thirteen keys resolves to its listed host. */
  lemma RegionHosts()
    ensures ServiceUrlForRegion("global") == Some("https://icr.io")
    ensures ServiceUrlForRegion("us-south") == Some("https://us.icr.io")
    ensures ServiceUrlForRegion("uk-south") == Some("https://uk.icr.io")
    ensures ServiceUrlForRegion("eu-gb") == Some("https://uk.icr.io")
    ensures ServiceUrlForRegion("eu-central") == Some("https://de.icr.io")
    ensures ServiceUrlForRegion("eu-de") == Some("https://de.icr.io")
    ensures ServiceUrlForRegion("ap-north") == Some("https://jp.icr.io")
    ensures ServiceUrlForRegion("jp-tok") == Some("https://jp.icr.io")
    ensures ServiceUrlForRegion("ap-south") == Some("https://au.icr.io")
    ensures ServiceUrlForRegion("au-syd") == Some("https://au.icr.io")
    ensures ServiceUrlForRegion("jp-osa") == Some("https://jp2.icr.io")
    ensures ServiceUrlForRegion("ca-tor") == Some("https://ca.icr.io")
    ensures ServiceUrlForRegion("br-sao") == Some("https://br.icr.io")
  {
    assert RegionalEndpoints[0].0 == "global";
    assert RegionalEndpoints[1].0 == "us-south";
    assert RegionalEndpoints[2].0 == "uk-south";
    assert RegionalEndpoints[3].0 == "eu-gb";
    assert RegionalEndpoints[4].0 == "eu-central";
    assert RegionalEndpoints[5].0 == "eu-de";
    assert RegionalEndpoints[6].0 == "ap-north";
    assert RegionalEndpoints[7].0 == "jp-tok";
    assert RegionalEndpoints[8].0 == "ap-south";
    assert RegionalEndpoints[9].0 == "au-syd";
    assert RegionalEndpoints[10].0 == "jp-osa";
    assert RegionalEndpoints[11].0 == "ca-tor";
    assert RegionalEndpoints[12].0 == "br-sao";
  }

  /** Alias keys share a host. */
  lemma RegionAliases()
    ensures ServiceUrlForRegion("uk-south") == ServiceUrlForRegion("eu-gb") == Some("https://uk.icr.io")
    ensures ServiceUrlForRegion("eu-central") == ServiceUrlForRegion("eu-de") == Some("https://de.icr.io")
    ensures ServiceUrlForRegion("ap-north") == ServiceUrlForRegion("jp-tok") == Some("https://jp.icr.io")
    ensures ServiceUrlForRegion("ap-south") == ServiceUrlForRegion("au-syd") == Some("https://au.icr.io")
  {
    RegionHosts();
  }

  /** A key outside the table yields None. */
  lemma UnknownRegionIsAbsent(region: string)
    requires region !in {"global", "us-south", "uk-south", "eu-gb", "eu-central", "eu-de",
                         "ap-north", "jp-tok", "ap-south", "au-syd", "jp-osa", "ca-tor", "br-sao"}
    ensures ServiceUrlForRegion(region) == None
  {
    var keys := seq(|RegionalEndpoints|, i requires 0 <= i < |RegionalEndpoints| => RegionalEndpoints[i].0);
    assert keys == ["global", "us-south", "uk-south", "eu-gb", "eu-central", "eu-de",
                    "ap-north", "jp-tok", "ap-south", "au-syd", "jp-osa", "ca-tor", "br-sao"];
    assert region !in keys;
    assert forall i :: 0 <= i < |RegionalEndpoints| ==> keys[i] == RegionalEndpoints[i].0;
  }
}
