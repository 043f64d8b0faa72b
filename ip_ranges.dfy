/**
 * aws-ip-ranges: picks a region (the user's answer, or us-west-2 when the
 * answer is empty) and collects the `ip_prefix` of every entry of the
 * published `prefixes` list that belongs to it.
 */
module IpRanges {

  datatype PrefixEntry = PrefixEntry(ipPrefix: string, region: string)

  const DefaultRegion: string := "us-west-2"

  /** The prefixes of the entries in `region`, in list order, duplicates kept. */
  function RegionPrefixes(entries: seq<PrefixEntry>, region: string): seq<string>
  {
    if entries == [] then []
    else
      var last := entries[|entries| - 1];
      RegionPrefixes(entries[..|entries| - 1], region) + (if last.region == region then [last.ipPrefix] else [])
  }

  /** The number of entries in `region`. */
  function CountInRegion(entries: seq<PrefixEntry>, region: string): nat
  {
    if entries == [] then 0
    else CountInRegion(entries[..|entries| - 1], region) + (if entries[|entries| - 1].region == region then 1 else 0)
  }

  /**
   * Every collected prefix belongs to an entry of the region, every entry of
   * the region contributes its prefix, and there is one prefix per such entry.
   */
  lemma {:induction false} RegionPrefixesExactly(entries: seq<PrefixEntry>, region: string)
    ensures |RegionPrefixes(entries, region)| == CountInRegion(entries, region)
    ensures forall p :: p in RegionPrefixes(entries, region) ==>
              exists i :: 0 <= i < |entries| && entries[i].region == region && entries[i].ipPrefix == p
    ensures forall i :: 0 <= i < |entries| && entries[i].region == region ==>
              entries[i].ipPrefix in RegionPrefixes(entries, region)
  {
    if entries != [] {
      var init := entries[..|entries| - 1];
      RegionPrefixesExactly(init, region);
      assert forall i :: 0 <= i < |init| ==> entries[i] == init[i];
    }
  }

  /**
   * The script body: the chosen region, the matching prefixes collected by
   * the loop, and the count it reports.
   */
  method MatchingIpPrefixes(prefixes: seq<PrefixEntry>, userInput: string)
    returns (region: string, matching: seq<string>, count: nat)
    ensures region == if userInput != "" then userInput else DefaultRegion
    ensures matching == RegionPrefixes(prefixes, region)
    ensures count == CountInRegion(prefixes, region)
  {
    region := if userInput != "" then userInput else DefaultRegion;
    matching := [];
    var i := 0;
    while i < |prefixes|
      invariant 0 <= i <= |prefixes|
      invariant matching == RegionPrefixes(prefixes[..i], region)
    {
      assert prefixes[..i + 1][..i] == prefixes[..i];
      if prefixes[i].region == region {
        matching := matching + [prefixes[i].ipPrefix];
      }
      i := i + 1;
    }
    assert prefixes[..|prefixes|] == prefixes;
    RegionPrefixesExactly(prefixes, region);
    count := |matching|;
  }
}
