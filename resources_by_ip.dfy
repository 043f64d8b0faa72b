/**
 * Get-AWS-Resources-ByIP: the AWS Config query of
 * `get_resource_by_private_ip`. Its `extract_tag_value` and
 * `get_account_name` are the same code as in Get-AWS-Resources-ByName and are
 * modelled once there; the properties this script relies on are stated here.
 */
module ResourcesByIp {
  import opened Wrappers
  import opened Organizations
  import opened ResourcesByName

  const IpQueryPrefix: string :=
    "SELECT *, tags, configuration, relationships WHERE resourceType = 'AWS::EC2::Instance' AND configuration.privateIpAddress = '"

  /** The query is the fixed template with the address inserted verbatim between the quotes. */
  function PrivateIpQuery(privateIp: string): (query: string)
    ensures |query| == |IpQueryPrefix| + |privateIp| + 1
    ensures query[..|IpQueryPrefix|] == IpQueryPrefix
    ensures query[|IpQueryPrefix|..|query| - 1] == privateIp
    ensures query[|query| - 1] == '\''
  {
    IpQueryPrefix + privateIp + "'"
  }

  /** Once a tag with the key is present, tags after it never change the answer. */
  lemma {:induction false} ExtractTagValueIgnoresLaterTags(tags: seq<Tag>, later: seq<Tag>, targetKey: string)
    requires exists i :: 0 <= i < |tags| && tags[i].key == targetKey
    ensures ExtractTagValue(tags + later, targetKey) == ExtractTagValue(tags, targetKey)
  {
    var i :| 0 <= i < |tags| && tags[i].key == targetKey;
    var k := FirstTagIndex(tags, targetKey, i);
    assert FirstTagWithKey(tags, targetKey, k);
    assert FirstTagWithKey(tags + later, targetKey, k);
  }

  /** With no tags at all the answer is "Not found". */
  lemma ExtractTagValueOfNoTags(targetKey: string)
    ensures ExtractTagValue([], targetKey) == NotFound
  {
  }

  /** No account in any page carries the id exactly when the search returns None. */
  lemma {:induction false} GetAccountNameNoneIff(pages: seq<seq<Account>>, accountId: string)
    ensures GetAccountName(pages, accountId).None? <==>
            forall p, i :: 0 <= p < |pages| && 0 <= i < |pages[p]| ==> pages[p][i].id != accountId
  {
    if pages != [] {
      GetAccountNameNoneIff(pages[1..], accountId);
      assert forall p :: 1 <= p < |pages| ==> pages[p] == pages[1..][p - 1];
    }
  }
}
