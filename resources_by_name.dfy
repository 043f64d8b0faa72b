/**
 * Get-AWS-Resources-ByName: the AWS Config query assembled by
 * `get_resource_by_tag`, and the two lookups the script runs on the first
 * result (a tag value, and the owning account's name).
 */
module ResourcesByName {
  import opened Wrappers
  import opened Seqs
  import opened Organizations

  /** ASCII upper-casing of one character. */
  function UpperChar(c: char): char
  {
    if 'a' <= c <= 'z' then (c as int - 32) as char else c
  }

  predicate IsLowerAscii(c: char)
  {
    'a' <= c <= 'z'
  }

  /** `str.upper()` restricted to ASCII: every lower-case letter becomes upper case. */
  function AsciiUpper(s: string): (r: string)
    ensures |r| == |s|
    ensures forall i :: 0 <= i < |s| ==> r[i] == UpperChar(s[i])
  {
    if s == [] then [] else [UpperChar(s[0])] + AsciiUpper(s[1..])
  }

  /** Upper-casing leaves no lower-case letter and changes nothing else. */
  lemma AsciiUpperIsUpper(s: string)
    ensures forall i :: 0 <= i < |s| ==> !IsLowerAscii(AsciiUpper(s)[i])
    ensures forall i :: 0 <= i < |s| && !IsLowerAscii(s[i]) ==> AsciiUpper(s)[i] == s[i]
    ensures AsciiUpper(AsciiUpper(s)) == AsciiUpper(s)
  {
  }

  /** Python truthiness of an optional string argument: None and "" are false. */
  predicate Truthy(arg: Option<string>)
  {
    arg.Some? && arg.value != ""
  }

  /** The fixed part of the query, with the three values spliced in. */
  function SelectByTag(resourceType: string, tagKey: string, tagValueUpper: string): string
  {
    "SELECT *, tags, configuration, relationships WHERE resourceType = '" + resourceType
      + "' AND tags.key = '" + tagKey + "' AND tags.value = '" + tagValueUpper + "'"
  }

  function AccountClause(accountId: string): string
  {
    " AND accountId = '" + accountId + "'"
  }

  function RegionClause(region: string): string
  {
    " AND awsRegion = '" + region + "'"
  }

  /**
   * The query string of `get_resource_by_tag` (the call to Config is not
   * modelled). The tag value is upper-cased, key and resource type are used
   * as given; the account filter is appended exactly when `accountId` is
   * truthy, the region filter exactly when `region` is, and always last.
   */
  method ResourceByTagQuery(tagKey: string, tagValue: string, resourceType: string,
                            accountId: Option<string>, region: Option<string>)
    returns (query: string)
    ensures query == SelectByTag(resourceType, tagKey, AsciiUpper(tagValue))
                     + (if Truthy(accountId) then AccountClause(accountId.value) else "")
                     + (if Truthy(region) then RegionClause(region.value) else "")
  {
    var tagValueUpper := AsciiUpper(tagValue);
    query := SelectByTag(resourceType, tagKey, tagValueUpper);
    ghost var selected := query;
    if Truthy(accountId) {
      query := query + AccountClause(accountId.value);
    }
    assert query == selected + (if Truthy(accountId) then AccountClause(accountId.value) else "");
    ghost var filtered := query;
    if Truthy(region) {
      query := query + RegionClause(region.value);
    }
    assert query == filtered + (if Truthy(region) then RegionClause(region.value) else "");
  }

  const NotFound: string := "Not found"

  /**
   * `extract_tag_value`: the value of the first tag whose key is `targetKey`,
   * or "Not found" when no tag has it.
   */
  function ExtractTagValue(tags: seq<Tag>, targetKey: string): (r: string)
    ensures (forall i :: 0 <= i < |tags| ==> tags[i].key != targetKey) ==> r == NotFound
    ensures forall i :: FirstTagWithKey(tags, targetKey, i) ==> r == tags[i].value
  {
    FindTag(tags, targetKey).GetOr(NotFound)
  }

  /**
   * `get_account_name`: scans the `list_accounts` pages in order, and the
   * accounts of each page in order, and returns the name of the first account
   * with the given id; None when no page holds it. This is the same search
   * as over the flattened listing.
   */
  function GetAccountName(pages: seq<seq<Account>>, accountId: string): (r: Option<string>)
    ensures r == FindAccountName(Concat(pages), accountId)
  {
    if pages == [] then None
    else
      ConcatCons(pages[0], pages[1..]);
      assert pages == [pages[0]] + pages[1..];
      FindAccountNameAppend(pages[0], Concat(pages[1..]), accountId);
      match FindAccountName(pages[0], accountId)
      case Some(name) => Some(name)
      case None => GetAccountName(pages[1..], accountId)
  }
}
