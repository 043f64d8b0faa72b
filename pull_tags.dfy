/**
 * PullAWSAccountTags: lists every account of the organization page by page
 * and produces one sheet row per account holding its `cmdb:env` tag.
 * `list_tags_for_resource` is the oracle `listTags`: the tags of an account,
 * or None when the call raises.
 */
module PullTags {
  import opened Wrappers
  import opened Seqs
  import opened Organizations

  const EnvTagKey: string := "cmdb:env"

  const Header: seq<string> := ["Account ID", "Account Name", "Tag Key", "Tag Value"]

  /**
   * `get_all_accounts_in_organization`: the accounts of every page, in page
   * order and, within a page, in listing order.
   */
  method AllAccountsInOrganization(pages: seq<seq<Account>>) returns (accounts: seq<Account>)
    ensures accounts == Concat(pages)
  {
    accounts := [];
    var p := 0;
    while p < |pages|
      invariant 0 <= p <= |pages|
      invariant accounts == Concat(pages[..p])
    {
      assert pages[..p + 1][..p] == pages[..p];
      accounts := accounts + pages[p];
      p := p + 1;
    }
    assert pages[..|pages|] == pages;
  }

  /**
   * `get_env_tag_for_account`: ("cmdb:env", value of the first such tag), or
   * ("", "") when the account has no such tag or the call raises.
   */
  function EnvTagForAccount(response: Option<seq<Tag>>): (r: (string, string))
    ensures r.0 == EnvTagKey || r == ("", "")
    ensures r.0 == EnvTagKey <==> response.Some? && exists i :: 0 <= i < |response.value| && response.value[i].key == EnvTagKey
    ensures response.Some? ==> forall i :: FirstTagWithKey(response.value, EnvTagKey, i) ==> r.1 == response.value[i].value
  {
    match response
    case None => ("", "")
    case Some(tags) =>
      match FindTag(tags, EnvTagKey)
      case Some(v) => (EnvTagKey, v)
      case None => ("", "")
  }

  /** The data row written for one account. */
  function AccountRow(account: Account, listTags: string -> Option<seq<Tag>>): (row: seq<string>)
    ensures |row| == 4 && row[0] == account.id && row[1] == account.name
    ensures (row[2], row[3]) == EnvTagForAccount(listTags(account.id))
  {
    var (tagKey, tagValue) := EnvTagForAccount(listTags(account.id));
    [account.id, account.name, tagKey, tagValue]
  }

  /** The whole sheet: the header row, then one row per account in account order. */
  function Sheet(accounts: seq<Account>, listTags: string -> Option<seq<Tag>>): (rows: seq<seq<string>>)
    ensures |rows| == |accounts| + 1 && rows[0] == Header
    ensures forall i :: 0 <= i < |accounts| ==> rows[i + 1] == AccountRow(accounts[i], listTags)
  {
    [Header] + seq(|accounts|, i requires 0 <= i < |accounts| => AccountRow(accounts[i], listTags))
  }

  /** One more account adds its row at the end of the sheet. */
  lemma SheetSnoc(accounts: seq<Account>, i: nat, listTags: string -> Option<seq<Tag>>)
    requires i < |accounts|
    ensures Sheet(accounts[..i + 1], listTags) == Sheet(accounts[..i], listTags) + [AccountRow(accounts[i], listTags)]
  {
    var s, s' := Sheet(accounts[..i], listTags), Sheet(accounts[..i + 1], listTags);
    assert |s'| == |s + [AccountRow(accounts[i], listTags)]|;
    assert s'[1..] == s[1..] + [AccountRow(accounts[i], listTags)];
  }

  /**
   * `main`: the rows handed to the CSV writer, for the organization's
   * account pages.
   */
  method PullRows(pages: seq<seq<Account>>, listTags: string -> Option<seq<Tag>>)
    returns (rows: seq<seq<string>>)
    ensures rows == Sheet(Concat(pages), listTags)
  {
    var accounts := AllAccountsInOrganization(pages);
    rows := [Header];
    var i := 0;
    while i < |accounts|
      invariant 0 <= i <= |accounts|
      invariant rows == Sheet(accounts[..i], listTags)
    {
      SheetSnoc(accounts, i, listTags);
      var account := accounts[i];
      var (tagKey, tagValue) := EnvTagForAccount(listTags(account.id));
      rows := rows + [[account.id, account.name, tagKey, tagValue]];
      i := i + 1;
    }
    assert accounts[..|accounts|] == accounts;
  }
}
