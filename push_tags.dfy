/**
 * PushAWSAccountTags: reads the sheet written by PullAWSAccountTags (possibly
 * edited) and re-tags every account whose current `cmdb:env` value differs
 * from the sheet's. `list_tags_for_resource` is the oracle `listTags` (None
 * when the call raises); the `tag_resource` calls issued are the result.
 */
module PushTags {
  import opened Wrappers
  import opened Seqs
  import opened Organizations
  import PullTags

  /** One projected sheet row: the account id and the desired tag value. */
  datatype SheetEntry = SheetEntry(accountId: string, tagValue: string)

  /**
   * The exceptions `read_csv` raises: `next` on an empty file
   * (StopIteration), and unpacking a row that does not have exactly four
   * fields (ValueError); `row` is the row's position in the file.
   */
  datatype SheetError = NoHeader | WrongFieldCount(row: nat)

  /** A `tag_resource` call setting `cmdb:env` of `accountId` to `tagValue`. */
  datatype TagUpdate = TagUpdate(accountId: string, tagValue: string)

  /** The position of the first row at or after `k` that does not have four fields, or |rows|. */
  function FirstBadRow(rows: seq<seq<string>>, k: nat): (r: nat)
    requires k <= |rows|
    ensures k <= r <= |rows|
    ensures forall i :: k <= i < r ==> |rows[i]| == 4
    ensures r < |rows| ==> |rows[r]| != 4
    decreases |rows| - k
  {
    if k == |rows| then k
    else if |rows[k]| != 4 then k
    else FirstBadRow(rows, k + 1)
  }

  /**
   * What `read_csv` returns: the header row is dropped and every other row
   * gives (its first field, its fourth field), in file order; an empty file
   * or a row without exactly four fields raises instead.
   */
  function ParseSheet(rows: seq<seq<string>>): (r: Result<seq<SheetEntry>, SheetError>)
    ensures rows == [] ==> r == Failure(NoHeader)
    ensures r.Success? <==> rows != [] && forall i :: 1 <= i < |rows| ==> |rows[i]| == 4
    ensures r.Success? ==>
              && |r.value| == |rows| - 1
              && forall i :: 0 <= i < |r.value| ==> r.value[i] == SheetEntry(rows[i + 1][0], rows[i + 1][3])
    ensures r.Failure? && rows != [] ==>
              && r.error.WrongFieldCount?
              && 1 <= r.error.row < |rows| && |rows[r.error.row]| != 4
              && forall i :: 1 <= i < r.error.row ==> |rows[i]| == 4
  {
    if rows == [] then Failure(NoHeader)
    else
      var bad := FirstBadRow(rows, 1);
      if bad < |rows| then Failure(WrongFieldCount(bad))
      else Success(seq(|rows| - 1, i requires 0 <= i < |rows| - 1 => SheetEntry(rows[i + 1][0], rows[i + 1][3])))
  }

  /** `read_csv`, over the rows already split into fields. */
  method ReadSheet(rows: seq<seq<string>>) returns (r: Result<seq<SheetEntry>, SheetError>)
    ensures r == ParseSheet(rows)
  {
    if rows == [] {
      return Failure(NoHeader);
    }
    var data: seq<SheetEntry> := [];
    var i := 1;
    while i < |rows|
      invariant 1 <= i <= |rows|
      invariant |data| == i - 1
      invariant forall j :: 1 <= j < i ==> |rows[j]| == 4
      invariant forall j :: 0 <= j < |data| ==> data[j] == SheetEntry(rows[j + 1][0], rows[j + 1][3])
    {
      var row := rows[i];
      if |row| != 4 {
        return Failure(WrongFieldCount(i));
      }
      data := data + [SheetEntry(row[0], row[3])];
      i := i + 1;
    }
    assert FirstBadRow(rows, 1) == |rows|;
    assert data == seq(|rows| - 1, j requires 0 <= j < |rows| - 1 => SheetEntry(rows[j + 1][0], rows[j + 1][3]));
    return Success(data);
  }

  /**
   * `get_env_tag_for_account`: the value of the first `cmdb:env` tag; None
   * when the account has none or the call raises.
   */
  function CurrentEnvTag(response: Option<seq<Tag>>): (r: Option<string>)
    ensures r.Some? <==> response.Some? && exists i :: 0 <= i < |response.value| && response.value[i].key == PullTags.EnvTagKey
    ensures response.Some? ==> forall i :: FirstTagWithKey(response.value, PullTags.EnvTagKey, i) ==> r == Some(response.value[i].value)
  {
    match response
    case None => None
    case Some(tags) => FindTag(tags, PullTags.EnvTagKey)
  }

  /** `current_tag_value != new_tag_value`: None never equals a sheet string. */
  predicate Differs(entry: SheetEntry, listTags: string -> Option<seq<Tag>>)
  {
    CurrentEnvTag(listTags(entry.accountId)) != Some(entry.tagValue)
  }

  /** The `tag_resource` call one sheet entry owes: one when its value differs, none otherwise. */
  function OwedUpdate(entry: SheetEntry, listTags: string -> Option<seq<Tag>>): seq<TagUpdate>
  {
    if Differs(entry, listTags) then [TagUpdate(entry.accountId, entry.tagValue)] else []
  }

  /** The updates owed for `entries`, in sheet order. */
  function UpdatesFor(entries: seq<SheetEntry>, listTags: string -> Option<seq<Tag>>): seq<TagUpdate>
  {
    if entries == [] then []
    else UpdatesFor(entries[..|entries| - 1], listTags) + OwedUpdate(entries[|entries| - 1], listTags)
  }

  /** `Differs` as a predicate on entries, for a fixed snapshot of the tags. */
  function DiffersUnder(listTags: string -> Option<seq<Tag>>): SheetEntry -> bool
  {
    e => Differs(e, listTags)
  }

  /** The sheet positions whose value differs from the account's current tag. */
  function DifferingPositions(entries: seq<SheetEntry>, listTags: string -> Option<seq<Tag>>): set<nat>
  {
    Positions(entries, DiffersUnder(listTags))
  }

  /** Every entry whose value differs gets its update. */
  lemma {:induction false} DifferingEntryUpdated(entries: seq<SheetEntry>, listTags: string -> Option<seq<Tag>>, e: SheetEntry)
    requires e in entries && Differs(e, listTags)
    ensures TagUpdate(e.accountId, e.tagValue) in UpdatesFor(entries, listTags)
  {
    var init := entries[..|entries| - 1];
    var k :| 0 <= k < |entries| && entries[k] == e;
    if k < |entries| - 1 {
      assert init[k] == e;
      DifferingEntryUpdated(init, listTags, e);
    } else {
      assert OwedUpdate(e, listTags) == [TagUpdate(e.accountId, e.tagValue)];
    }
  }

  /** Every update issued comes from an entry of the sheet whose value differs. */
  lemma {:induction false} UpdateFromDifferingEntry(entries: seq<SheetEntry>, listTags: string -> Option<seq<Tag>>, u: TagUpdate)
    requires u in UpdatesFor(entries, listTags)
    ensures SheetEntry(u.accountId, u.tagValue) in entries && Differs(SheetEntry(u.accountId, u.tagValue), listTags)
  {
    var init, last := entries[..|entries| - 1], entries[|entries| - 1];
    if u in UpdatesFor(init, listTags) {
      UpdateFromDifferingEntry(init, listTags, u);
    } else {
      assert u in OwedUpdate(last, listTags);
      assert SheetEntry(u.accountId, u.tagValue) == last;
    }
  }

  /** Exactly one update per differing entry: as many updates as differing positions. */
  lemma {:induction false} UpdatesCount(entries: seq<SheetEntry>, listTags: string -> Option<seq<Tag>>)
    ensures |UpdatesFor(entries, listTags)| == |DifferingPositions(entries, listTags)| <= |entries|
  {
    if entries != [] {
      UpdatesCount(entries[..|entries| - 1], listTags);
      PositionsSnoc(entries, DiffersUnder(listTags));
    }
  }

  /** An entry whose account carries no `cmdb:env` tag (or whose read fails) is always updated. */
  lemma UntaggedAlwaysUpdated(entries: seq<SheetEntry>, listTags: string -> Option<seq<Tag>>, e: SheetEntry)
    requires e in entries && CurrentEnvTag(listTags(e.accountId)).None?
    ensures TagUpdate(e.accountId, e.tagValue) in UpdatesFor(entries, listTags)
  {
    DifferingEntryUpdated(entries, listTags, e);
  }

  /**
   * The loop of `main`: for each entry, in sheet order, read the current
   * value and call `update_tag` when it differs. Failures inside
   * `update_tag` are swallowed, so every differing entry yields a call (and
   * the "Updated" message) and the loop always goes on.
   */
  method PushUpdates(entries: seq<SheetEntry>, listTags: string -> Option<seq<Tag>>)
    returns (updates: seq<TagUpdate>)
    ensures updates == UpdatesFor(entries, listTags)
  {
    updates := [];
    var i := 0;
    while i < |entries|
      invariant 0 <= i <= |entries|
      invariant updates == UpdatesFor(entries[..i], listTags)
    {
      assert entries[..i + 1][..i] == entries[..i];
      var entry := entries[i];
      var current := CurrentEnvTag(listTags(entry.accountId));
      if current != Some(entry.tagValue) {
        updates := updates + [TagUpdate(entry.accountId, entry.tagValue)];
      }
      i := i + 1;
    }
    assert entries[..|entries|] == entries;
  }

  /** `main`: read the sheet, then push; a sheet that cannot be read raises before any update. */
  method PushTagsMain(rows: seq<seq<string>>, listTags: string -> Option<seq<Tag>>)
    returns (r: Result<seq<TagUpdate>, SheetError>)
    ensures ParseSheet(rows).Failure? ==> r == Failure(ParseSheet(rows).error)
    ensures ParseSheet(rows).Success? ==> r == Success(UpdatesFor(ParseSheet(rows).value, listTags))
  {
    var sheet := ReadSheet(rows);
    match sheet
    case Failure(e) =>
      r := Failure(e);
    case Success(entries) =>
      var updates := PushUpdates(entries, listTags);
      r := Success(updates);
  }

  /** The updates a pushed, unedited pull issues: one setting "" per account without the tag. */
  function UntaggedResets(accounts: seq<Account>, listTags: string -> Option<seq<Tag>>): seq<TagUpdate>
  {
    if accounts == [] then []
    else
      var last := accounts[|accounts| - 1];
      UntaggedResets(accounts[..|accounts| - 1], listTags)
        + (if CurrentEnvTag(listTags(last.id)).None? then [TagUpdate(last.id, "")] else [])
  }

  /**
   * Round trip with the pull script: when the tags do not change in between,
   * pushing the sheet the pull produced re-tags nothing that carries
   * `cmdb:env`, and sets "" on exactly the accounts that do not, in account
   * order.
   */
  lemma {:induction false} PullThenPush(accounts: seq<Account>, listTags: string -> Option<seq<Tag>>)
    ensures ParseSheet(PullTags.Sheet(accounts, listTags)).Success?
    ensures UpdatesFor(ParseSheet(PullTags.Sheet(accounts, listTags)).value, listTags) == UntaggedResets(accounts, listTags)
  {
    var entries := ParseSheet(PullTags.Sheet(accounts, listTags)).value;
    assert |entries| == |accounts|;
    PulledEntries(accounts, listTags, entries);
  }

  lemma {:induction false} PulledEntries(accounts: seq<Account>, listTags: string -> Option<seq<Tag>>, entries: seq<SheetEntry>)
    requires |entries| == |accounts|
    requires forall i :: 0 <= i < |accounts| ==>
               entries[i] == SheetEntry(accounts[i].id, PullTags.EnvTagForAccount(listTags(accounts[i].id)).1)
    ensures UpdatesFor(entries, listTags) == UntaggedResets(accounts, listTags)
  {
    if accounts != [] {
      var n := |accounts| - 1;
      PulledEntries(accounts[..n], listTags, entries[..n]);
      var a := accounts[n];
      var response := listTags(a.id);
      if response.Some? {
        var tags := response.value;
        if exists i :: 0 <= i < |tags| && tags[i].key == PullTags.EnvTagKey {
          var i :| 0 <= i < |tags| && tags[i].key == PullTags.EnvTagKey;
          var k := FirstTagIndex(tags, PullTags.EnvTagKey, i);
          assert PullTags.EnvTagForAccount(response).1 == tags[k].value;
        }
      }
    }
  }
}
