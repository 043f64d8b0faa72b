/**
 * Values returned by the AWS Organizations and AWS Config listings that the
 * scripts search: accounts (`Id`, `Name`) and tags (`Key`/`Value` in
 * Organizations, `key`/`value` in Config results; the same pair here).
 */
module Organizations {
  import opened Wrappers

  datatype Account = Account(id: string, name: string)

  datatype Tag = Tag(key: string, value: string)

  /** `i` is the position of the first tag whose key is `key`. */
  predicate FirstTagWithKey(tags: seq<Tag>, key: string, i: int)
  {
    0 <= i < |tags| && tags[i].key == key && forall j :: 0 <= j < i ==> tags[j].key != key
  }

  /**
   * The value of the first tag whose key is `key`, scanning in list order;
   * None when no tag has that key.
   */
  function FindTag(tags: seq<Tag>, key: string): (r: Option<string>)
    ensures r.None? <==> forall i :: 0 <= i < |tags| ==> tags[i].key != key
    ensures forall i :: FirstTagWithKey(tags, key, i) ==> r == Some(tags[i].value)
  {
    if tags == [] then None
    else if tags[0].key == key then Some(tags[0].value)
    else
      var r := FindTag(tags[1..], key);
      assert forall i :: FirstTagWithKey(tags, key, i) ==> i > 0 && FirstTagWithKey(tags[1..], key, i - 1);
      r
  }

  /** The first position at or before `i` holding a tag with the key. */
  ghost function FirstTagIndex(tags: seq<Tag>, key: string, i: nat): (k: nat)
    requires i < |tags| && tags[i].key == key
    ensures FirstTagWithKey(tags, key, k) && k <= i
  {
    if exists j :: 0 <= j < i && tags[j].key == key then
      var j :| 0 <= j < i && tags[j].key == key;
      FirstTagIndex(tags, key, j)
    else i
  }

  /** `i` is the position of the first account whose id is `id`. */
  predicate FirstAccountWithId(accounts: seq<Account>, id: string, i: int)
  {
    0 <= i < |accounts| && accounts[i].id == id && forall j :: 0 <= j < i ==> accounts[j].id != id
  }

  /** The name of the first account whose id is `id`; None when no account has it. */
  function FindAccountName(accounts: seq<Account>, id: string): (r: Option<string>)
    ensures r.None? <==> forall i :: 0 <= i < |accounts| ==> accounts[i].id != id
    ensures forall i :: FirstAccountWithId(accounts, id, i) ==> r == Some(accounts[i].name)
  {
    if accounts == [] then None
    else if accounts[0].id == id then Some(accounts[0].name)
    else
      var r := FindAccountName(accounts[1..], id);
      assert forall i :: FirstAccountWithId(accounts, id, i) ==> i > 0 && FirstAccountWithId(accounts[1..], id, i - 1);
      r
  }

  /** Searching a concatenation searches the first part, then the second. */
  lemma {:induction false} FindAccountNameAppend(a: seq<Account>, b: seq<Account>, id: string)
    ensures FindAccountName(a + b, id) == if FindAccountName(a, id).Some? then FindAccountName(a, id) else FindAccountName(b, id)
  {
    if a != [] {
      assert (a + b)[1..] == a[1..] + b;
      FindAccountNameAppend(a[1..], b, id);
    } else {
      assert a + b == b;
    }
  }
}
