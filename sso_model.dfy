/**
 * AccountAuditUsers, as a specification: the IAM Identity Center data the
 * script reads, the order in which it visits (account, permission set,
 * assignment) triples, and the report it builds or the KeyError that aborts
 * it. The stateful script itself, with its two memo dictionaries, is in
 * module SsoAudit and is proved to produce exactly `Audit`.
 */
module SsoModel {
  import opened Wrappers
  import opened Seqs
  import opened Organizations

  /** One `AccountAssignments` element: `PrincipalId` and `PrincipalType`. */
  datatype AssignmentEntry = AssignmentEntry(principalId: string, principalType: string)

  /** A `list_account_assignments` response; `nextToken` is None when `NextToken` is absent. */
  datatype AssignmentPage = AssignmentPage(assignments: seq<AssignmentEntry>, nextToken: Option<string>)

  /** The arguments of one `list_account_assignments` call (None: no `NextToken` passed). */
  datatype ListRequest = ListRequest(accountId: string, permissionSetArn: string, nextToken: Option<string>)

  /** One row of the report: `AccountName`, `PermissionSet`, `Principal`, `Type`. */
  datatype Record = Record(accountName: string, permissionSet: string, principal: string, principalType: string)

  /** The exception that aborts the run: the principal key missing from the `principals` dictionary. */
  datatype AuditError = KeyError(principalKey: string)

  /** One step of the traversal: an assignment entry seen under an account and a permission set. */
  datatype Visit = Visit(account: Account, permissionSetArn: string, entry: AssignmentEntry)

  /**
   * What the remote services answer, as functions of the request:
   * `list_permission_sets_provisioned_to_account` (by account id),
   * `describe_permission_set` (the permission set's `Name`, by ARN),
   * `list_account_assignments` (by account id, ARN and token), and the
   * directory lookups of a user's `Username` and a group's `DisplayName`.
   */
  datatype IdentityCenter = IdentityCenter(
    provisionedTo: string -> seq<string>,
    permissionSetName: string -> string,
    assignmentsPage: (string, string, Option<string>) -> AssignmentPage,
    userName: string -> string,
    groupDisplayName: string -> string)

  /** Python truthiness of `NextToken`: absent and "" both end the listing. */
  predicate Falsy(token: Option<string>)
  {
    token.None? || token.value == ""
  }

  // ---------------------------------------------------------------------
  // Pagination of list_account_assignments

  /** The token the k-th request carries: none for the first, then the previous page's. */
  function TokenAt(c: IdentityCenter, accountId: string, arn: string, k: nat): Option<string>
  {
    if k == 0 then None else c.assignmentsPage(accountId, arn, TokenAt(c, accountId, arn, k - 1)).nextToken
  }

  /** The response to the k-th request. */
  function PageAt(c: IdentityCenter, accountId: string, arn: string, k: nat): AssignmentPage
  {
    c.assignmentsPage(accountId, arn, TokenAt(c, accountId, arn, k))
  }

  /** Following the tokens eventually reaches a page without a (truthy) next token. */
  ghost predicate ListingEnds(c: IdentityCenter, accountId: string, arn: string)
  {
    exists n: nat :: Falsy(PageAt(c, accountId, arn, n).nextToken)
  }

  /** The first page at or after `k` whose next token is falsy. */
  function FirstFinalPage(c: IdentityCenter, accountId: string, arn: string, k: nat, bound: nat): (n: nat)
    requires k <= bound && Falsy(PageAt(c, accountId, arn, bound).nextToken)
    ensures k <= n <= bound && Falsy(PageAt(c, accountId, arn, n).nextToken)
    ensures forall j :: k <= j < n ==> !Falsy(PageAt(c, accountId, arn, j).nextToken)
    decreases bound - k
  {
    if Falsy(PageAt(c, accountId, arn, k).nextToken) then k
    else FirstFinalPage(c, accountId, arn, k + 1, bound)
  }

  /** The index of the page at which the loop stops: the first one with a falsy next token. */
  ghost function LastPage(c: IdentityCenter, accountId: string, arn: string): (n: nat)
    requires ListingEnds(c, accountId, arn)
    ensures Falsy(PageAt(c, accountId, arn, n).nextToken)
    ensures forall j :: 0 <= j < n ==> !Falsy(PageAt(c, accountId, arn, j).nextToken)
  {
    var bound: nat :| Falsy(PageAt(c, accountId, arn, bound).nextToken);
    FirstFinalPage(c, accountId, arn, 0, bound)
  }

  /** The `AccountAssignments` of the first n pages, page by page. */
  function PagesUpTo(c: IdentityCenter, accountId: string, arn: string, n: nat): seq<seq<AssignmentEntry>>
  {
    seq(n, k requires 0 <= k < n => PageAt(c, accountId, arn, k).assignments)
  }

  /** The first n requests. */
  function RequestsUpTo(c: IdentityCenter, accountId: string, arn: string, n: nat): seq<ListRequest>
  {
    seq(n, k requires 0 <= k < n => ListRequest(accountId, arn, TokenAt(c, accountId, arn, k)))
  }

  /** `assignment_list` once the loop has stopped: every page's assignments, in page order. */
  ghost function Listing(c: IdentityCenter, accountId: string, arn: string): seq<AssignmentEntry>
  {
    if ListingEnds(c, accountId, arn) then Concat(PagesUpTo(c, accountId, arn, LastPage(c, accountId, arn) + 1)) else []
  }

  /** The requests the loop issues for one (account, permission set) pair. */
  ghost function Requests(c: IdentityCenter, accountId: string, arn: string): seq<ListRequest>
    requires ListingEnds(c, accountId, arn)
  {
    RequestsUpTo(c, accountId, arn, LastPage(c, accountId, arn) + 1)
  }

  lemma PagesUpToSnoc(c: IdentityCenter, accountId: string, arn: string, k: nat)
    ensures PagesUpTo(c, accountId, arn, k + 1) == PagesUpTo(c, accountId, arn, k) + [PageAt(c, accountId, arn, k).assignments]
  {
  }

  lemma RequestsUpToSnoc(c: IdentityCenter, accountId: string, arn: string, k: nat)
    ensures RequestsUpTo(c, accountId, arn, k + 1) == RequestsUpTo(c, accountId, arn, k) + [ListRequest(accountId, arn, TokenAt(c, accountId, arn, k))]
  {
  }

  /** A listing whose first falsy token is on page n stops there. */
  lemma ListingStopsAt(c: IdentityCenter, accountId: string, arn: string, n: nat)
    requires Falsy(PageAt(c, accountId, arn, n).nextToken)
    requires forall j :: 0 <= j < n ==> !Falsy(PageAt(c, accountId, arn, j).nextToken)
    ensures ListingEnds(c, accountId, arn) && LastPage(c, accountId, arn) == n
    ensures Listing(c, accountId, arn) == Concat(PagesUpTo(c, accountId, arn, n + 1))
    ensures Requests(c, accountId, arn) == RequestsUpTo(c, accountId, arn, n + 1)
  {
    var last := LastPage(c, accountId, arn);
    assert !(last < n) && !(n < last);
  }

  /**
   * The first request carries no token; each later request carries the
   * previous response's `NextToken`, which was truthy; the last response's
   * token is falsy.
   */
  lemma RequestsFollowTokens(c: IdentityCenter, accountId: string, arn: string)
    requires ListingEnds(c, accountId, arn)
    ensures var rs := Requests(c, accountId, arn);
      && |rs| >= 1 && rs[0].nextToken.None?
      && (forall k :: 0 < k < |rs| ==>
            rs[k].nextToken == PageAt(c, accountId, arn, k - 1).nextToken && !Falsy(rs[k].nextToken))
      && Falsy(PageAt(c, accountId, arn, |rs| - 1).nextToken)
  {
  }

  // ---------------------------------------------------------------------
  // Principal keys

  const User: string := "USER"
  const Group: string := "GROUP"

  predicate IsKnownType(principalType: string)
  {
    principalType == User || principalType == Group
  }

  /** `f"{principal_type}_{principal_id}"`. */
  function PrincipalKey(e: AssignmentEntry): string
  {
    e.principalType + "_" + e.principalId
  }

  /** The keys of the lookups in `calls`. */
  function LookupKeys(calls: seq<AssignmentEntry>): seq<string>
  {
    seq(|calls|, i requires 0 <= i < |calls| => PrincipalKey(calls[i]))
  }

  /** The keys the USER and GROUP entries among `vs` put into `principals`. */
  function KnownKeys(vs: seq<Visit>): set<string>
  {
    if vs == [] then {}
    else
      var v := vs[|vs| - 1];
      KnownKeys(vs[..|vs| - 1]) + (if IsKnownType(v.entry.principalType) then {PrincipalKey(v.entry)} else {})
  }

  /** The cached keys are exactly the keys of the USER and GROUP entries among `vs`. */
  lemma {:induction false} KnownKeysMembers(vs: seq<Visit>, key: string)
    ensures key in KnownKeys(vs) <==> exists v :: v in vs && IsKnownType(v.entry.principalType) && PrincipalKey(v.entry) == key
  {
    if vs != [] {
      var init, last := vs[..|vs| - 1], vs[|vs| - 1];
      assert vs == init + [last];
      KnownKeysMembers(init, key);
      if key in KnownKeys(init) {
        var v :| v in init && IsKnownType(v.entry.principalType) && PrincipalKey(v.entry) == key;
        assert v in vs;
      }
    }
  }

  /** The name cached under a USER or GROUP key. */
  function NameOfKey(c: IdentityCenter, key: string): string
  {
    if |key| >= 5 && key[..5] == "USER_" then c.userName(key[5..])
    else if |key| >= 6 && key[..6] == "GROUP_" then c.groupDisplayName(key[6..])
    else ""
  }

  /** A USER key names the user's `Username`, a GROUP key the group's `DisplayName`. */
  lemma NameOfKnownKey(c: IdentityCenter, e: AssignmentEntry)
    requires IsKnownType(e.principalType)
    ensures NameOfKey(c, PrincipalKey(e)) ==
            if e.principalType == User then c.userName(e.principalId) else c.groupDisplayName(e.principalId)
  {
    var key := PrincipalKey(e);
    if e.principalType == User {
      assert key[..5] == "USER_" && key[5..] == e.principalId;
    } else {
      assert key[..5] != "USER_" by { assert key[0] == 'G'; }
      assert key[..6] == "GROUP_" && key[6..] == e.principalId;
    }
  }

  /** For USER and GROUP entries the key determines the entry: no two principals share a cache slot. */
  lemma KnownKeysInjective(e1: AssignmentEntry, e2: AssignmentEntry)
    requires IsKnownType(e1.principalType) && IsKnownType(e2.principalType)
    ensures PrincipalKey(e1) == PrincipalKey(e2) <==> e1 == e2
  {
    var k1, k2 := PrincipalKey(e1), PrincipalKey(e2);
    if e1.principalType == e2.principalType {
      var n := |e1.principalType| + 1;
      assert k1 == k2 ==> e1.principalId == k1[n..] == e2.principalId;
    } else {
      assert k1[0] != k2[0];
    }
  }

  /**
   * An entry whose principal type is neither USER nor GROUP and contains no
   * '_' has a key different from that of every USER or GROUP entry.
   */
  lemma UnknownKeyDiffers(e: AssignmentEntry, known: AssignmentEntry)
    requires !IsKnownType(e.principalType) && '_' !in e.principalType
    requires IsKnownType(known.principalType)
    ensures PrincipalKey(e) != PrincipalKey(known)
  {
    var t, u := e.principalType, known.principalType;
    var ke, kk := PrincipalKey(e), PrincipalKey(known);
    if |t| < |u| {
      assert ke[|t|] == '_' != u[|t|] == kk[|t|];
    } else if |t| > |u| {
      assert ke[|u|] == t[|u|] != '_' == kk[|u|];
    } else {
      assert ke[..|t|] == t != u == kk[..|u|];
    }
  }

  /** Such an entry never finds its key among those the USER and GROUP entries cached. */
  lemma {:induction false} UnknownKeyNeverCached(e: AssignmentEntry, vs: seq<Visit>)
    requires !IsKnownType(e.principalType) && '_' !in e.principalType
    ensures PrincipalKey(e) !in KnownKeys(vs)
  {
    if vs != [] {
      UnknownKeyNeverCached(e, vs[..|vs| - 1]);
      var v := vs[|vs| - 1];
      if IsKnownType(v.entry.principalType) {
        UnknownKeyDiffers(e, v.entry);
      }
    }
  }

  lemma KnownKeysSnoc(vs: seq<Visit>, v: Visit)
    ensures KnownKeys(vs + [v]) == KnownKeys(vs) + (if IsKnownType(v.entry.principalType) then {PrincipalKey(v.entry)} else {})
  {
    assert (vs + [v])[..|vs|] == vs;
  }

  // ---------------------------------------------------------------------
  // Traversal order and the report

  /** The visits of one permission set's assignment list, in list order. */
  function EntryVisits(account: Account, arn: string, entries: seq<AssignmentEntry>): seq<Visit>
  {
    seq(|entries|, i requires 0 <= i < |entries| => Visit(account, arn, entries[i]))
  }

  /** The visits after i + 1 entries, and all of them, in terms of those after i. */
  lemma EntryStep(account: Account, arn: string, entries: seq<AssignmentEntry>, i: nat, start: seq<Visit>)
    requires i < |entries|
    ensures start + EntryVisits(account, arn, entries[..i + 1]) ==
            (start + EntryVisits(account, arn, entries[..i])) + [Visit(account, arn, entries[i])]
    ensures start + EntryVisits(account, arn, entries) ==
            (start + EntryVisits(account, arn, entries[..i + 1])) + EntryVisits(account, arn, entries[i + 1..])
  {
    assert EntryVisits(account, arn, entries[..i + 1]) == EntryVisits(account, arn, entries[..i]) + [Visit(account, arn, entries[i])];
    assert start + (EntryVisits(account, arn, entries[..i]) + [Visit(account, arn, entries[i])]) == (start + EntryVisits(account, arn, entries[..i])) + [Visit(account, arn, entries[i])];
    assert EntryVisits(account, arn, entries) == EntryVisits(account, arn, entries[..i + 1]) + EntryVisits(account, arn, entries[i + 1..]);
    assert start + (EntryVisits(account, arn, entries[..i + 1]) + EntryVisits(account, arn, entries[i + 1..])) == (start + EntryVisits(account, arn, entries[..i + 1])) + EntryVisits(account, arn, entries[i + 1..]);
  }

  /** The visits of one account's permission sets, in the order they are listed. */
  ghost function PsVisits(c: IdentityCenter, account: Account, arns: seq<string>): seq<Visit>
  {
    if arns == [] then []
    else
      var arn := arns[|arns| - 1];
      PsVisits(c, account, arns[..|arns| - 1]) + EntryVisits(account, arn, Listing(c, account.id, arn))
  }

  ghost function AccountVisits(c: IdentityCenter, account: Account): seq<Visit>
  {
    PsVisits(c, account, c.provisionedTo(account.id))
  }

  /** Every visit of the run: accounts outermost, then permission sets, then pages, then entries. */
  ghost function Visits(c: IdentityCenter, accounts: seq<Account>): seq<Visit>
  {
    if accounts == [] then []
    else Visits(c, accounts[..|accounts| - 1]) + AccountVisits(c, accounts[|accounts| - 1])
  }

  /** The row appended for a visit. */
  function RecordOf(c: IdentityCenter, v: Visit): Record
  {
    Record(v.account.name, c.permissionSetName(v.permissionSetArn), NameOfKey(c, PrincipalKey(v.entry)), v.entry.principalType)
  }

  function Records(c: IdentityCenter, vs: seq<Visit>): seq<Record>
  {
    seq(|vs|, i requires 0 <= i < |vs| => RecordOf(c, vs[i]))
  }

  /** The i-th visit finds its key in `principals`, given the visits up to and including it. */
  predicate Resolvable(vs: seq<Visit>, i: int)
    requires 0 <= i < |vs|
  {
    PrincipalKey(vs[i].entry) in KnownKeys(vs[..i + 1])
  }

  predicate AllResolvable(vs: seq<Visit>)
  {
    forall i :: 0 <= i < |vs| ==> Resolvable(vs, i)
  }

  /** A resolvable visit appended to resolvable visits keeps them all resolvable. */
  lemma ResolvableSnoc(vs: seq<Visit>, v: Visit)
    requires AllResolvable(vs)
    requires PrincipalKey(v.entry) in KnownKeys(vs + [v])
    ensures AllResolvable(vs + [v])
  {
    assert (vs + [v])[..|vs| + 1] == vs + [v];
    forall i | 0 <= i < |vs| ensures Resolvable(vs + [v], i) {
      assert (vs + [v])[..i + 1] == vs[..i + 1];
      assert Resolvable(vs, i);
    }
  }

  /** The first visit at or after `k` whose key is missing, or |vs|. */
  function FirstUnresolvable(vs: seq<Visit>, k: nat): (r: nat)
    requires k <= |vs|
    ensures k <= r <= |vs|
    ensures forall i :: k <= i < r ==> Resolvable(vs, i)
    ensures r < |vs| ==> !Resolvable(vs, r)
    decreases |vs| - k
  {
    if k == |vs| then k
    else if !Resolvable(vs, k) then k
    else FirstUnresolvable(vs, k + 1)
  }

  /**
   * The outcome of the whole script: the report in traversal order, or the
   * KeyError raised at line 100 by the first visit whose key is not cached.
   * It describes only runs whose listings all end (`PaginationEnds`): for a
   * listing that never ends the script hangs, while `Listing` is `[]` and the
   * lemmas below about `Audit` speak of a run the script never finishes.
   */
  ghost function Audit(c: IdentityCenter, accounts: seq<Account>): Result<seq<Record>, AuditError>
  {
    var vs := Visits(c, accounts);
    var i := FirstUnresolvable(vs, 0);
    if i == |vs| then Success(Records(c, vs)) else Failure(KeyError(PrincipalKey(vs[i].entry)))
  }

  /** The set of permission-set ARNs provisioned to the accounts. */
  ghost function ProvisionedArns(c: IdentityCenter, accounts: seq<Account>): set<string>
  {
    if accounts == [] then {}
    else ProvisionedArns(c, accounts[..|accounts| - 1]) + Elems(c.provisionedTo(accounts[|accounts| - 1].id))
  }

  /** Every listing the run walks comes to an end. */
  ghost predicate PaginationEnds(c: IdentityCenter, accounts: seq<Account>)
  {
    forall i, arn :: 0 <= i < |accounts| && arn in c.provisionedTo(accounts[i].id) ==> ListingEnds(c, accounts[i].id, arn)
  }

  // ---------------------------------------------------------------------
  // Properties of the report

  /** The number of assignments listed for the given permission sets of one account. */
  ghost function PsTotal(c: IdentityCenter, accountId: string, arns: seq<string>): nat
  {
    if arns == [] then 0
    else PsTotal(c, accountId, arns[..|arns| - 1]) + |Listing(c, accountId, arns[|arns| - 1])|
  }

  /** The number of assignments listed over all accounts and their provisioned permission sets. */
  ghost function AssignmentTotal(c: IdentityCenter, accounts: seq<Account>): nat
  {
    if accounts == [] then 0
    else
      var a := accounts[|accounts| - 1];
      AssignmentTotal(c, accounts[..|accounts| - 1]) + PsTotal(c, a.id, c.provisionedTo(a.id))
  }

  lemma {:induction false} PsVisitsCount(c: IdentityCenter, account: Account, arns: seq<string>)
    ensures |PsVisits(c, account, arns)| == PsTotal(c, account.id, arns)
  {
    if arns != [] {
      PsVisitsCount(c, account, arns[..|arns| - 1]);
    }
  }

  /** One visit per listed assignment: the report has Σ over accounts and permission sets of the list lengths. */
  lemma {:induction false} VisitsCount(c: IdentityCenter, accounts: seq<Account>)
    ensures |Visits(c, accounts)| == AssignmentTotal(c, accounts)
  {
    if accounts != [] {
      VisitsCount(c, accounts[..|accounts| - 1]);
      PsVisitsCount(c, accounts[|accounts| - 1], c.provisionedTo(accounts[|accounts| - 1].id));
    }
  }

  lemma PsVisitsSnoc(c: IdentityCenter, account: Account, arns: seq<string>, j: nat)
    requires j < |arns|
    ensures PsVisits(c, account, arns[..j + 1]) ==
            PsVisits(c, account, arns[..j]) + EntryVisits(account, arns[j], Listing(c, account.id, arns[j]))
  {
    assert arns[..j + 1][..j] == arns[..j];
  }

  /** The visits after j + 1 permission sets, and all of them, in terms of those after j. */
  lemma AccountStep(c: IdentityCenter, account: Account, arns: seq<string>, j: nat, start: seq<Visit>)
    requires j < |arns|
    ensures var ev := EntryVisits(account, arns[j], Listing(c, account.id, arns[j]));
      && start + PsVisits(c, account, arns[..j + 1]) == (start + PsVisits(c, account, arns[..j])) + ev
      && start + PsVisits(c, account, arns) == (start + PsVisits(c, account, arns[..j + 1])) + PsVisits(c, account, arns[j + 1..])
  {
    PsVisitsSnoc(c, account, arns, j);
    AppendAssoc(start, PsVisits(c, account, arns[..j]), EntryVisits(account, arns[j], Listing(c, account.id, arns[j])));
    PsVisitsSplit(c, account, arns, j + 1);
    AppendAssoc(start, PsVisits(c, account, arns[..j + 1]), PsVisits(c, account, arns[j + 1..]));
  }

  /** The visits of an account's permission sets split at any permission set. */
  lemma PsVisitsSplit(c: IdentityCenter, account: Account, arns: seq<string>, j: nat)
    requires j <= |arns|
    ensures PsVisits(c, account, arns) == PsVisits(c, account, arns[..j]) + PsVisits(c, account, arns[j..])
  {
    assert arns[..j] + arns[j..] == arns;
    PsVisitsAppend(c, account, arns[..j], arns[j..]);
  }

  /** Permission sets listed one after the other contribute their visits one after the other. */
  lemma {:induction false} PsVisitsAppend(c: IdentityCenter, account: Account, s: seq<string>, t: seq<string>)
    ensures PsVisits(c, account, s + t) == PsVisits(c, account, s) + PsVisits(c, account, t)
  {
    if t == [] {
      assert s + t == s;
    } else {
      var t', arn := t[..|t| - 1], t[|t| - 1];
      var last := EntryVisits(account, arn, Listing(c, account.id, arn));
      assert (s + t)[..|s + t| - 1] == s + t' && (s + t)[|s + t| - 1] == arn;
      PsVisitsAppend(c, account, s, t');
      assert PsVisits(c, account, s) + (PsVisits(c, account, t') + last) == (PsVisits(c, account, s) + PsVisits(c, account, t')) + last;
    }
  }

  /**
   * Accounts listed one after the other contribute their visits one after the
   * other: the report of a longer account list extends that of a shorter one,
   * nothing is re-ordered or merged.
   */
  lemma {:induction false} VisitsAppend(c: IdentityCenter, s: seq<Account>, t: seq<Account>)
    ensures Visits(c, s + t) == Visits(c, s) + Visits(c, t)
  {
    if t == [] {
      assert s + t == s;
    } else {
      var t', a := t[..|t| - 1], t[|t| - 1];
      assert (s + t)[..|s + t| - 1] == s + t' && (s + t)[|s + t| - 1] == a;
      VisitsAppend(c, s, t');
      assert Visits(c, s) + (Visits(c, t') + AccountVisits(c, a)) == (Visits(c, s) + Visits(c, t')) + AccountVisits(c, a);
    }
  }

  lemma VisitsSnoc(c: IdentityCenter, accounts: seq<Account>, i: nat)
    requires i < |accounts|
    ensures Visits(c, accounts[..i + 1]) == Visits(c, accounts[..i]) + AccountVisits(c, accounts[i])
  {
    assert accounts[..i + 1][..i] == accounts[..i];
  }

  lemma ProvisionedArnsSnoc(c: IdentityCenter, accounts: seq<Account>, i: nat)
    requires i < |accounts|
    ensures ProvisionedArns(c, accounts[..i + 1]) == ProvisionedArns(c, accounts[..i]) + Elems(c.provisionedTo(accounts[i].id))
  {
    assert accounts[..i + 1][..i] == accounts[..i];
  }

  lemma VisitsSplit(c: IdentityCenter, accounts: seq<Account>, i: nat)
    requires i <= |accounts|
    ensures Visits(c, accounts) == Visits(c, accounts[..i]) + Visits(c, accounts[i..])
  {
    assert accounts[..i] + accounts[i..] == accounts;
    VisitsAppend(c, accounts[..i], accounts[i..]);
  }

  /** When the run completes, it reports one record per listed assignment. */
  lemma AuditRecordCount(c: IdentityCenter, accounts: seq<Account>)
    requires Audit(c, accounts).Success?
    ensures |Audit(c, accounts).value| == AssignmentTotal(c, accounts)
  {
    VisitsCount(c, accounts);
  }

  /**
   * When the run completes, record i is the i-th visit's account name,
   * permission-set name, cached principal name and principal type; for a
   * USER that name is the user's `Username`, for a GROUP its `DisplayName`.
   */
  lemma AuditRecordShape(c: IdentityCenter, accounts: seq<Account>)
    requires Audit(c, accounts).Success?
    ensures var rs, vs := Audit(c, accounts).value, Visits(c, accounts);
      && |rs| == |vs|
      && forall i :: 0 <= i < |vs| ==>
           && rs[i].accountName == vs[i].account.name
           && rs[i].permissionSet == c.permissionSetName(vs[i].permissionSetArn)
           && rs[i].principalType == vs[i].entry.principalType
           && (vs[i].entry.principalType == User ==> rs[i].principal == c.userName(vs[i].entry.principalId))
           && (vs[i].entry.principalType == Group ==> rs[i].principal == c.groupDisplayName(vs[i].entry.principalId))
  {
    var vs := Visits(c, accounts);
    forall i | 0 <= i < |vs| && IsKnownType(vs[i].entry.principalType) {
      NameOfKnownKey(c, vs[i].entry);
    }
  }

  /** If every assignment is a USER or a GROUP, the run completes. */
  lemma KnownTypesComplete(c: IdentityCenter, accounts: seq<Account>)
    requires forall v :: v in Visits(c, accounts) ==> IsKnownType(v.entry.principalType)
    ensures Audit(c, accounts) == Success(Records(c, Visits(c, accounts)))
  {
    var vs := Visits(c, accounts);
    assert AllResolvable(vs) by {
      forall i | 0 <= i < |vs| ensures Resolvable(vs, i) {
        assert vs[i] in vs;
        KnownKeysSnoc(vs[..i], vs[i]);
        assert vs[..i] + [vs[i]] == vs[..i + 1];
      }
    }
    ResolvedAudit(c, accounts);
  }

  /**
   * An assignment whose principal type is neither USER nor GROUP (and has no
   * '_' in it) aborts the run with a KeyError.
   */
  lemma UnknownTypeAborts(c: IdentityCenter, accounts: seq<Account>, i: nat)
    requires i < |Visits(c, accounts)|
    requires var t := Visits(c, accounts)[i].entry.principalType; !IsKnownType(t) && '_' !in t
    ensures Audit(c, accounts).Failure?
  {
    var vs := Visits(c, accounts);
    UnknownKeyNeverCached(vs[i].entry, vs[..i + 1]);
    assert !Resolvable(vs, i);
  }

  /**
   * If the run has resolved every visit in `done` and the next visit `v`
   * is not resolvable, the whole run fails with `v`'s key.
   */
  lemma StuckAudit(c: IdentityCenter, accounts: seq<Account>, done: seq<Visit>, v: Visit)
    requires done + [v] <= Visits(c, accounts)
    requires AllResolvable(done) && !Resolvable(done + [v], |done|)
    ensures Audit(c, accounts) == Failure(KeyError(PrincipalKey(v.entry)))
    ensures done <= Visits(c, accounts)
  {
    var vs := Visits(c, accounts);
    var n := |done|;
    assert vs[..n + 1] == done + [v];
    forall j | 0 <= j < n ensures Resolvable(vs, j) {
      assert vs[..j + 1] == done[..j + 1];
      assert Resolvable(done, j);
    }
    assert !Resolvable(vs, n) by {
      assert (done + [v])[..n + 1] == vs[..n + 1];
    }
    var r := FirstUnresolvable(vs, 0);
    assert r == n;
  }

  /** If every visit of the run is resolvable, the run completes with their records. */
  lemma ResolvedAudit(c: IdentityCenter, accounts: seq<Account>)
    requires AllResolvable(Visits(c, accounts))
    ensures Audit(c, accounts) == Success(Records(c, Visits(c, accounts)))
  {
  }
}
