/**
 * AccountAuditUsers as the script runs it: a loop over the accounts, their
 * provisioned permission sets, the pages of each assignment listing and the
 * assignments, filling the `ps_sets` and `principals` memo dictionaries and
 * the `assignments` report in place. `AuditRun.Run` is proved to produce
 * exactly `SsoModel.Audit`, and the memo discipline (each permission set
 * described once, each principal looked up once) is kept as an invariant.
 */
module SsoAudit {
  import opened Wrappers
  import opened Seqs
  import opened Organizations
  import opened SsoModel

  /**
   * The run stopped at visit `v`: the visits done so far followed by `v` are
   * a prefix of the planned visits, `v`'s key was not cached, and the error
   * names that key.
   */
  ghost predicate StoppedAt(planned: seq<Visit>, done: seq<Visit>, v: Visit, error: AuditError)
  {
    done + [v] <= planned && !Resolvable(done + [v], |done|) && error == KeyError(PrincipalKey(v.entry))
  }

  lemma StoppedWithin(planned: seq<Visit>, rest: seq<Visit>, done: seq<Visit>, v: Visit, error: AuditError)
    requires StoppedAt(planned, done, v, error)
    ensures StoppedAt(planned + rest, done, v, error)
  {
    PrefixOfExtension(done + [v], planned, rest);
  }

  /** `ps_sets` caches each permission set's name and holds exactly the ARNs described, each described once. */
  ghost predicate PermissionSetCache(c: IdentityCenter, psSets: map<string, string>, describeCalls: seq<string>)
  {
    && (forall arn :: arn in psSets ==> psSets[arn] == c.permissionSetName(arn))
    && psSets.Keys == Elems(describeCalls)
    && NoDuplicates(describeCalls)
  }

  /** `principals` caches each principal's name and holds exactly the keys looked up, each looked up once. */
  ghost predicate PrincipalCache(c: IdentityCenter, principals: map<string, string>, lookupCalls: seq<AssignmentEntry>)
  {
    && (forall key :: key in principals ==> principals[key] == NameOfKey(c, key))
    && principals.Keys == Elems(LookupKeys(lookupCalls))
    && NoDuplicates(LookupKeys(lookupCalls))
  }

  /**
   * `principals` holds exactly the keys of the USER and GROUP entries
   * visited, and `assignments` is the record of every visit, each of which
   * found its key.
   */
  ghost predicate Report(c: IdentityCenter, principals: map<string, string>, assignments: seq<Record>, visited: seq<Visit>)
  {
    && principals.Keys == KnownKeys(visited)
    && assignments == Records(c, visited)
    && AllResolvable(visited)
  }

  /** Describing an uncached permission set keeps the permission-set cache. */
  lemma DescribeStep(c: IdentityCenter, psSets: map<string, string>, describeCalls: seq<string>, arn: string)
    requires PermissionSetCache(c, psSets, describeCalls) && arn !in psSets
    ensures PermissionSetCache(c, psSets[arn := c.permissionSetName(arn)], describeCalls + [arn])
  {
    AppendFresh(describeCalls, arn);
  }

  /** Looking up an uncached USER or GROUP principal keeps the principal cache. */
  lemma LookupStep(c: IdentityCenter, principals: map<string, string>, lookupCalls: seq<AssignmentEntry>, e: AssignmentEntry, name: string)
    requires PrincipalCache(c, principals, lookupCalls) && PrincipalKey(e) !in principals
    requires IsKnownType(e.principalType)
    requires name == if e.principalType == User then c.userName(e.principalId) else c.groupDisplayName(e.principalId)
    ensures PrincipalCache(c, principals[PrincipalKey(e) := name], lookupCalls + [e])
  {
    assert LookupKeys(lookupCalls + [e]) == LookupKeys(lookupCalls) + [PrincipalKey(e)];
    AppendFresh(LookupKeys(lookupCalls), PrincipalKey(e));
    NameOfKnownKey(c, e);
  }

  /** Recording a visit whose key is cached extends the report by its record. */
  lemma RecordStep(c: IdentityCenter, principals: map<string, string>, assignments: seq<Record>, visited: seq<Visit>, v: Visit)
    requires AllResolvable(visited) && assignments == Records(c, visited)
    requires principals.Keys == KnownKeys(visited + [v]) && PrincipalKey(v.entry) in principals
    ensures Report(c, principals, assignments + [RecordOf(c, v)], visited + [v])
  {
    ResolvableSnoc(visited, v);
  }

  /** Recording a visit whose key is not cached is impossible: the run stops there. */
  lemma StopStep(visited: seq<Visit>, v: Visit, keys: set<string>)
    requires keys == KnownKeys(visited + [v]) && PrincipalKey(v.entry) !in keys
    ensures StoppedAt(visited + [v], visited, v, KeyError(PrincipalKey(v.entry)))
  {
    assert (visited + [v])[..|visited| + 1] == visited + [v];
  }

  /**
   * The script's module-level state. The sso-admin and identity-store
   * clients answer from `center`; the ghost logs record the calls that the
   * memo dictionaries are meant to save, and the assignment-listing requests.
   */
  class AuditRun {
    const center: IdentityCenter
    var psSets: map<string, string>
    var principals: map<string, string>
    var assignments: seq<Record>
    var accountCount: int
    /** The assignment entries recorded so far, with their account and permission set. */
    ghost var visited: seq<Visit>
    /** The ARNs passed to `describe_permission_set`, in call order. */
    ghost var describeCalls: seq<string>
    /** The `list_account_assignments` requests, in call order. */
    ghost var listCalls: seq<ListRequest>
    /** The `get_user` and `get_group` lookups, in call order. */
    ghost var lookupCalls: seq<AssignmentEntry>

    /** The memo dictionaries and the report, as the three predicates above state them. */
    ghost predicate Valid()
      reads this
    {
      && PermissionSetCache(center, psSets, describeCalls)
      && PrincipalCache(center, principals, lookupCalls)
      && Report(center, principals, assignments, visited)
    }

    /** Lines 23-29: empty dictionaries, an empty report, `account_count = 1`. */
    constructor (center: IdentityCenter)
      ensures Valid() && this.center == center
      ensures psSets == map[] && principals == map[] && assignments == [] && visited == [] && accountCount == 1
      ensures describeCalls == [] && listCalls == [] && lookupCalls == []
    {
      this.center := center;
      psSets, principals, assignments, accountCount := map[], map[], [], 1;
      visited, describeCalls, listCalls, lookupCalls := [], [], [], [];
    }

    /** Lines 45-50: describe a permission set unless its name is cached. */
    method DescribeOnce(arn: string)
      requires Valid()
      modifies this`psSets, this`describeCalls
      ensures Valid()
      ensures psSets == old(psSets)[arn := center.permissionSetName(arn)]
      ensures describeCalls == old(describeCalls) + (if arn in old(psSets) then [] else [arn])
    {
      if arn !in psSets {
        DescribeStep(center, psSets, describeCalls, arn);
        var name := center.permissionSetName(arn);
        describeCalls := describeCalls + [arn];
        psSets := psSets[arn := name];
      }
    }

    /**
     * Lines 53-75: request pages, passing the previous `NextToken` while it is
     * truthy, and concatenate their assignments.
     */
    method ListAssignments(accountId: string, arn: string) returns (assignmentList: seq<AssignmentEntry>)
      requires ListingEnds(center, accountId, arn)
      modifies this`listCalls
      ensures assignmentList == Listing(center, accountId, arn)
      ensures listCalls == old(listCalls) + Requests(center, accountId, arn)
    {
      ghost var last := LastPage(center, accountId, arn);
      ghost var k: nat := 0;
      assignmentList := [];
      var nextToken: Option<string> := None;
      while true
        invariant k <= last
        invariant nextToken == TokenAt(center, accountId, arn, k)
        invariant k > 0 ==> !Falsy(nextToken)
        invariant assignmentList == Concat(PagesUpTo(center, accountId, arn, k))
        invariant listCalls == old(listCalls) + RequestsUpTo(center, accountId, arn, k)
        decreases last - k
      {
        var request := if !Falsy(nextToken) then nextToken else None;
        var response := center.assignmentsPage(accountId, arn, request);
        listCalls := listCalls + [ListRequest(accountId, arn, request)];
        PagesUpToSnoc(center, accountId, arn, k);
        RequestsUpToSnoc(center, accountId, arn, k);
        ConcatSnoc(PagesUpTo(center, accountId, arn, k), response.assignments);
        assignmentList := assignmentList + response.assignments;
        nextToken := response.nextToken;
        if Falsy(nextToken) {
          ListingStopsAt(center, accountId, arn, k);
          break;
        }
        k := k + 1;
      }
    }

    /**
     * Lines 83-95: look a USER or GROUP principal up unless its key is cached;
     * any other type is left uncached.
     */
    method CachePrincipal(entry: AssignmentEntry)
      requires PrincipalCache(center, principals, lookupCalls)
      modifies this`principals, this`lookupCalls
      ensures PrincipalCache(center, principals, lookupCalls)
      ensures var key := PrincipalKey(entry);
        principals.Keys == old(principals.Keys) + (if IsKnownType(entry.principalType) then {key} else {})
      ensures lookupCalls == old(lookupCalls)
        + (if PrincipalKey(entry) !in old(principals) && IsKnownType(entry.principalType) then [entry] else [])
    {
      var key := entry.principalType + "_" + entry.principalId;
      if key !in principals {
        if entry.principalType == User || entry.principalType == Group {
          var name := if entry.principalType == User then center.userName(entry.principalId)
                      else center.groupDisplayName(entry.principalId);
          LookupStep(center, principals, lookupCalls, entry, name);
          lookupCalls := lookupCalls + [entry];
          principals := principals[key := name];
        }
      }
    }

    /**
     * Lines 78-102 for one assignment: cache the principal, then append the
     * record, or raise KeyError when its key is still missing.
     */
    method RecordAssignment(account: Account, arn: string, entry: AssignmentEntry) returns (error: Option<AuditError>)
      requires Valid() && arn in psSets
      modifies this`principals, this`assignments, this`visited, this`lookupCalls
      ensures Valid()
      ensures error.None? ==> visited == old(visited) + [Visit(account, arn, entry)]
      ensures error.Some? ==> visited == old(visited) && StoppedAt(visited + [Visit(account, arn, entry)], visited, Visit(account, arn, entry), error.value)
    {
      var v := Visit(account, arn, entry);
      var key := entry.principalType + "_" + entry.principalId;
      KnownKeysSnoc(visited, v);
      CachePrincipal(entry);
      if key !in principals {
        StopStep(visited, v, principals.Keys);
        return Some(KeyError(key));
      }
      RecordStep(center, principals, assignments, visited, v);
      assignments := assignments + [Record(account.name, psSets[arn], principals[key], entry.principalType)];
      visited := visited + [v];
      error := None;
    }

    /** Lines 78-102: the assignments of one permission set, in list order. */
    method RecordAssignments(account: Account, arn: string, list: seq<AssignmentEntry>) returns (error: Option<AuditError>, ghost stuck: Visit)
      requires Valid() && arn in psSets
      modifies this`principals, this`assignments, this`visited, this`lookupCalls
      ensures Valid()
      ensures var planned := old(visited) + EntryVisits(account, arn, list);
        && (error.None? ==> visited == planned)
        && (error.Some? ==> StoppedAt(planned, visited, stuck, error.value))
    {
      ghost var start := visited;
      stuck := Visit(account, arn, AssignmentEntry("", ""));
      var i := 0;
      while i < |list|
        invariant 0 <= i <= |list|
        invariant Valid()
        invariant visited == start + EntryVisits(account, arn, list[..i])
      {
        EntryStep(account, arn, list, i, start);
        error := RecordAssignment(account, arn, list[i]);
        if error.Some? {
          stuck := Visit(account, arn, list[i]);
          StoppedWithin(start + EntryVisits(account, arn, list[..i + 1]), EntryVisits(account, arn, list[i + 1..]), visited, stuck, error.value);
          return;
        }
        i := i + 1;
      }
      assert list[..i] == list;
      error := None;
    }

    /** Lines 43-102 for one permission set of one account. */
    method ProcessPermissionSet(account: Account, arn: string) returns (error: Option<AuditError>, ghost stuck: Visit)
      requires Valid() && ListingEnds(center, account.id, arn)
      modifies this`psSets, this`principals, this`assignments, this`visited
      modifies this`describeCalls, this`listCalls, this`lookupCalls
      ensures Valid()
      ensures psSets.Keys == old(psSets.Keys) + {arn}
      ensures listCalls == old(listCalls) + Requests(center, account.id, arn)
      ensures var planned := old(visited) + EntryVisits(account, arn, Listing(center, account.id, arn));
        && (error.None? ==> visited == planned)
        && (error.Some? ==> StoppedAt(planned, visited, stuck, error.value))
    {
      DescribeOnce(arn);
      var list := ListAssignments(account.id, arn);
      error, stuck := RecordAssignments(account, arn, list);
    }

    /** Lines 43-102: the permission sets of one account, in list order. */
    method ProcessPermissionSets(account: Account, arns: seq<string>) returns (error: Option<AuditError>, ghost stuck: Visit)
      requires Valid()
      requires forall arn :: arn in arns ==> ListingEnds(center, account.id, arn)
      modifies this`psSets, this`principals, this`assignments, this`visited
      modifies this`describeCalls, this`listCalls, this`lookupCalls
      ensures Valid()
      ensures var planned := old(visited) + PsVisits(center, account, arns);
        && (error.None? ==> visited == planned)
        && (error.Some? ==> StoppedAt(planned, visited, stuck, error.value))
      ensures error.None? ==> psSets.Keys == old(psSets.Keys) + Elems(arns)
    {
      ghost var start, keys0 := visited, psSets.Keys;
      stuck := Visit(account, "", AssignmentEntry("", ""));
      var j := 0;
      while j < |arns|
        invariant 0 <= j <= |arns|
        invariant Valid()
        invariant visited == start + PsVisits(center, account, arns[..j])
        invariant psSets.Keys == keys0 + Elems(arns[..j])
      {
        AccountStep(center, account, arns, j, start);
        ElemsSnoc(arns, j);
        error, stuck := ProcessPermissionSet(account, arns[j]);
        if error.Some? {
          StoppedWithin(start + PsVisits(center, account, arns[..j + 1]), PsVisits(center, account, arns[j + 1..]), visited, stuck, error.value);
          return;
        }
        j := j + 1;
      }
      assert arns[..j] == arns;
      error := None;
    }

    /** Lines 32-102 for one account: count it, then its provisioned permission sets. */
    method ProcessAccount(account: Account) returns (error: Option<AuditError>, ghost stuck: Visit)
      requires Valid()
      requires forall arn :: arn in center.provisionedTo(account.id) ==> ListingEnds(center, account.id, arn)
      modifies this
      ensures Valid()
      ensures accountCount == old(accountCount) + 1
      ensures var planned := old(visited) + AccountVisits(center, account);
        && (error.None? ==> visited == planned)
        && (error.Some? ==> StoppedAt(planned, visited, stuck, error.value))
      ensures error.None? ==> psSets.Keys == old(psSets.Keys) + Elems(center.provisionedTo(account.id))
    {
      accountCount := accountCount + 1;
      var arns := center.provisionedTo(account.id);
      error, stuck := ProcessPermissionSets(account, arns);
    }

    /** One turn of the account loop: account `i` of the list, with the progress stated against the whole list. */
    method ProcessAccountAt(accountList: seq<Account>, i: nat, ghost keys0: set<string>) returns (error: Option<AuditError>, ghost stuck: Visit)
      requires Valid() && i < |accountList| && PaginationEnds(center, accountList)
      requires visited == Visits(center, accountList[..i])
      requires psSets.Keys == keys0 + ProvisionedArns(center, accountList[..i])
      modifies this
      ensures Valid()
      ensures accountCount == old(accountCount) + 1
      ensures error.None? ==> visited == Visits(center, accountList[..i + 1])
      ensures error.None? ==> psSets.Keys == keys0 + ProvisionedArns(center, accountList[..i + 1])
      ensures error.Some? ==> StoppedAt(Visits(center, accountList), visited, stuck, error.value)
    {
      VisitsSnoc(center, accountList, i);
      ProvisionedArnsSnoc(center, accountList, i);
      VisitsSplit(center, accountList, i + 1);
      error, stuck := ProcessAccount(accountList[i]);
      if error.Some? {
        StoppedWithin(Visits(center, accountList[..i + 1]), Visits(center, accountList[i + 1..]), visited, stuck, error.value);
      }
    }

    /**
     * Lines 32-102: the loop over the accounts. It visits exactly the planned
     * visits, or stops at the first one whose key is not cached.
     */
    method ProcessAccounts(accountList: seq<Account>) returns (error: Option<AuditError>, ghost stuck: Visit)
      requires Valid() && visited == [] && accountCount == 1
      requires PaginationEnds(center, accountList)
      modifies this
      ensures Valid()
      ensures error.None? ==> visited == Visits(center, accountList) && accountCount == |accountList| + 1
      ensures error.None? ==> psSets.Keys == old(psSets.Keys) + ProvisionedArns(center, accountList)
      ensures error.Some? ==> StoppedAt(Visits(center, accountList), visited, stuck, error.value)
    {
      ghost var keys0 := psSets.Keys;
      stuck := Visit(Account("", ""), "", AssignmentEntry("", ""));
      var i := 0;
      while i < |accountList|
        invariant 0 <= i <= |accountList|
        invariant Valid()
        invariant accountCount == i + 1
        invariant visited == Visits(center, accountList[..i])
        invariant psSets.Keys == keys0 + ProvisionedArns(center, accountList[..i])
      {
        error, stuck := ProcessAccountAt(accountList, i, keys0);
        if error.Some? {
          return;
        }
        i := i + 1;
      }
      assert accountList[..i] == accountList;
      error := None;
    }

    /**
     * Lines 32-102, with the KeyError as an outcome: `Audit`, on success the
     * report, on the first uncached principal key the error; either way the
     * visits done are a prefix of the planned ones.
     */
    method Run(accountList: seq<Account>) returns (outcome: Result<seq<Record>, AuditError>)
      requires Valid() && visited == [] && accountCount == 1
      requires PaginationEnds(center, accountList)
      modifies this
      ensures Valid()
      ensures outcome == Audit(center, accountList)
      ensures visited <= Visits(center, accountList)
      ensures outcome.Success? ==> visited == Visits(center, accountList)
      ensures outcome.Success? ==> assignments == outcome.value && accountCount == |accountList| + 1
      ensures outcome.Success? ==> psSets.Keys == old(psSets.Keys) + ProvisionedArns(center, accountList)
    {
      var error;
      ghost var stuck;
      error, stuck := ProcessAccounts(accountList);
      if error.Some? {
        StuckAudit(center, accountList, visited, stuck);
        return Failure(error.value);
      }
      ResolvedAudit(center, accountList);
      outcome := Success(assignments);
    }
  }

  /**
   * The script from line 20 on, for a given account list: the outcome is
   * `Audit`; no permission set is described twice and no principal looked up
   * twice; a completed run described exactly the provisioned permission sets
   * and looked up exactly the USER and GROUP principals assigned.
   */
  method AuditAssignments(center: IdentityCenter, accountList: seq<Account>)
    returns (outcome: Result<seq<Record>, AuditError>, ghost describeCalls: seq<string>, ghost lookupCalls: seq<AssignmentEntry>)
    requires PaginationEnds(center, accountList)
    ensures outcome == Audit(center, accountList)
    ensures NoDuplicates(describeCalls) && NoDuplicates(LookupKeys(lookupCalls))
    ensures outcome.Success? ==> Elems(describeCalls) == ProvisionedArns(center, accountList)
    ensures outcome.Success? ==> Elems(LookupKeys(lookupCalls)) == KnownKeys(Visits(center, accountList))
  {
    var run := new AuditRun(center);
    outcome := run.Run(accountList);
    describeCalls, lookupCalls := run.describeCalls, run.lookupCalls;
  }
}
