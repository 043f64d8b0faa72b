# cloud-tools, modelled in Dafny

The Python scripts of cloud-tools are small AWS administration utilities.
Each script sends a few requests to AWS and applies a little logic to the
answers. This project models that logic, with every AWS call replaced by
given responses or an oracle function.

- **AccountAuditUsers** (`sso_model.dfy`, `sso_audit.dfy`): the IAM Identity Center assignment audit.
  - It loops over the accounts, then over the permission sets provisioned to each account.
  - For each permission set it walks a `NextToken`-paginated listing of assignments.
  - It memoises permission-set names in `ps_sets` and principal names in `principals`.
  - It appends one record per assignment.
  - `SsoModel` is the specification: the traversal order (`Visits`), the report or the `KeyError` (`Audit`), and the pagination (`TokenAt`, `PageAt`, `LastPage`).
  - `SsoAudit.AuditRun` is the script as it runs. It is a class whose fields are the two dictionaries, the report and the account counter. Ghost logs record the `describe_permission_set`, `list_account_assignments` and directory-lookup calls.
  - `AuditRun.Run` is proved to return exactly `Audit`. Its invariant keeps the memo discipline: each ARN is described once, and each principal key is looked up once.
- **Get-AWS-Resources-ByName / ByIP** (`resources_by_name.dfy`, `resources_by_ip.dfy`): the AWS Config query strings, the first-match tag lookup with its `'Not found'` default, and the first-match account-name search over paginated `list_accounts` results. The two scripts carry identical copies of the two helpers; they are modelled once, in `ResourcesByName`.
- **PullAWSAccountTags / PushAWSAccountTags** (`pull_tags.dfy`, `push_tags.dfy`):
  - Pull flattens the account pages and writes one `[Id, Name, tag key, tag value]` row per account.
  - Push projects the sheet to (id, value) pairs and issues a `tag_resource` update only where the current `cmdb:env` value differs.
  - A lemma relates the two: pushing an unedited pull, with the tags unchanged in between.
- **Get-LastModified-S3** (`last_modified_s3.dfy`):
  - The pages' `Contents` are accumulated.
  - The in-place sort is an insertion sort on an `array`, proved equal to a stable newest-first sort.
  - The result is the first `num_files` objects, as (formatted time, key) pairs.
- **aws-ip-ranges** (`ip_ranges.dfy`): the default region and the prefix filter loop.

Shared pieces:
- `organizations.dfy`: accounts, tags, and the first-match searches.
- `seqs.dfy`: flattening, duplicate-freedom and element sets.
- `wrappers.dfy`: `Option` and `Result`.

The remote services are modelled as follows:
- Identity Center is an `IdentityCenter` value whose fields are functions.
- `list_tags_for_resource` is a function `string -> Option<seq<Tag>>`, where `None` stands for a call that raised.
- Paginated listings are given sequences of pages.

## Model

| member | source | states |
|---|---|---|
| SsoModel.Falsy | python/AccountAuditUsers.py:57-74 | definition: a `NextToken` is falsy when it is absent or "", the two cases in which `if next_token` fails and `if not next_token` breaks |
| SsoModel.TokenAt | python/AccountAuditUsers.py:54-72 | definition: request k carries no token when k is 0, otherwise the `NextToken` of the response to request k - 1 |
| SsoModel.PageAt | python/AccountAuditUsers.py:56-72 | definition: the response to request k, which carries `TokenAt` k |
| SsoModel.RequestsUpTo | python/AccountAuditUsers.py:56-69 | definition: the first n `list_account_assignments` calls for one (account, permission set), request k carrying `TokenAt` k |
| SsoModel.Requests | python/AccountAuditUsers.py:56-75 | definition: the calls the loop makes for one (account, permission set), requests 0 to `LastPage` |
| SsoModel.Listing | python/AccountAuditUsers.py:53-75 | definition: `assignment_list` after the loop, the `AccountAssignments` of pages 0 to `LastPage` concatenated in page order |
| SsoModel.IsKnownType | python/AccountAuditUsers.py:84-90 | definition: the principal type is "USER" or "GROUP", the two types the script looks up |
| SsoModel.PrincipalKey | python/AccountAuditUsers.py:79-81 | definition: the principal type, "_", then the principal id |
| SsoModel.KnownKeys | python/AccountAuditUsers.py:83-95 | definition: the keys of `principals` after the given visits: one per visit whose type is USER or GROUP |
| SsoModel.NameOfKey | python/AccountAuditUsers.py:84-95 | definition: a "USER_" key names the user's `Username`, a "GROUP_" key the group's `DisplayName` |
| SsoModel.EntryVisits | python/AccountAuditUsers.py:78 | definition: one visit per entry of an assignment list, in list order |
| SsoModel.PsVisits | python/AccountAuditUsers.py:43-78 | definition: the visits of an account's permission sets, set after set in the order listed, each contributing the visits of its listing |
| SsoModel.AccountVisits | python/AccountAuditUsers.py:38-43 | definition: the visits of one account, over the permission sets provisioned to it in the order listed |
| SsoModel.Visits | python/AccountAuditUsers.py:32-78 | definition: every visit of the run, account after account in `account_list` order |
| SsoModel.RecordOf | python/AccountAuditUsers.py:97-102 | definition: the record of a visit holds the account `Name`, the permission set's `Name`, the cached principal name and the principal type |
| SsoModel.Records | python/AccountAuditUsers.py:97-102 | definition: the `assignments` list, one `RecordOf` per visit in visit order |
| SsoModel.Resolvable | python/AccountAuditUsers.py:100 | definition: visit i finds its key in `principals` as built by the visits up to and including it, so line 100 does not raise |
| SsoModel.Audit | python/AccountAuditUsers.py:32-102 | definition: the records of all visits in visit order, or `KeyError` with the key of the first visit whose key is not in `principals` when line 100 reads it |
| SsoModel.FirstFinalPage | python/AccountAuditUsers.py:74-75 | the page returned has a falsy `NextToken` and every page before it, from the start point on, has a truthy one |
| SsoModel.LastPage | python/AccountAuditUsers.py:56-75 | when the token chain ends, the loop stops at the first page whose `NextToken` is absent or "" |
| SsoModel.ListingStopsAt | python/AccountAuditUsers.py:53-75 | a listing whose first falsy token is on page n has n as its last page; `assignment_list` is the concatenation of the `AccountAssignments` of pages 0..n in page order, and the requests are the first n + 1 |
| SsoModel.RequestsFollowTokens | python/AccountAuditUsers.py:56-75 | the first request carries no token; each later one carries the previous response's `NextToken`, which was truthy; the last response's token is falsy |
| SsoModel.KnownKeysMembers | python/AccountAuditUsers.py:81-95 | a key is in `principals` exactly when some visited USER or GROUP entry has that key |
| SsoModel.NameOfKnownKey | python/AccountAuditUsers.py:84-95 | the name cached under a USER key is the user's `Username`, under a GROUP key the group's `DisplayName` |
| SsoModel.KnownKeysInjective | python/AccountAuditUsers.py:81 | for USER and GROUP entries, `type + "_" + id` keys are equal exactly when the entries are equal |
| SsoModel.UnknownKeyDiffers | python/AccountAuditUsers.py:81-95 | an entry of another type (without '_') never shares a key with a USER or GROUP entry |
| SsoModel.UnknownKeyNeverCached | python/AccountAuditUsers.py:83-95 | such an entry's key is never among the keys cached by any sequence of visits |
| SsoModel.KnownKeysSnoc | python/AccountAuditUsers.py:83-95 | a visit adds its key to `principals` exactly when its type is USER or GROUP |
| SsoModel.EntryStep | python/AccountAuditUsers.py:78 | the visits of one assignment list grow one entry at a time, in list order |
| SsoModel.PsVisitsSnoc | python/AccountAuditUsers.py:43 | one more permission set appends exactly its listing's visits |
| SsoModel.AccountStep | python/AccountAuditUsers.py:43 | the visits of an account split at any permission set into those before, that set's, and those after |
| SsoModel.PsVisitsSplit | python/AccountAuditUsers.py:43 | the visits of an account split at any permission set into those of the sets before it and those of the sets from it on |
| SsoModel.PsVisitsAppend | python/AccountAuditUsers.py:43 | permission sets listed one after another contribute their visits one after another |
| SsoModel.VisitsAppend | python/AccountAuditUsers.py:32 | the report of a longer account list extends that of a shorter one; nothing is re-ordered or merged |
| SsoModel.VisitsSnoc | python/AccountAuditUsers.py:32 | one more account appends exactly that account's visits |
| SsoModel.VisitsSplit | python/AccountAuditUsers.py:32 | the visits split at any account into those before and those from it on |
| SsoModel.ProvisionedArnsSnoc | python/AccountAuditUsers.py:38-45 | one more account adds exactly the ARNs provisioned to it |
| SsoModel.ResolvableSnoc | python/AccountAuditUsers.py:83-100 | a visit whose key is cached, appended to visits that all found theirs, keeps them all resolvable |
| SsoModel.FirstUnresolvable | python/AccountAuditUsers.py:100 | the position returned is the first visit whose key is missing from `principals`, or the end |
| SsoModel.PsVisitsCount | python/AccountAuditUsers.py:43-102 | one visit per assignment listed for the account's permission sets |
| SsoModel.VisitsCount | python/AccountAuditUsers.py:32-102 | the number of visits is the sum, over accounts and provisioned permission sets, of the assignment-list lengths |
| SsoModel.AuditRecordCount | python/AccountAuditUsers.py:32-102 | a completed run has exactly that many records |
| SsoModel.AuditRecordShape | python/AccountAuditUsers.py:97-102 | record i holds the i-th visit's account `Name`, the permission set's `Name`, the principal's `Username` (USER) or `DisplayName` (GROUP), and the principal type |
| SsoModel.KnownTypesComplete | python/AccountAuditUsers.py:83-102 | when every assignment is a USER or GROUP, the run completes with the records of all visits |
| SsoModel.UnknownTypeAborts | python/AccountAuditUsers.py:83-100 | an assignment of any other type (without '_') makes the run fail with a KeyError |
| SsoModel.StuckAudit | python/AccountAuditUsers.py:97-102 | when the visits so far all resolved and the next one does not, the run fails with that visit's key |
| SsoModel.ResolvedAudit | python/AccountAuditUsers.py:97-102 | when every visit resolves, the run succeeds with their records in visit order |
| SsoAudit.StoppedAt | python/AccountAuditUsers.py:100 | definition: the run stopped at visit v: the visits done and then v are a prefix of those planned, v's key is not cached, and the error is `KeyError` naming that key |
| SsoAudit.StoppedWithin | python/AccountAuditUsers.py:32-102 | a stop inside a prefix of the planned visits is a stop inside the whole plan |
| SsoAudit.DescribeStep | python/AccountAuditUsers.py:45-50 | describing an uncached ARN keeps `ps_sets` equal to the names of exactly the ARNs described, with no ARN described twice |
| SsoAudit.LookupStep | python/AccountAuditUsers.py:83-95 | looking up an uncached USER or GROUP key keeps `principals` equal to the names of exactly the keys looked up, with no key looked up twice |
| SsoAudit.RecordStep | python/AccountAuditUsers.py:97-102 | appending the record of a visit whose key is cached keeps the report equal to the records of the visits |
| SsoAudit.StopStep | python/AccountAuditUsers.py:100 | a visit whose key is not cached is where the run stops, with a KeyError naming that key |
| SsoAudit.AuditRun.constructor | python/AccountAuditUsers.py:23-29 | empty `ps_sets`, `principals` and `assignments`; `account_count` is 1; no calls made |
| SsoAudit.AuditRun.DescribeOnce | python/AccountAuditUsers.py:45-50 | `ps_sets[arn]` is the permission set's name afterwards; a describe call is made only when the ARN was not cached |
| SsoAudit.AuditRun.ListAssignments | python/AccountAuditUsers.py:53-75 | returns the concatenation of every page's assignments and issues exactly the token-following requests |
| SsoAudit.AuditRun.CachePrincipal | python/AccountAuditUsers.py:83-95 | the key enters `principals` exactly when the type is USER or GROUP, looked up at most once |
| SsoAudit.AuditRun.RecordAssignment | python/AccountAuditUsers.py:78-102 | appends this visit's record, or stops with a KeyError when its key is not cached |
| SsoAudit.AuditRun.RecordAssignments | python/AccountAuditUsers.py:78-102 | the visits done are the planned ones for the list, or a prefix of them ending at the first KeyError |
| SsoAudit.AuditRun.ProcessPermissionSet | python/AccountAuditUsers.py:43-102 | the ARN is in `ps_sets` before any record uses it; one permission set's visits are all done, or the run stops inside them |
| SsoAudit.AuditRun.ProcessPermissionSets | python/AccountAuditUsers.py:43-102 | the permission sets are processed in list order, and `ps_sets` gains exactly their ARNs |
| SsoAudit.AuditRun.ProcessAccount | python/AccountAuditUsers.py:32-102 | `account_count` grows by one and the account's visits are done, or the run stops inside them |
| SsoAudit.AuditRun.ProcessAccountAt | python/AccountAuditUsers.py:32-102 | one turn of the account loop keeps the progress stated against the whole account list |
| SsoAudit.AuditRun.ProcessAccounts | python/AccountAuditUsers.py:32-102 | all planned visits, with `account_count` = accounts + 1 and `ps_sets` holding exactly the provisioned ARNs, or a stop at the first uncached key |
| SsoAudit.AuditRun.Run | python/AccountAuditUsers.py:32-102 | the outcome is `Audit`; the visits done are a prefix of the planned ones; on success `assignments` is the report |
| SsoAudit.AuditAssignments | python/AccountAuditUsers.py:20-102 | the outcome is `Audit`; no ARN is described twice and no principal key looked up twice; a completed run described exactly the provisioned ARNs and looked up exactly the USER and GROUP keys assigned |
| Organizations.FindTag | python/Get-AWS-Resources-ByName.py:38-42 | the value of the first tag with the key, and None exactly when no tag has it |
| Organizations.FirstTagIndex | python/Get-AWS-Resources-ByName.py:39-41 | any tag with the key has a first such tag at or before it |
| Organizations.FindAccountName | python/Get-AWS-Resources-ByName.py:30-36 | the name of the first account with the id, and None exactly when no account has it |
| Organizations.FindAccountNameAppend | python/Get-AWS-Resources-ByName.py:32-35 | searching two lists in sequence finds the first list's match if it has one, else the second's |
| ResourcesByName.AsciiUpper | python/Get-AWS-Resources-ByName.py:15 | same length; each character upper-cased |
| ResourcesByName.AsciiUpperIsUpper | python/Get-AWS-Resources-ByName.py:15 | no lower-case letter remains, other characters are unchanged, and upper-casing twice equals once |
| ResourcesByName.Truthy | python/Get-AWS-Resources-ByName.py:18-20 | definition: an optional argument is truthy when it is present and not "", as `if account_id` and `if region` test it |
| ResourcesByName.SelectByTag | python/Get-AWS-Resources-ByName.py:17 | definition: the fixed `SELECT` text with the resource type, the tag key and the upper-cased tag value spliced into their quotes |
| ResourcesByName.AccountClause | python/Get-AWS-Resources-ByName.py:19 | definition: " AND accountId = '<id>'" |
| ResourcesByName.RegionClause | python/Get-AWS-Resources-ByName.py:21 | definition: " AND awsRegion = '<region>'" |
| ResourcesByName.ResourceByTagQuery | python/Get-AWS-Resources-ByName.py:14-21 | the base template with the upper-cased value, then the account clause exactly when the id is truthy, then the region clause exactly when the region is truthy |
| ResourcesByName.ExtractTagValue | python/Get-AWS-Resources-ByName.py:38-42 | the first matching tag's value, or 'Not found' when no tag has the key |
| ResourcesByName.GetAccountName | python/Get-AWS-Resources-ByName.py:30-36 | the page-by-page search finds the same first match as a search over the flattened listing |
| ResourcesByIp.PrivateIpQuery | python/Get-AWS-Resources-ByIP.py:15 | the fixed template, the address verbatim, then the closing quote |
| ResourcesByIp.ExtractTagValueIgnoresLaterTags | python/Get-AWS-Resources-ByIP.py:33-37 | once a tag with the key is present, tags appended after it never change the answer |
| ResourcesByIp.ExtractTagValueOfNoTags | python/Get-AWS-Resources-ByIP.py:38 | an empty tag list gives 'Not found' |
| ResourcesByIp.GetAccountNameNoneIff | python/Get-AWS-Resources-ByIP.py:24-31 | None exactly when no account on any page has the id |
| PushTags.FirstBadRow | python/PushAWSAccountTags.py:19-20 | the first row at or after the start without four fields, or the end |
| PushTags.ParseSheet | python/PushAWSAccountTags.py:13-22 | the header is dropped and every other row gives (field 0, field 3) in order; an empty file or a row without four fields raises, at the first such row |
| PushTags.ReadSheet | python/PushAWSAccountTags.py:13-22 | the append loop returns exactly `ParseSheet` |
| PushTags.CurrentEnvTag | python/PushAWSAccountTags.py:24-36 | the first `cmdb:env` tag's value; None when there is none or the call raised |
| PushTags.Differs | python/PushAWSAccountTags.py:55-57 | definition: the account's current `cmdb:env` value, None when it has none, is not the sheet's value |
| PushTags.OwedUpdate | python/PushAWSAccountTags.py:57-58 | definition: one `tag_resource` call with the sheet's value when the entry differs, none otherwise |
| PushTags.UpdatesFor | python/PushAWSAccountTags.py:54-58 | definition: the calls owed by the entries, in sheet order |
| PushTags.DifferingEntryUpdated | python/PushAWSAccountTags.py:54-58 | every entry whose value differs gets its update |
| PushTags.UpdateFromDifferingEntry | python/PushAWSAccountTags.py:54-58 | every update issued comes from a sheet entry whose value differs |
| PushTags.UpdatesCount | python/PushAWSAccountTags.py:54-58 | exactly one update per differing entry: there are as many updates as sheet positions whose value differs, and so no more than there are entries |
| PushTags.UntaggedAlwaysUpdated | python/PushAWSAccountTags.py:57 | an account without the tag (or whose read failed) is always updated |
| PushTags.PushUpdates | python/PushAWSAccountTags.py:54-59 | the updates issued are those owed, in sheet order |
| PushTags.PushTagsMain | python/PushAWSAccountTags.py:48-59 | an unreadable sheet raises before any update; otherwise the updates owed for its entries |
| PushTags.PullThenPush | python/PushAWSAccountTags.py:13-58 | pushing an unedited pull issues no update for tagged accounts and sets "" on exactly the untagged ones, in account order |
| PushTags.PulledEntries | python/PullAWSAccountTags.py:45-50 | entries that carry each account's pulled value owe exactly the resets of the untagged accounts |
| PullTags.AllAccountsInOrganization | python/PullAWSAccountTags.py:10-18 | the accounts of every page, in page order |
| PullTags.EnvTagForAccount | python/PullAWSAccountTags.py:20-32 | ('cmdb:env', first such value) when the tag is present, ('', '') when it is absent or the call raised |
| PullTags.AccountRow | python/PullAWSAccountTags.py:46-50 | four fields: id, name, then the tag pair of the account |
| PullTags.Sheet | python/PullAWSAccountTags.py:43-50 | the header, then one row per account in account order |
| PullTags.SheetSnoc | python/PullAWSAccountTags.py:45-50 | one more account appends exactly its row |
| PullTags.PullRows | python/PullAWSAccountTags.py:34-50 | the rows written are the sheet of the flattened account pages |
| LastModifiedS3.PageObjects | python/Get-LastModified-S3.py:20-21 | definition: a page's `Contents`, or nothing when the page has no `Contents` |
| LastModifiedS3.ListedObjects | python/Get-LastModified-S3.py:19-21 | definition: the `Contents` of every page in page order, with nothing from a page that has no `Contents` |
| LastModifiedS3.Insert | python/Get-LastModified-S3.py:24 | definition: into a newest-first sequence, an object is placed after the objects at least as recent and before the strictly older ones |
| LastModifiedS3.SortNewestFirst | python/Get-LastModified-S3.py:24 | definition: the objects inserted one at a time, in list order |
| LastModifiedS3.CollectObjects | python/Get-LastModified-S3.py:19-21 | the contents of every page in page order; pages without 'Contents' add nothing |
| LastModifiedS3.InsertPermutes | python/Get-LastModified-S3.py:24 | insertion adds exactly the inserted object |
| LastModifiedS3.NewestFirstSnoc | python/Get-LastModified-S3.py:24 | appending an object no newer than any other keeps the order newest first |
| LastModifiedS3.InsertSorted | python/Get-LastModified-S3.py:24 | insertion keeps a newest-first sequence newest first |
| LastModifiedS3.InsertStable | python/Get-LastModified-S3.py:24 | the inserted object goes after every object of the same time already there |
| LastModifiedS3.SortNewestFirstCorrect | python/Get-LastModified-S3.py:24 | the sort is newest first, a permutation of its input, and stable for equal times |
| LastModifiedS3.InsertInPlace | python/Get-LastModified-S3.py:24 | the array prefix becomes the insertion of the next object; the rest is untouched |
| LastModifiedS3.SwapStep | python/Get-LastModified-S3.py:24 | one swap moves the object being inserted one place left |
| LastModifiedS3.InsertedLayout | python/Get-LastModified-S3.py:24 | where the shifting stops, the first i + 1 slots hold the insertion |
| LastModifiedS3.InsertAt | python/Get-LastModified-S3.py:24 | the insertion point is after the last object at least as recent, before the strictly older ones |
| LastModifiedS3.SortInPlace | python/Get-LastModified-S3.py:24 | the array ends up holding the stable newest-first sort of its old contents |
| LastModifiedS3.ListRecentlyModifiedFiles | python/Get-LastModified-S3.py:4-38 | None exactly when a call raised; otherwise min(num_files, total) pairs, pair i being (format(time), key) of the i-th newest object, with the bucket name and account id |
| IpRanges.RegionPrefixes | python/aws-ip-ranges.py:19-21 | definition: the `ip_prefix` of every entry whose `region` is the chosen one, in list order |
| IpRanges.RegionPrefixesExactly | python/aws-ip-ranges.py:19-21 | every collected prefix comes from an entry of the region, every such entry contributes, one prefix per entry |
| IpRanges.MatchingIpPrefixes | python/aws-ip-ranges.py:13-29 | the region is the input or "us-west-2" when empty; the prefixes are the region's in list order; the count is their number |

## Left out

- Every AWS call: Organizations, SSO Admin, the identity store, Config, S3 and STS. Responses are given values or oracle functions. Retries, errors other than the ones the scripts catch, and the cost of calls are not modelled.
- The directory lookups in python/AccountAuditUsers.py:85-95 refer to an identity store id the script never defines, and use a client that has no `get_user` or `get_group`. The model keeps only "look up the name of a (type, id)": `IdentityCenter.userName` and `IdentityCenter.groupDisplayName`.
- `list_accounts` in python/AccountAuditUsers.py:20 is a single unpaginated call. The account list is a given sequence.
- SsoAudit.AuditRun.ListAssignments, SsoAudit.AuditRun.ProcessAccounts, SsoAudit.AuditRun.Run and SsoAudit.AuditAssignments: the script loops forever if `NextToken` never becomes falsy. The model requires that the token chain ends (`ListingEnds`, and `PaginationEnds` for the whole run), so it does not describe a non-terminating run. `PaginationEnds` asks this of every listing of every account, so it also excludes a run that raises `KeyError` before it reaches a listing that never ends. The script does terminate on such a run, and the model does not describe it. `SsoModel.Audit` and the lemmas about it (`AuditRecordCount`, `AuditRecordShape`, `KnownTypesComplete`, `UnknownTypeAborts`) are meaningful only for runs whose listings all end: for a listing that never ends, `Listing` is `[]`, whereas the script hangs.
- SsoModel.UnknownTypeAborts: requires that the type contains no '_'. A type such as "USER_a" with id "b" has the same key as a USER with id "a_b". The script then finds that key and does not raise. The model's `Audit` follows the script in this case too.
- Retries, back-off, concurrent workers, single-flight caching, stale-reference sentinels, a NotFound policy and progress reporting on abort: the scripts have none of them.
- CSV quoting and escaping (the `csv` module): rows are already-split field sequences. Writing the CSV file is the returned rows or records.
- Console output, progress lines, the `datetime.now` timing, `argparse`, `sys.argv`, `input()`, `requests.get`, `json.loads` and `json.dumps`.
- `strftime`: times are integers and the formatter is the parameter `format`.
- The caller's unpacking crash when the S3 function returns None (python/Get-LastModified-S3.py:44).
- LastModifiedS3.ListRecentlyModifiedFiles: `num_files` is a `nat`; negative slicing is not modelled.
- LastModifiedS3.SortInPlace: Python's `list.sort` is Timsort. The model uses a stable insertion sort and proves the properties the script relies on: newest first, a permutation, and stable for equal times. Together these determine the result.
- ResourcesByName.AsciiUpper: `str.upper()` is modelled for ASCII letters only; Unicode case mapping is not modelled.
- PushTags.PushUpdates: `listTags` is one snapshot of the tags. The writes made by `tag_resource` are not fed back into later reads. If a sheet lists an account twice, the script's second read sees the first write, but the model's does not.
- The identical copies of `extract_tag_value` and `get_account_name` in the two Config scripts are modelled once, in `ResourcesByName`.
