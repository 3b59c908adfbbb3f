# Account migration engine — a Dafny model

This project models the step logic of a migration engine for cloud billing accounts.
The engine moves every account of an acquired company out of its old organization and
into the target organization. Each account goes through these steps:

1. leave the old organization;
2. join the target organization;
3. get the baseline roles;
4. move to the default organizational unit (OU);
5. pass a billing-access probe;
6. pass an organization-level permission scan;
7. optionally wait for a billing support case to be resolved.

An external workflow runs every step. It decides what to do next from the signal the
step returns: `Completed`, `Wait`, `ConcurrencyWait`, `LinkedAccountFlow`,
`StandaloneAccountFlow`, or the stray `"JoinCH"` of the leave step.

## How the model is built

- **The account table** is a map from `(CompanyName, AccountId)` to a `Record`. It lives
  in the `Backend` class in `store.dfy`, next to two logs: the notices published on the
  notification topics and the AWS requests made. `update_item` is `Backend.Put`. Its
  item is `Stamp`: `LastUpdatedOn` is set, empty text columns become null and the tag
  document is converted as a whole.
- **An AWS answer** is an input of type `Aws<T>`: `Ok(value)`, `ClientError(code, message)`
  or `OtherError(msg)`. There is one such input per call a step makes. An exception that
  ends a step is an `Exc` (ClientError, any other exception, IndexError, KeyError, …).
- **Each step is written twice.** First as a function of the table and the answers.
  It returns an `Outcome`: the step's result, the records written in order, the notices
  published and the requests made. The function follows the Python step's `try` block,
  its `except` clauses and its `finally`. Where a step has a defect listed under
  "## Findings", the step function follows the corrected behaviour. The behaviour as
  written is a separate member, named in the Findings table and under "## Left out".
  Second, each step is an imperative method on a `Backend` that follows the handler's
  statements. The method's `ensures` ties the new table, notice log and request log to
  that function. The properties the engine promises are lemmas about the function.
- **The configuration read from the environment** (`MASTER_ACCOUNT_ID`, the validation
  switches, `CREATE_SUPPORT_CASE`, `_DEFAULT_OU_ID`, the cc addresses, the shared
  bucket) is a `Config` value passed to every step.
- **The clock** is an input: an integer timestamp for `LastUpdatedOn`, a day number for
  the billing probe, and a natural number for `time.monotonic_ns()`.
- **The order a query returns its items in** is unspecified. Every step that loops over
  a query result takes the order as a parameter, with `Enumerates(ks, keys)` as its
  precondition. Its methods produce such an order with `Store.Enumerate`.
- **The two endless loops** are modelled with a finite list of answers. These are the
  role-assumption poll of `create_roles` and the ETag retry of the tag step. Running out
  of answers is the `Timeout` exception: the Lambda is stopped.

## Model

| member | source | states |
|---|---|---|
| `Constant.SignalNamesDistinct` | src/constant.py:115-120 | Distinct workflow signals have distinct string values. |
| `Constant.RoleConfig` | src/constant.py:128-155 | The role configuration has exactly the two roles, and each trusts the master account. |
| `Constant.RolePoliciesAreArns` | src/constant.py:128-155 | Both configured policies are managed-policy ARNs, not inline documents. |
| `Constant.RoleNames` | src/util.py:171 | `sorted(ROLE_CONFIG.keys())`: two names, strictly sorted in Python's string order, equal to the configured keys. |
| `Constant.AnchoredMatchIff` | src/constant.py:74 | The hand-written matcher accepts exactly the strings `pre + mid + c + tail`: `pre` non-empty and whitespace-free, `c` any character except a newline, plus an optional final newline. |
| `Constant.EmailExamples` | src/constant.py:74 | The e-mail pattern accepts `team+acme@AWS.com` and `a@b@AWSxcom`. It rejects an empty prefix, whitespace in the prefix and lower-case `@aws`. |
| `Constant.NameHasTwoSpaces` | src/constant.py:73 | A name that matches holds exactly two whitespace characters. |
| `Constant.NameAccepted` | src/constant.py:73 | Two letters, seven digits, a space, a word, a space and a word is accepted. |
| `Constant.NameWithTabAndNewlineAccepted` | src/constant.py:73 | Any whitespace character separates the parts, and a final newline is ignored. |
| `Constant.AdjacentSpacesRejected` | src/constant.py:73 | Two whitespace characters in a row after the digits never match. |
| `Constant.NameWithDoubleSpaceRejected` | src/constant.py:73 | A name with a double space is rejected. |
| `Constant.SupportCaseSubject` | src/constant.py:171-173 | The support-case subject contains the account id. |
| `Strings.Find` | src/leave_organization.py:62 | `str.find`: -1 exactly when the text is absent; otherwise the first index where it occurs. |
| `Strings.ZFillPadsLeft` | src/utils/data.py:75-76 | `zfill` on an unsigned string only adds leading zeros: the input is a suffix of the result. |
| `Strings.ZFillShape` | src/utils/dynamodb.py:34 | `zfill(12)` yields exactly 12 characters for a shorter id and keeps a longer id's length. |
| `Strings.ZFillIdempotent` | src/load_data.py:40 | Zero-filling twice equals zero-filling once. |
| `MeLogger.LogError` | src/me_logger.py:26-54 | The returned text is `msg` when non-empty, else `str(error)`. One notice is published exactly when `notify` holds. Its code and message are set exactly for a ClientError. It carries the given account, company, type and Slack handle. |
| `MeLogger.LoggedTextNonEmpty` | src/me_logger.py:38 | A non-empty message, a ClientError or no exception at all always gives a non-empty `Error` text. |
| `Store.Stamp` | src/utils/dynamodb.py:40-63 | `update_item` stamps `LastUpdatedOn` and turns each empty text column into null. The tag document becomes its converted copy, nested `""` included. The key, status, type, admin role and flag columns are kept. |
| `Store.ApplyWrites` | src/utils/dynamodb.py:40-42 | After a series of `update_item` calls, the table holds the old keys plus the written ones. An unwritten key keeps its item. The last write's key holds its stamped item. |
| `Store.WriteTwiceOnce` | src/utils/dynamodb.py:40-42 | Writing the same record twice in a row equals writing it once. |
| `Store.WritesKeepWellKeyed` | src/utils/dynamodb.py:40-42 | Writes keep every record stored under its own key. |
| `Store.Backend.Put` | src/utils/dynamodb.py:40-42 | `update_item` replaces the item under the record's key with its stamped copy and leaves every other item. |
| `Store.Backend.Publish` | src/me_logger.py:51-52 | Publishing appends the notices to the topic log, in order. |
| `Store.Backend.Send` | src/util.py:165-215 | Each AWS call is appended to the request log. |
| `Store.AccountById` | src/util.py:83-93 | `get_account_by_id` finds a record exactly when its key is in the table, and then returns that record. |
| `Store.Select` | src/util.py:69-80 | A query holds exactly the company's items that pass its filter. |
| `Store.EnumerationSize` | src/get_accounts.py:34-46 | An order of a query's items without repeats has as many entries as the result set. |
| `Store.Enumerate` | src/get_accounts.py:34-46 | A query's result set is listed in some order, each item once. |
| `Util.GetMasterAccount` | src/util.py:40-66 | With several Master items it raises and publishes one Account Integrity Error notice. Otherwise it publishes nothing and returns no record (no Master) or one of the company's Master records (exactly one). |
| `Util.GetMasterAccountUnique` | src/util.py:40-66 | With exactly one Master item, the lookup returns that item. |
| `Util.SeveralMastersNotify` | src/util.py:54-64 | The integrity notice is an AIE for the company, tied to no account, with the fixed message. |
| `Util.QueryMaster` | src/util.py:40-66 | Against the table, the lookup answers as `GetMasterAccount`, publishes only its notice and writes nothing. |
| `Util.FirstParentOfType` | src/util.py:155-162 | `None` exactly when no parent has the type; otherwise the id of the first parent that has it. |
| `Util.GetParentId` | src/util.py:159-162 | The early-return loop returns the first parent of the requested type. |
| `Util.PollSucceedsIff` | src/util.py:202-211 | The role-assumption poll succeeds exactly when some answer is a success and every earlier answer a ClientError. |
| `Util.PollAssume` | src/util.py:202-211 | Every poll assumes the same role. At most one call per answer, and a timeout has read every answer. |
| `Util.RoleStepRequests` | src/util.py:173-213 | One role's handling starts with `get_role`. An existing role makes no other call. Every call concerns that role. |
| `Util.CreatedRolesSubsequence` | src/util.py:171-215 | The returned roles are a subsequence of the sorted names. Each of them got `NoSuchEntity` from `get_role`. |
| `Util.CreatedGrowth` | src/util.py:174-215 | Each role adds at most itself to the created list, and only after `NoSuchEntity`. |
| `Util.MissingRolesCreated` | src/util.py:174-215 | When the loop gets past a role that answered `NoSuchEntity`, that role was created with its configured trust, given its configured policy (`put_role_policy` or `attach_role_policy` with the ARN) and reported as created. |
| `Util.ExistingRoleUntouched` | src/util.py:175-176 | A role whose `get_role` succeeds is neither created nor reported. |
| `Util.NoInlinePolicies` | src/util.py:188-196 | When every policy is an ARN, `put_role_policy` is never called. |
| `Util.ConfiguredRolesNoInlinePolicies` | src/util.py:188-196 | With the configured roles, the attach branch is always taken. |
| `Util.GetRoleErrorReraised` | src/util.py:177-213 | A `get_role` ClientError other than `NoSuchEntity` ends the loop with that error. |
| `Util.FailureSticks` | src/util.py:173-213 | After a role raised, the remaining names are not visited. |
| `Util.WaitUntilAssumable` | src/util.py:202-211 | The poll loop makes one assumption per answer read and stops as `PollAssume` says. |
| `Util.EnsureRole` | src/util.py:174-213 | The body of the loop for one role makes exactly the requests of `RoleStep` and reports its outcome. |
| `Util.CreateRolesLoop` | src/util.py:173-213 | The loop's result and requests are those of `RolesAfter` over all names. |
| `Util.RoleTurn` | src/util.py:173-213 | One loop iteration advances the role state by one name and logs exactly the requests it adds. |
| `Util.CreateRoles` | src/util.py:165-215 | `create_roles` visits the sorted configured names and returns the roles it created, or the exception that ended it. |
| `LeaveOrganization.AlreadyLeftCompletes` | src/leave_organization.py:41-43 | A record at INVITED or above (LEFT and SUSPENDED included) gives Completed, is written back unchanged and makes no call. |
| `LeaveOrganization.EmailRejectionStopsRemoval` | src/leave_organization.py:69-76 | A failed e-mail check, when enabled, sets `Error` and gives Wait. The account is not removed and its status is unchanged. |
| `LeaveOrganization.NameRejectionStillRemoves` | src/leave_organization.py:78-114 | A failed name check sets `Error` but the account is still removed. The step ends Completed with INVITED or LEFT. |
| `LeaveOrganization.JoinCheckIffAlreadyJoined` | src/leave_organization.py:62-65 | The step returns "JoinCH" exactly when the target organization's ARN prefix is in the account ARN, and it then stores JOINED. |
| `LeaveOrganization.AlreadyJoinedIff` | src/leave_organization.py:62 | The corrected join test holds exactly when the ARN contains the target organization's prefix. |
| `LeaveOrganization.PrefixedArnMissedAsWritten` | src/leave_organization.py:62 | As written, an ARN that starts with the prefix is not taken as joined, although it contains the prefix. |
| `LeaveOrganization.UnsetFlagEnablesValidationAsWritten` | src/leave_organization.py:69-78 | As written, an unset validation parameter turns validation on; a set parameter behaves as intended. |
| `LeaveOrganization.BusyMasterWaits` | src/leave_organization.py:93-95 | A Master whose organization lists more than one account gives Wait. No deletion is made and the status is unchanged. |
| `LeaveOrganization.StandaloneOrganizationCheck` | src/leave_organization.py:100-135 | Standalone: a successful `list_accounts` raises (notified, re-raised). Any ClientError of that call is swallowed and the step completes. |
| `LeaveOrganization.CompletedMeansOut` | src/leave_organization.py:112-114 | A Completed step on an account still in its organization leaves it INVITED, or LEFT when it does not migrate. |
| `LeaveOrganization.ClientErrorClassification` | src/leave_organization.py:118-130 | `AccountNotFoundException` gives INVITED and Completed, whatever `Migrate` says. Any other ClientError records its text and gives Wait, with the status unchanged. |
| `LeaveOrganization.PersistsOnlyTheAccount` | src/leave_organization.py:137-139 | A loaded record is written back exactly once, under its key. A missing one is never written. |
| `LeaveOrganization.BodyKeepsKey` | src/leave_organization.py:44-114 | The `try` block never changes the account's key, type or `Migrate`. |
| `LeaveOrganization.ChecksKeepIdentity` | src/leave_organization.py:58-86 | The linked-account checks never change the account's key, type or `Migrate`. |
| `LeaveOrganization.LeaveOrg` | src/leave_organization.py:34-141 | The handler changes the table, notices and requests exactly as `LeaveOrgSpec` says. |
| `JoinOrganization.GetInvitationFirst` | src/join_organization.py:92-97 | `get_invitation` returns the id of the first OPEN handshake with an ACCOUNT party of that id, and None exactly when none exists. |
| `JoinOrganization.PartyMatchInvites` | src/join_organization.py:93-96 | The scan over a handshake's parties finds an ACCOUNT party with the id exactly when the handshake invites it. |
| `JoinOrganization.AlreadyJoinedCompletes` | src/join_organization.py:40-42 | JOINED or above gives Completed, with no call and the record unchanged. |
| `JoinOrganization.InviteOnlyWithoutOpenHandshake` | src/join_organization.py:45-54 | An invitation is sent exactly when no open handshake with a non-empty id was found. |
| `JoinOrganization.AcceptsTheRecordedHandshake` | src/join_organization.py:45-61 | The handshake accepted is the one found or the one just created, and it is stored in `HandshakeId`. |
| `JoinOrganization.AcceptJoins` | src/join_organization.py:59-67 | Completed exactly when every call succeeds, and then the status is JOINED. Otherwise the status is unchanged. |
| `JoinOrganization.ClientErrorClassification` | src/join_organization.py:69-80 | `ConcurrentModificationException` gives ConcurrencyWait and writes no error. Any other ClientError records "code: message" and gives Wait. The status is unchanged. |
| `JoinOrganization.PersistsOnEveryPath` | src/join_organization.py:85-87 | A loaded record is written exactly once on every path, ConcurrencyWait included. |
| `JoinOrganization.BodyKeepsIdentity` | src/join_organization.py:43-67 | The `try` block never changes the account's key, type or `Migrate`. |
| `JoinOrganization.Join` | src/join_organization.py:34-89 | The handler changes the backend exactly as `JoinSpec` says. |
| `CreateMasterRoles.NoMasterStandalone` | src/create_master_roles.py:43-72 | No Master gives StandaloneAccountFlow with no account id, no role created and nothing written. |
| `CreateMasterRoles.OneMasterLinkedFlow` | src/create_master_roles.py:37-72 | With one Master the roles are created in it through its admin role. The result is LinkedAccountFlow with its id, and the record is written back. |
| `CreateMasterRoles.ClientErrorRecordedOnMaster` | src/create_master_roles.py:53-66 | A ClientError is recorded in the master's `Error`, notified, persisted and re-raised. |
| `CreateMasterRoles.OtherErrorReraised` | src/create_master_roles.py:60-63 | Any other exception is notified under the event's account and re-raised. An event without `AccountId` turns it into a KeyError. |
| `CreateMasterRoles.SeveralMastersFailInHandler` | src/create_master_roles.py:43-63 | With several Masters, only the integrity notice is published, and the handler fails on the missing record. |
| `CreateMasterRoles.FlowDataShape` | src/create_master_roles.py:68-72 | The returned `Data` names the company. It carries an account id exactly in the linked flow, and its process name is prefixed by company and id. |
| `CreateMasterRoles.SetUpMasterRoles` | src/create_master_roles.py:34-72 | The handler changes the backend as `MasterRolesAfter` says for the master lookup's answer. |
| `CreateRolesStep.MissingRecordUnlogged` | src/create_roles.py:41 | A missing record raises IndexError outside the `try`: no notice, no call, no write. |
| `CreateRolesStep.LinkedThroughMaster` | src/create_roles.py:45-49 | A Linked account is reached through the master's admin role, then its own role from that session. |
| `CreateRolesStep.OthersDirect` | src/create_roles.py:50-55 | Master and Standalone accounts are reached directly, followed only by the role loop. |
| `CreateRolesStep.LinkedWithoutMasterRaises` | src/create_roles.py:46-85 | A Linked account without a Master raises IndexError, notified and re-raised. |
| `CreateRolesStep.SignalFollowsType` | src/create_roles.py:56-59 | On success: StandaloneAccountFlow for a Standalone account, Completed otherwise. |
| `CreateRolesStep.ClientErrorWaits` | src/create_roles.py:61-88 | A ClientError is recorded in `Error`, notified and turned into Wait. The record is written twice. |
| `CreateRolesStep.StatusUntouched` | src/create_roles.py:41-59 | `AccountStatus`, the key, the type and `Migrate` are never changed. |
| `CreateRolesStep.FlowDataNamesAccount` | src/create_roles.py:89-94 | The `Data` carries the event's company and account and a process name prefixed with both. |
| `CreateRolesStep.InAccountAfter` | src/create_roles.py:44-55 | The calls made in the account only depend on the answers, not on the calls made before. |
| `CreateRolesStep.CreateAccountRoles` | src/create_roles.py:34-94 | The handler changes the backend as `AccountRolesAfter` says, or raises IndexError for a missing record. |
| `UpdateAccountOu.AlreadyUpdatedCompletes` | src/update_account_ou.py:44-46 | UPDATED or above gives Completed with no call and the record unchanged. |
| `UpdateAccountOu.MovesFromRootToDefaultOu` | src/update_account_ou.py:48-61 | The move goes from the account's first ROOT parent to `DEFAULT_OU_ID`, after the parents are listed. |
| `UpdateAccountOu.UpdatedIffMoved` | src/update_account_ou.py:57-63 | Completed with status UPDATED exactly when a root was found and the move succeeded. Otherwise the status is unchanged. |
| `UpdateAccountOu.ClientErrorWaits` | src/update_account_ou.py:65-70 | A ClientError records "code: message" and gives Wait, with the status unchanged. |
| `UpdateAccountOu.OtherErrorsReraisedAndPersisted` | src/update_account_ou.py:71-77 | Other exceptions are notified and re-raised. A loaded record is written exactly once on every path. |
| `UpdateAccountOu.OuLevelAccountRaisesAsWritten` | src/update_account_ou.py:49-77 | As written, an account with no ROOT parent falls through to `move_account(SourceParentId=None)`. The SDK refuses that argument, so the step notifies and re-raises. `Error` is the OU-level message, the status is unchanged, there are two notices and no move request, and the Wait is lost. The corrected step returns Wait with one notice. |
| `UpdateAccountOu.OuBodyAgreesUnderRoot` | src/update_account_ou.py:48-63 | Under a root, the corrected `try` block is the one written. |
| `UpdateAccountOu.UpdateOu` | src/update_account_ou.py:37-79 | The handler changes the backend as `UpdateOuSpec` says. |
| `CheckBillingAccess.StandaloneSkipsProbe` | src/check_billing_access.py:42-44 | A Standalone account gives Completed with no call. |
| `CheckBillingAccess.ProbeWindow` | src/check_billing_access.py:46-53 | The probe runs under `MasterRole` over the window from today minus 5 days to today. |
| `CheckBillingAccess.AccessDeniedWaits` | src/check_billing_access.py:54-63 | `AccessDeniedException` records the error, publishes one notice and gives Wait. |
| `CheckBillingAccess.OtherClientErrorRecordedAndRaised` | src/check_billing_access.py:54-64 | Any other ClientError is recorded on the account and re-raised. |
| `CheckBillingAccess.SignalIff` | src/check_billing_access.py:42-73 | Completed exactly for Standalone or when both calls succeed. Wait exactly on `AccessDeniedException`. Otherwise an exception. |
| `CheckBillingAccess.StatusNeverModified` | src/check_billing_access.py:36-73 | `AccountStatus` is never changed. Only `Error` can change, and a missing record is never written. |
| `CheckBillingAccess.CheckBilling` | src/check_billing_access.py:34-74 | The handler changes the backend as `BillingSpec` says. |
| `OrgDependentResources.ActiveResourcesMembers` | src/get_org_dependent_resources.py:62-69 | The issue list holds a resource exactly when an ACTIVE finding names it. |
| `OrgDependentResources.MinusMembers` | src/get_org_dependent_resources.py:80-82 | The set difference holds exactly the resources of the first list that are absent from the second. |
| `OrgDependentResources.DistinctMembers` | src/get_org_dependent_resources.py:80-82 | Converting to a set keeps every resource, and each only once. |
| `OrgDependentResources.SymmetricDifferenceMembers` | src/get_org_dependent_resources.py:80-82 | The result holds, once each, exactly the resources in one list but not the other. |
| `OrgDependentResources.ConditionResult` | src/get_org_dependent_resources.py:61-106 | No active issue: nothing more is asked and the result is empty. Otherwise the result is the symmetric difference of the issue and resolved lists. |
| `OrgDependentResources.OnlyActiveFindings` | src/get_org_dependent_resources.py:61-106 | A resource is offending only when an ACTIVE finding names it, in the issue list or the resolved list. |
| `OrgDependentResources.NoAnalyzerWaits` | src/get_org_dependent_resources.py:44-56 | A region without an analyzer gives Wait, one notice and an unchanged write-back, and no finding is requested. |
| `OrgDependentResources.ResourceNotices` | src/get_org_dependent_resources.py:112-122 | One notice per offending resource. |
| `OrgDependentResources.RegionScan` | src/get_org_dependent_resources.py:33-127 | A region's scan writes nothing, or writes its record once. |
| `OrgDependentResources.NotifyResources` | src/get_org_dependent_resources.py:112-122 | The notification loop publishes exactly `ResourceNotices` and changes nothing else. |
| `OrgDependentResources.RegionWaitIff` | src/get_org_dependent_resources.py:108-127 | A region waits exactly when it has no analyzer or offending resources. A clean region leaves `OrgLevelPermissions` untouched. |
| `OrgDependentResources.LastOffendingRegionStored` | src/get_org_dependent_resources.py:124-152 | The stored `OrgLevelPermissions` are those of the last offending region, in iteration order. |
| `OrgDependentResources.NoOffendingKeepsRecord` | src/get_org_dependent_resources.py:110-152 | With no offending region, the loop leaves the record unchanged. |
| `OrgDependentResources.WaitedIffSomeRegionWaits` | src/get_org_dependent_resources.py:147-155 | The loop waits exactly when some region waits. |
| `OrgDependentResources.RegionWaitMakesScanWait` | src/get_org_dependent_resources.py:147-152 | A waiting region makes the whole loop wait. |
| `OrgDependentResources.ScanWaitHasRegion` | src/get_org_dependent_resources.py:147-152 | A waiting loop has a waiting region. The lemma returns that region's index. |
| `OrgDependentResources.ScanRegionsRun` | src/get_org_dependent_resources.py:147-152 | The region loop changes the backend as `ScanRegions` says. |
| `OrgDependentResources.FailureStopsScan` | src/get_org_dependent_resources.py:147-152 | After an exception, the later regions are not scanned. |
| `OrgDependentResources.CompletedIffScanned` | src/get_org_dependent_resources.py:154-158 | Completed, with `IsPermissionsScanned` set, exactly when every call succeeds and no region waits. Otherwise the column is unchanged. |
| `OrgDependentResources.ErrorsReraised` | src/get_org_dependent_resources.py:160-180 | A ClientError is recorded in `Error`, notified and re-raised. Any other exception is notified and re-raised. |
| `OrgDependentResources.ScanAccount` | src/get_org_dependent_resources.py:130-187 | The handler changes the backend as its specification function says. |
| `CheckOrgScanStatus.StatusFollowsFlag` | src/check_org_scan_status.py:29-45 | Completed exactly when `IsPermissionsScanned` is true; a missing flag gives Wait. Nothing is written or requested. |
| `CheckOrgScanStatus.DataEnvelopeIgnored` | src/check_org_scan_status.py:36 | A bare event and one wrapped in `Data` give the same answer. |
| `CheckOrgScanStatus.StatusAfterScan` | src/check_org_scan_status.py:44-45 | After a Completed permission scan, the status check of that account answers Completed. |
| `CheckOrgScanStatus.GetAccountScanStatus` | src/check_org_scan_status.py:35-45 | A lookup failure is notified and re-raised. Otherwise the answer is `ScanStatusSpec`, and the table is unchanged. |
| `SupportCase.DisabledCompletes` | src/support_case.py:43-81 | With `CREATE_SUPPORT_CASE` not "TRUE": Completed with no lookup, no call and no write. |
| `SupportCase.ResolvedIffCompleted` | src/support_case.py:46-57 | With a recorded case, Completed exactly when its lowercased status is "resolved", and `SupportCaseStatus` is then stored as "resolved". Otherwise Wait. |
| `SupportCase.NewCaseWaits` | src/support_case.py:58-79 | Without a case id, a case is opened and its id, display id and status are stored. The result is never Completed, and it is Wait when the calls succeed. |
| `SupportCase.ClientErrorWaits` | src/support_case.py:38-94 | A ClientError records "code: message" on the master and is swallowed. The result stays Wait. |
| `SupportCase.OtherErrorsReraised` | src/support_case.py:95-104 | Any other exception is notified for the company, with no account, and re-raised. |
| `SupportCase.MasterPersisted` | src/support_case.py:44-109 | A master that was found is written back exactly once. Only its support-case columns and `Error` can change. |
| `SupportCase.CompletedOnlyWhenResolved` | src/support_case.py:38-109 | Completed only when the gate is off or the recorded case is resolved. Every answer names the event's company. |
| `SupportCase.OpenSupportCase` | src/support_case.py:34-109 | The handler changes the backend as `SupportAfter` says, and changes nothing when the gate is off. |
| `Cleanup.VisitCases` | src/cleanup.py:63-107 | A working session sends a reminder naming the account and writes nothing. AccessDenied writes the account as SUSPENDED. Any ClientError is notified. |
| `Cleanup.VisitEffects` | src/cleanup.py:63-97 | A visit assumes the master role once. It writes the SUSPENDED copy exactly when access is denied. |
| `Cleanup.VisitRun` | src/cleanup.py:60-117 | One loop iteration changes the backend as `Visit` says. |
| `Cleanup.SweepRun` | src/cleanup.py:60-117 | The loop over LEFT accounts changes the backend as `SweepLeft` says. |
| `Cleanup.ReminderNamesAccount` | src/cleanup.py:69-92 | The reminder names the account and the company. |
| `Cleanup.SweepTriesEach` | src/cleanup.py:60-67 | Without an exception other than a ClientError, there is one session attempt per LEFT account, in query order. |
| `Cleanup.FailureStopsSweep` | src/cleanup.py:108-117 | After a non-ClientError exception, no later account is visited. |
| `Cleanup.SweepWritesOnlySuspensions` | src/cleanup.py:94-107 | The loop writes only SUSPENDED copies of denied accounts. `Error` is stored as read, because it is set after the write. |
| `Cleanup.SweepWritesSuspensions` | src/cleanup.py:94-97 | Without an exception, the writes are exactly the suspensions, in query order. |
| `Cleanup.SweepSuspendsEveryDenied` | src/cleanup.py:94-97 | Without an exception, every denied LEFT account is written as SUSPENDED. |
| `Cleanup.CompletedIffNothingLeft` | src/cleanup.py:43-159 | While any account is LEFT the result is Wait (or the step raises). Completed exactly when no account is LEFT and no migrating account is below UPDATED. |
| `Cleanup.LeftRecords` | src/cleanup.py:46-58 | The LEFT query returns LEFT records of the company. |
| `Cleanup.CleanUp` | src/cleanup.py:40-159 | The handler changes the backend as `CleanupSpec` says for the query's order, and returns `{Status, CompanyName}`. |
| `GetAccounts.ListedItems` | src/get_accounts.py:37-51 | One item per key, in order, with only `CompanyName`, `AccountId` and a `ProcessName` starting with `"<CompanyName>-<AccountId>-"`. |
| `GetAccounts.SelectsBelowUpdated` | src/get_accounts.py:39-43 | The items are exactly the company's records below UPDATED, each once; `Migrate` is not filtered. |
| `GetAccounts.ListAccounts` | src/get_accounts.py:29-59 | The handler returns `{CompanyName, Accounts}` as the query's order gives them, and the table is unchanged. |
| `NotificationIdentifier.HandlerTable` | src/notification_identifier.py:33-42 | Each of the three constraint codes gets its handler name. Any other code, or none, gets "Notify". |
| `NotificationIdentifier.OnlyHandlerAdded` | src/notification_identifier.py:27-30 | The step adds only the `handler` key. |
| `NotificationHandler.HandlersNeverRunAsWritten` | src/notification_handler.py:67-72 | As written, every non-Notify handler makes the step raise ValueError. With the intended dispatch, none does. |
| `NotificationHandler.NotifyUnhandled` | src/notification_handler.py:69-71 | "Notify" sets `Status = "Unhandled"` and returns the notice, with nothing written. |
| `NotificationHandler.ConstraintRouted` | src/notification_handler.py:76-100 | A notice routed from a ConstraintViolationException reaches the constraint handler. |
| `NotificationHandler.PaymentMethodUnhandled` | src/notification_handler.py:82-86 | A "valid payment method" message drops the Slack handle, is Unhandled and returns at once. |
| `NotificationHandler.ConstraintActions` | src/notification_handler.py:88-100 | Phone PIN and agreement messages set an action item and Handled, and the agreement check wins. Any other message leaves the status unset. |
| `NotificationHandler.HandshakeJoins` | src/notification_handler.py:108-116 | The handshake handler drops the Slack handle, writes the record back as JOINED and marks the notice Handled. |
| `NotificationHandler.TableClientError` | src/notification_handler.py:117-120 | A table ClientError leaves the notice's status as it was, writes nothing and is notified once. |
| `NotificationHandler.DuplicateAlwaysHandled` | src/notification_handler.py:128-147 | The duplicate handler is Handled whenever it returns, a table error included, and can only write the record as UPDATED. |
| `NotificationHandler.RepairsCanLowerStatus` | src/notification_handler.py:114-137 | Both repairing handlers overwrite the status without comparing: a LEFT record goes back to JOINED or UPDATED. |
| `NotificationHandler.StatusRepairRun` | src/notification_handler.py:103-147 | Both repairing handlers change the table and notices as `StatusRepair` says. |
| `NotificationHandler.NullKeyRefusedByTable` | src/notification_handler.py:108-147 | A notice without an account id or company name makes the table answer a ValidationException ClientError. It is logged as `code: message`, and nothing is written. The handshake handler returns the notice without its Slack handle, and the duplicate handler returns it Handled. |
| `NotificationHandler.ConstraintHandler` | src/notification_handler.py:76-100 | The handler updating the notice in place ends as `ConstraintHandling` says. |
| `NotificationHandler.HandleNotification` | src/notification_handler.py:33-72 | The handler with the intended dispatch changes the backend as `ErrorHandle` says. |
| `Notifier.ForwardsSlackMessage` | src/notifier.py:45-78 | A ready-made `SlackMessage` is posted unchanged. |
| `Notifier.WebhookFromHandle` | src/notifier.py:79-80 | The webhook is the Slack handle exactly when that is given. |
| `Notifier.ColourPriority` | src/notifier.py:49-59 | Yellow with an action item, else red with an error type, else green. |
| `Notifier.TitleShape` | src/notifier.py:48-58 | The title asks for user action exactly with an action item, It ends with the account label and id when there is an account id, and with the company name otherwise. |
| `Notifier.TextChoice` | src/notifier.py:61 | The text is the action item when given, otherwise the fenced notice. |
| `Notifier.Notify` | src/notifier.py:42-81 | The handler publishes exactly `Notification(d)` on the Slack topic. |
| `DynamoDb.Convert` | src/utils/dynamodb.py:53-63 | The converted value of a key: `""` becomes null, dicts and lists are converted recursively, other values are kept. |
| `DynamoDb.ConvertEmptyValues` | src/utils/dynamodb.py:53-63 | The keys are kept. Each value is converted and no `""` value is left at the top level. |
| `DynamoDb.ConvertEmptyValuesIdempotent` | src/utils/dynamodb.py:53-63 | Converting twice equals converting once. |
| `DynamoDb.ConvertIdempotent` | src/utils/dynamodb.py:53-63 | Converting one value twice equals converting it once. |
| `DynamoDb.EmptyStringInListKept` | src/utils/dynamodb.py:57-60 | A `""` held directly in a list is left unchanged. |
| `DynamoDb.NestedListRaisesAsWritten` | src/utils/dynamodb.py:57-60 | As written, `{"a": [["x"]]}` raises TypeError, while the corrected conversion keeps it. |
| `DynamoDb.AsWrittenAgrees` | src/utils/dynamodb.py:53-63 | On values with no inner list headed by an integer or bool, the code as written agrees with the corrected conversion wherever it does not raise. |
| `DynamoDb.InitAccountItem` | src/utils/dynamodb.py:32-36 | A loaded account gets status 0, an id zero-padded to at least 12 characters, `IsPermissionsScanned = False` and the write time. |
| `DynamoDb.BatchWrite` | src/utils/dynamodb.py:28-37 | The items handed to the batch writer are the initialised, converted rows, in order. |
| `Data.SplitJoin` | src/utils/data.py:36 | `split('/', n)` is undone by the join, makes at most `n` cuts, and only the last part can hold a slash. |
| `Data.UrlParts` | src/utils/data.py:33-36 | `s3://<bucket>/<key>` contains the scheme and splits into `s3:`, an empty part, the bucket and the whole key. |
| `Data.LocationOf` | src/utils/data.py:36-44 | `s3://<bucket>/<key>` names that bucket and that key, slashes in the key included; the key must match `^\S+.xls$`. |
| `Data.SchemeRequired` | src/utils/data.py:33-34 | A URL without `s3://` is refused with a ValueError. |
| `Data.RecordsPerRow` | src/utils/data.py:62-87 | Exactly one record per row below the header, each built from its row. |
| `Data.RowRecordKeys` | src/utils/data.py:66-84 | A row's record has exactly the header cells as keys. |
| `Data.RowRecordValues` | src/utils/data.py:67-84 | A header not repeated to its right holds the normalised value of its own column. |
| `Data.NormalizedCells` | src/utils/data.py:70-82 | `AccountId` is left-padded with zeros to 12. `Migrate` is true exactly for "true" or "1" in any case. Other non-string cells are stringified. |
| `Data.MigrateTrueExamples` | src/utils/data.py:78-82 | "TRUE", "True" and the number 1 give `Migrate = True`. |
| `Data.MigrateFalseExamples` | src/utils/data.py:78-82 | "yes" and 0 give `Migrate = False`. |
| `Data.AccountIdExample` | src/utils/data.py:70-76 | The number 42 in the AccountId column gives "000000000042". |
| `Data.RowDict` | src/utils/data.py:66-84 | The inner loop over a row builds exactly `RowRecord(header, row)`. |
| `Data.ProcessXls` | src/utils/data.py:59-87 | The nested loops build exactly `Records(sheet)`. |
| `LoadData.NewAccountsFilter` | src/load_data.py:35-41 | The filter keeps exactly the rows whose zero-padded id is not already in the table, in input order. |
| `LoadData.CompanyCheckOnNewRows` | src/load_data.py:42-45 | ValueError exactly when a new row names another company. An empty or missing company passes, and existing rows are not checked. |
| `LoadData.LoadsOnlyNewAccounts` | src/load_data.py:50-105 | Only new accounts are loaded, and only on success, followed by the start announcement. On an exception nothing is loaded. |
| `LoadData.LoadedItem` | src/load_data.py:63 | A loaded row is written with status 0, its zero-filled id and not yet scanned. |
| `LoadData.LoadAccounts` | src/load_data.py:50-105 | The handler returns the items handed to `batch_write`, none when there is no new row. It does not put them into the table map (see "## Left out"). |
| `LoadData.NewRows` | src/load_data.py:53-57 | The read-and-filter part returns `Updates` and logs exactly the download. |
| `UpdateTags.MergeKeepsOtherAccounts` | src/update_tags.py:34-40 | The merge sets `tags[AccountId] = Tags` and keeps every other key. No data starts from `{}`. |
| `UpdateTags.ReadErrorMapping` | src/update_tags.py:43-74 | `get_etag` maps AccessDenied/404/403 to `""` and `get_data` maps AccessDenied/NoSuchKey to `{}`. Other codes are re-raised. |
| `UpdateTags.TagFileAccepted` | src/update_tags.py:60-88 | The tag file passes the `^\S+.json$` check exactly when the company name holds no whitespace. |
| `UpdateTags.WriteOnlyOnMatchingEtag` | src/update_tags.py:92-106 | A round writes exactly when the ETag read with the data equals the current ETag. |
| `UpdateTags.RoundsEnd` | src/update_tags.py:89-107 | The loop ends with the first round that writes, after rounds that only retried. It times out exactly when every round retries. |
| `UpdateTags.TagRoundRun` | src/update_tags.py:90-106 | One iteration of the retry loop logs the requests of `TagRound` and ends as it says. |
| `UpdateTags.RetryRounds` | src/update_tags.py:89-107 | The retry loop ends as `Rounds` says and logs its requests. |
| `UpdateTags.DecommissionedNotTagged` | src/update_tags.py:80-85 | A record above UPDATED returns the event with no call. A missing record raises IndexError. |
| `UpdateTags.UpdateTagsRun` | src/update_tags.py:77-112 | The handler changes the request log as `TagsSpec` says and never writes the table. |

## Left out

- Every step method, `Store.Backend.Put/Publish/Send` and `Util.QueryMaster` changes the backend, so its contract uses `old`. The properties are stated again as lemmas on the specification functions.
- The DynamoDB query wrappers are lookups on the map. `get_accounts_by_status` uses mismatched placeholders (`:a` vs `:ma`); no modelled step calls it, so that query is not modelled.
- The order of a query's items is a parameter, as described above.
- A record without a column the code reads with `[...]` is not modelled: such a column is an `Option` and never raises KeyError. `SlackHandle` in particular is taken as always present, since the loader writes it.
- `str(ClientError)` leaves out the name of the failed operation.
- The integrity message leaves out the rendering of the duplicate items.
- The notifier's `json.dumps(event)` is an input string.
- The `ts` timestamps and the author icon of Slack attachments are not modelled.
- `get_support_case_desc` is not modelled (only the subject is). The fixed severity, category, service and language arguments of `create_case` are not modelled either.
- The role-assumption poll and the tag-write retry loop run on a finite list of answers. Exhausting it is a `Timeout`. `sleep` is not modelled.
- `get_caller_identity` in `create_roles` is not a request. The account id it answers is the id of the account the session was assumed into.
- Regular expressions are hand-written predicates over ASCII only. `\s`, `\d` and `\w` do not cover non-ASCII Unicode characters.
- Float spreadsheet cells are integers: `str(int(value))` of a float is the integer's decimal text.
- The workbook reader and the S3 download are one input answer.
- `datetime` values are integers.
- `DynamoDb.ConvertEmptyValues` works on values. The Python function changes the dict in place and returns the same object, so aliasing between that object and the caller's is not modelled.
- Python's set order in the symmetric difference is unspecified. The model uses first-occurrence order, and only membership is stated.
- Logging calls and the `logger.debug` of each event are left out.
- SNS and Slack delivery are the `published` log.
- Store.Stamp: an empty `AdminRole` is kept and not turned into null, because `AdminRole` is a required text column of the model's `Record`.
- LeaveOrganization.LeaveOrg: `LeaveOrgSpec`, `LinkedChecks` and `LinkedChecksRun` follow the corrected join test (prefix found at index 0 or later) and validation switches (only "TRUE" enables). They do not follow lines 62, 69 and 78 as written; Findings rows 1 and 2 model those lines.
- UpdateAccountOu.UpdateOu: `UpdateOuSpec` and `OuAfter` use the corrected try block (Wait without a move for an account not under a root). The behaviour as written is `OuAfterAsWritten`; see Findings row 5.
- NotificationHandler.HandleNotification: `ErrorHandle` and the handler use the intended dispatch (call the handler named). As written, line 72 raises ValueError for every handler name; see Findings row 3.
- LoadData.LoadAccounts: the batch handed to `batch_write` is the returned result. The table map is not updated, because loaded rows are untyped documents that need not carry every `Record` column.
- Store.Backend.Put: a table write never fails in the model. A ClientError from `update_item` inside a `finally` clause, which would replace the step's result, is not modelled.
- DynamoDb.BatchWrite: the batch writer never fails, and unprocessed items are not modelled.
- UpdateTags.TagRound: the S3 `put_object` of the merged tag file never fails in the model.
- UpdateTags.GetData: an object's body is already-parsed JSON, so the `json.loads` failure on a malformed tag file is not modelled.
- DynamoDb.AsWrittenAgrees: it covers only values with no inner list headed by an integer or bool. On such a list Python would index the list with an integer and could succeed, so the as-written model does not describe it.
- NotificationHandler.TableAnswer: the message of the ValidationException the table raises for a null key is a fixed stand-in for the service's text.
- The environment and SSM reads are the `Config` value.
- Left out entirely:
  - `src/tobedeleted.py`: a user-registration Lambda of another system;
  - `src/reports.py`: report rendering and upload;
  - `resources/helper_scripts/restore_test_accounts.py`: test-environment reset tooling;
  - `src/utils/sessions.py`, `src/active_regions_generator.py`, `src/notification_observer.py`: thin STS, EC2 and Step Functions wrappers;
  - `src/activate_analyzer.py`: it creates an analyzer only when one already exists (line 45). That behaviour is recorded here and not modelled.

## Findings

| source | as written | input that shows it | evidently intended | confidence | as-written member | corrected member |
|---|---|---|---|---|---|---|
| src/leave_organization.py:62 | `arn.find(prefix) > 0` | an account ARN `arn:aws:organizations::<master>:account/...` starts with the prefix, so `find` answers 0 | `>= 0`: the prefix occurs in the ARN | medium, not executed | `LeaveOrganization.PrefixedArnMissedAsWritten` | `LeaveOrganization.JoinCheckIffAlreadyJoined` |
| src/leave_organization.py:69,78 | `Constant.X_VALIDATION.__eq__(Constant.TRUE)` | the parameter unset: `None.__eq__("TRUE")` is `NotImplemented`, which is truthy, so validation runs | validation only when the parameter is "TRUE" | medium, not executed | `LeaveOrganization.UnsetFlagEnablesValidationAsWritten` | `LeaveOrganization.EmailRejectionStopsRemoval` |
| src/notification_handler.py:72 | `ast.literal_eval(error_handler)` | handler `"constraint_violation_exception_handler(error)"`: `literal_eval` refuses a call and raises ValueError | call the handler the identifier named | high, not executed | `NotificationHandler.HandlersNeverRunAsWritten` | `NotificationHandler.ConstraintRouted` |
| src/utils/dynamodb.py:57-60 | `convert_empty_values(i)` for a list `i` held in a list | `{"a": [["x"]]}`: `d[k]` indexes the inner list with `"x"` and raises TypeError | convert a list held in a list as a list | high, not executed | `DynamoDb.NestedListRaisesAsWritten` | `DynamoDb.ConvertEmptyValuesIdempotent` |
| src/update_account_ou.py:49-77 | the Wait branch for an account under an OU does not return | an account whose only parent is an OU: control falls through to `move_account` with `SourceParentId=None`, which the SDK's parameter validation refuses. The step notifies and re-raises, and the Wait is lost | record the error and Wait without moving | medium, not executed | `UpdateAccountOu.OuLevelAccountRaisesAsWritten` | `UpdateAccountOu.UpdatedIffMoved` |
