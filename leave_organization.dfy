/** `leave_org`: takes an account out of its old organization, by account type, and
    classifies the errors of the AWS calls. */
module LeaveOrganization {
  import opened Strings
  import opened Documents
  import opened Constant
  import opened Base
  import opened MeLogger
  import opened Store
  import opened Util

  /** `describe_account(...)["Account"]`. */
  datatype AccountInfo = AccountInfo(arn: string, email: string, name: string)

  /** The answers of the AWS calls the step can make. `session` is the role assumption
      (into the master for a Linked account, into the account itself otherwise) and
      `accounts` the number of accounts `list_accounts` lists. */
  datatype LeaveResponses = LeaveResponses(
    session: Aws<()>, describe: Aws<AccountInfo>, remove: Aws<()>, accounts: Aws<nat>, deleteOrg: Aws<()>)

  // ---- The two guards the source writes in a way it evidently does not mean ----

  function OrgArnPrefix(masterAccountId: string): string {
    "arn:aws:organizations::" + masterAccountId
  }

  /** The "already joined" test as written: the prefix found at an index above 0. */
  predicate JoinedAsWritten(arn: string, masterAccountId: string) {
    Find(arn, OrgArnPrefix(masterAccountId)) > 0
  }

  /** The "already joined" test as intended: the target organization's prefix occurs in
      the ARN. */
  predicate AlreadyJoined(arn: string, masterAccountId: string) {
    Find(arn, OrgArnPrefix(masterAccountId)) >= 0
  }

  lemma AlreadyJoinedIff(arn: string, masterAccountId: string)
    ensures AlreadyJoined(arn, masterAccountId) <==> Contains(arn, OrgArnPrefix(masterAccountId))
  {
  }

  /** An account ARN of the target organization starts with the prefix, so the test as
      written never fires for it, while the intended one does. */
  lemma PrefixedArnMissedAsWritten(arn: string, masterAccountId: string)
    requires OrgArnPrefix(masterAccountId) <= arn
    ensures !JoinedAsWritten(arn, masterAccountId) && AlreadyJoined(arn, masterAccountId)
  {
    var p := OrgArnPrefix(masterAccountId);
    assert OccursAt(arn, p, 0);
    assert Contains(arn, p);
  }

  /** `Constant.X_VALIDATION.__eq__(Constant.TRUE)` as written: an unset parameter is
      `None`, whose `__eq__` answers `NotImplemented`, which is truthy. */
  predicate ValidationEnabledAsWritten(flag: Option<string>) {
    flag.None? || flag.value == TRUE
  }

  /** The validation switch as intended: on exactly when the parameter is "TRUE". */
  predicate ValidationEnabled(flag: Option<string>) {
    flag == Some(TRUE)
  }

  lemma UnsetFlagEnablesValidationAsWritten()
    ensures ValidationEnabledAsWritten(None) && !ValidationEnabled(None)
    ensures forall f: Option<string> | f.Some? :: ValidationEnabledAsWritten(f) == ValidationEnabled(f)
  {
  }

  // ---- The try block, by account type ----

  function EmailMsg(accountId: string): string {
    "AccountId(" + accountId + "): Email is not AWS's org compatible"
  }

  function NameMsg(accountId: string): string {
    "AccountId(" + accountId + "): Account name is not AWS's org compatible"
  }

  /** The end of the try block once the account is out: INVITED when it migrates, LEFT
      otherwise. */
  function Finish(acc: Record, published: seq<Publication>, requests: seq<Request>): (t: Attempt<Signal>)
    ensures t.exit == Returned(Completed) && t.account.accountStatus == (if acc.migrate then INVITED else LEFT)
  {
    Attempt(Returned(Completed), acc.(accountStatus := if acc.migrate then INVITED else LEFT), published, requests)
  }

  /** A Linked account once its description is in: checked against the target
      organization and the naming rules, then removed by its master. */
  function LinkedChecks(acc: Record, info: AccountInfo, cfg: Config, resp: LeaveResponses): Attempt<Signal> {
    var acc1 := acc.(email := Some(info.email), name := Some(info.name));
    if AlreadyJoined(info.arn, cfg.masterAccountId) then
      Attempt(Returned(JoinCheck), acc1.(accountStatus := JOINED), [], [])
    else if ValidationEnabled(cfg.emailValidation) && !EmailMatches(info.email) then
      var l := LogError(Some(acc.accountId), Some(acc.companyName), CATE, EmailMsg(acc.accountId), None, true, acc.slackHandle);
      Attempt(Returned(Wait), acc1.(error := Some(l.text)), l.published, [])
    else
      var nameFails := ValidationEnabled(cfg.nameValidation) && !NameMatches(info.name);
      var l := LogError(Some(acc.accountId), Some(acc.companyName), CATE, NameMsg(acc.accountId), None, true, acc.slackHandle);
      var acc2 := if nameFails then acc1.(error := Some(l.text)) else acc1;
      var pub := if nameFails then l.published else [];
      var q3 := [RemoveAccount(acc.accountId)];
      if !resp.remove.Ok? then Attempt(Raised(Raise(resp.remove)), acc2, pub, q3)
      else Finish(acc2, pub, q3)
  }

  /** A Linked account once its master is known: described through the master's session,
      then checked and removed. */
  function ViaMaster(acc: Record, master: Record, cfg: Config, resp: LeaveResponses): Attempt<Signal> {
    var q1 := [AssumeRole(master.accountId, master.adminRole, None)];
    if !resp.session.Ok? then Attempt(Raised(Raise(resp.session)), acc, [], q1)
    else
      var q2 := q1 + [DescribeAccount(acc.accountId)];
      if !resp.describe.Ok? then Attempt(Raised(Raise(resp.describe)), acc, [], q2)
      else
        var c := LinkedChecks(acc, resp.describe.value, cfg, resp);
        Attempt(c.exit, c.account, c.published, q2 + c.requests)
  }

  /** A Linked account: reached through the session of its company's master. */
  ghost function LinkedBody(acc: Record, items: map<Key, Record>, cfg: Config, ev: StepInput, resp: LeaveResponses): Attempt<Signal> {
    var m := GetMasterAccount(items, ev.companyName);
    if m.result.Raised? then Attempt(Raised(m.result.exc), acc, m.published, [])
    else if m.result.value.None? then Attempt(Raised(IndexErr), acc, [], [])
    else ViaMaster(acc, m.result.value.value, cfg, resp)
  }

  /** A Master account: its organization is deleted once it holds no other account. */
  function MasterBody(acc: Record, resp: LeaveResponses): Attempt<Signal> {
    var q1 := [AssumeRole(acc.accountId, acc.adminRole, None)];
    if !resp.session.Ok? then Attempt(Raised(Raise(resp.session)), acc, [], q1)
    else
      var q2 := q1 + [ListAccounts(acc.accountId)];
      if !resp.accounts.Ok? then Attempt(Raised(Raise(resp.accounts)), acc, [], q2)
      else if resp.accounts.value > 1 then Attempt(Returned(Wait), acc, [], q2)
      else
        var q3 := q2 + [DeleteOrganization(acc.accountId)];
        if !resp.deleteOrg.Ok? then Attempt(Raised(Raise(resp.deleteOrg)), acc, [], q3)
        else Finish(acc, [], q3)
  }

  function StandaloneMsg(accountId: string): string {
    "Standalone account " + accountId + " has organization setup."
  }

  /** A Standalone account must not belong to an organization: a successful
      `list_accounts` raises, and any ClientError of that call is swallowed. */
  function StandaloneBody(acc: Record, resp: LeaveResponses): Attempt<Signal> {
    var q1 := [AssumeRole(acc.accountId, AWS_MASTER_ROLE, None)];
    if !resp.session.Ok? then Attempt(Raised(Raise(resp.session)), acc, [], q1)
    else
      var q2 := q1 + [ListAccounts(acc.accountId)];
      if resp.accounts.Ok? then Attempt(Raised(Failure(StandaloneMsg(acc.accountId))), acc, [], q2)
      else if resp.accounts.ClientError? then Finish(acc, [], q2)
      else Attempt(Raised(Raise(resp.accounts)), acc, [], q2)
  }

  /** The try block of `leave_org` on the loaded record. */
  ghost function LeaveBody(acc: Record, items: map<Key, Record>, cfg: Config, ev: StepInput, resp: LeaveResponses): Attempt<Signal> {
    if acc.accountStatus >= INVITED then Attempt(Returned(Completed), acc, [], [])
    else match acc.accountType
      case Linked => LinkedBody(acc, items, cfg, ev, resp)
      case Master => MasterBody(acc, resp)
      case Standalone => StandaloneBody(acc, resp)
      case OtherType => Finish(acc, [], [])
  }

  /** The except clauses of `leave_org` and its `finally`, given how the try block ended:
      the step's result, the record written back and what the clauses publish. */
  function LeaveHandlers(t: Attempt<Signal>, ev: StepInput): (o: Outcome<Signal>)
  {
    match t.exit
    case Returned(s) => Outcome(Returned(s), [t.account], [], [])
    case Raised(e) =>
      if e.ClientErr? then
        if e.code == "AccountNotFoundException" then
          Outcome(Returned(Completed), [t.account.(accountStatus := INVITED)], [], [])
        else
          var l := LogError(Some(t.account.accountId), Some(t.account.companyName), LOE, "", Some(e), true, t.account.slackHandle);
          Outcome(Returned(Wait), [t.account.(error := Some(l.text))], l.published, [])
      else
        Outcome(Raised(e), [t.account], EventLog(LOE, ev, e).published, [])
  }

  /** `leave_org(event)`. A missing record is an IndexError that is logged and re-raised,
      with nothing to persist. */
  ghost function LeaveOrgSpec(items: map<Key, Record>, cfg: Config, ev: StepInput, resp: LeaveResponses): Outcome<Signal> {
    var found := AccountById(items, ev.companyName, ev.accountId);
    if found.None? then Outcome(Raised(IndexErr), [], EventLog(LOE, ev, IndexErr).published, [])
    else
      var t := LeaveBody(found.value, items, cfg, ev, resp);
      var h := LeaveHandlers(t, ev);
      Outcome(h.result, h.writes, t.published + h.published, t.requests)
  }

  // ---- Properties ----

  /** An account already out of its organization (INVITED or any later code, LEFT and
      SUSPENDED included) is reported Completed and written back unchanged, with no call. */
  lemma AlreadyLeftCompletes(items: map<Key, Record>, cfg: Config, ev: StepInput, resp: LeaveResponses)
    requires (ev.companyName, ev.accountId) in items
    requires items[(ev.companyName, ev.accountId)].accountStatus >= INVITED
    ensures var o := LeaveOrgSpec(items, cfg, ev, resp);
      o.result == Returned(Completed) && o.writes == [items[(ev.companyName, ev.accountId)]]
      && o.requests == [] && o.published == []
  {
  }

  /** The conditions under which a Linked account reaches the target-organization and
      naming checks. */
  ghost predicate LinkedReachesChecks(items: map<Key, Record>, ev: StepInput, resp: LeaveResponses, acc: Record) {
    && (ev.companyName, ev.accountId) in items && items[(ev.companyName, ev.accountId)] == acc
    && acc.accountStatus < INVITED && acc.accountType == Linked
    && GetMasterAccount(items, ev.companyName).result.Returned?
    && GetMasterAccount(items, ev.companyName).result.value.Some?
    && resp.session.Ok? && resp.describe.Ok?
  }

  /** An email that fails the enabled check sets `Error`, yields Wait and returns before
      the removal, with the status unchanged. */
  lemma EmailRejectionStopsRemoval(items: map<Key, Record>, cfg: Config, ev: StepInput, resp: LeaveResponses, acc: Record)
    requires LinkedReachesChecks(items, ev, resp, acc)
    requires !AlreadyJoined(resp.describe.value.arn, cfg.masterAccountId)
    requires ValidationEnabled(cfg.emailValidation) && !EmailMatches(resp.describe.value.email)
    ensures var o := LeaveOrgSpec(items, cfg, ev, resp);
      o.result == Returned(Wait) && |o.writes| == 1
      && o.writes[0].error == Some(EmailMsg(acc.accountId))
      && o.writes[0].accountStatus == acc.accountStatus
      && RemoveAccount(acc.accountId) !in o.requests
      && |o.published| == 1 && o.published[0].notice.errorType == CATE
  {
  }

  /** A name that fails the enabled check sets `Error` but does not stop the removal: the
      step still ends Completed with the account's new status. */
  lemma NameRejectionStillRemoves(items: map<Key, Record>, cfg: Config, ev: StepInput, resp: LeaveResponses, acc: Record)
    requires LinkedReachesChecks(items, ev, resp, acc)
    requires !AlreadyJoined(resp.describe.value.arn, cfg.masterAccountId)
    requires !ValidationEnabled(cfg.emailValidation) || EmailMatches(resp.describe.value.email)
    requires ValidationEnabled(cfg.nameValidation) && !NameMatches(resp.describe.value.name)
    requires resp.remove.Ok?
    ensures var o := LeaveOrgSpec(items, cfg, ev, resp);
      o.result == Returned(Completed) && |o.writes| == 1
      && o.writes[0].error == Some(NameMsg(acc.accountId))
      && o.writes[0].accountStatus == (if acc.migrate then INVITED else LEFT)
      && RemoveAccount(acc.accountId) in o.requests
  {
    var o := LeaveOrgSpec(items, cfg, ev, resp);
    assert o.requests[|o.requests| - 1] == RemoveAccount(acc.accountId);
  }

  /** The short-circuit for an account that already joined fires exactly when the target
      organization's prefix is in the ARN, and then stores JOINED. */
  lemma JoinCheckIffAlreadyJoined(items: map<Key, Record>, cfg: Config, ev: StepInput, resp: LeaveResponses, acc: Record)
    requires LinkedReachesChecks(items, ev, resp, acc)
    ensures var o := LeaveOrgSpec(items, cfg, ev, resp);
      (o.result == Returned(JoinCheck) <==> AlreadyJoined(resp.describe.value.arn, cfg.masterAccountId))
      && (o.result == Returned(JoinCheck) ==> o.writes[0].accountStatus == JOINED)
  {
  }

  /** A master whose organization still lists other accounts waits: no deletion, status
      unchanged. */
  lemma BusyMasterWaits(items: map<Key, Record>, cfg: Config, ev: StepInput, resp: LeaveResponses, acc: Record)
    requires (ev.companyName, ev.accountId) in items && items[(ev.companyName, ev.accountId)] == acc
    requires acc.accountStatus < INVITED && acc.accountType == Master
    requires resp.session.Ok? && resp.accounts.Ok? && resp.accounts.value > 1
    ensures var o := LeaveOrgSpec(items, cfg, ev, resp);
      o.result == Returned(Wait) && o.writes == [acc]
      && DeleteOrganization(acc.accountId) !in o.requests
  {
  }

  /** A Standalone account that still has an organization raises the step, after a
      Leave Organization notice; one without (any ClientError of `list_accounts`) ends
      Completed. */
  lemma StandaloneOrganizationCheck(items: map<Key, Record>, cfg: Config, ev: StepInput, resp: LeaveResponses, acc: Record)
    requires (ev.companyName, ev.accountId) in items && items[(ev.companyName, ev.accountId)] == acc
    requires acc.accountStatus < INVITED && acc.accountType == Standalone && resp.session.Ok?
    ensures var o := LeaveOrgSpec(items, cfg, ev, resp);
      (resp.accounts.Ok? ==> o.result == Raised(Failure(StandaloneMsg(acc.accountId))))
      && (resp.accounts.Ok? ==> o.writes == [acc])
      && (resp.accounts.Ok? ==> o.published == EventLog(LOE, ev, Failure(StandaloneMsg(acc.accountId))).published)
      && (resp.accounts.ClientError? ==> o.result == Returned(Completed))
      && (resp.accounts.ClientError? ==> o.writes[0].accountStatus == (if acc.migrate then INVITED else LEFT))
  {
  }

  /** A Completed step on an account still in its organization leaves it INVITED, or LEFT
      when it does not migrate. */
  lemma CompletedMeansOut(items: map<Key, Record>, cfg: Config, ev: StepInput, resp: LeaveResponses)
    requires (ev.companyName, ev.accountId) in items
    requires items[(ev.companyName, ev.accountId)].accountStatus < INVITED
    ensures var o := LeaveOrgSpec(items, cfg, ev, resp);
      var acc := items[(ev.companyName, ev.accountId)];
      o.result == Returned(Completed) ==>
        |o.writes| == 1 && (o.writes[0].accountStatus == INVITED || (o.writes[0].accountStatus == LEFT && !acc.migrate))
  {
  }

  /** The ClientError clause: AccountNotFoundException means the account is already out
      (INVITED and Completed, whatever `Migrate` says); any other code records the error
      text and waits, status unchanged. */
  lemma ClientErrorClassification(t: Attempt<Signal>, ev: StepInput, code: string, message: string)
    requires t.exit == Raised(ClientErr(code, message))
    ensures var o := LeaveHandlers(t, ev);
      (code == "AccountNotFoundException" ==>
         o.result == Returned(Completed) && o.writes == [t.account.(accountStatus := INVITED)])
      && (code != "AccountNotFoundException" ==>
         o.result == Returned(Wait) && |o.writes| == 1
         && o.writes[0].error == Some(ExcText(Some(ClientErr(code, message))))
         && o.writes[0].accountStatus == t.account.accountStatus
         && |o.published| == 1 && o.published[0].notice.errorCode == Some(code))
  {
  }

  lemma ChecksKeepIdentity(acc: Record, info: AccountInfo, cfg: Config, resp: LeaveResponses)
    ensures SameIdentity(LinkedChecks(acc, info, cfg, resp).account, acc)
  {
  }

  /** The try block keeps the record's key, type and migration flag. */
  lemma BodyKeepsKey(acc: Record, items: map<Key, Record>, cfg: Config, ev: StepInput, resp: LeaveResponses)
    ensures SameIdentity(LeaveBody(acc, items, cfg, ev, resp).account, acc)
  {
    if acc.accountStatus < INVITED && acc.accountType == Linked && resp.describe.Ok? {
      ChecksKeepIdentity(acc, resp.describe.value, cfg, resp);
    }
  }

  /** A loaded record is written back exactly once, under its own key; a missing one is
      never written. */
  lemma PersistsOnlyTheAccount(items: map<Key, Record>, cfg: Config, ev: StepInput, resp: LeaveResponses)
    requires WellKeyed(items)
    ensures var o := LeaveOrgSpec(items, cfg, ev, resp);
      (|o.writes| == 1 <==> (ev.companyName, ev.accountId) in items)
      && (|o.writes| == 0 <==> (ev.companyName, ev.accountId) !in items)
      && forall i | 0 <= i < |o.writes| :: KeyOf(o.writes[i]) == (ev.companyName, ev.accountId)
  {
    if (ev.companyName, ev.accountId) in items {
      BodyKeepsKey(items[(ev.companyName, ev.accountId)], items, cfg, ev, resp);
    }
  }

  // ---- The step ----

  method LinkedChecksRun(b: Backend, acc: Record, info: AccountInfo, cfg: Config, resp: LeaveResponses)
    returns (exit: StepResult<Signal>, account: Record)
    modifies b
    ensures var t := LinkedChecks(acc, info, cfg, resp);
      exit == t.exit && account == t.account
      && b.published == old(b.published) + t.published && b.requests == old(b.requests) + t.requests
      && b.items == old(b.items)
  {
    account := acc.(email := Some(info.email), name := Some(info.name));
    if Find(info.arn, OrgArnPrefix(cfg.masterAccountId)) >= 0 {
      account := account.(accountStatus := JOINED);
      return Returned(JoinCheck), account;
    }
    var status := Completed;
    if cfg.emailValidation == Some(TRUE) && !EmailMatches(info.email) {
      var l := LogError(Some(account.accountId), Some(account.companyName), CATE, EmailMsg(account.accountId), None, true, account.slackHandle);
      b.Publish(l.published);
      account := account.(error := Some(l.text));
      return Returned(Wait), account;
    }
    if cfg.nameValidation == Some(TRUE) && !NameMatches(info.name) {
      var l := LogError(Some(account.accountId), Some(account.companyName), CATE, NameMsg(account.accountId), None, true, account.slackHandle);
      b.Publish(l.published);
      account := account.(error := Some(l.text));
      status := Wait;
    }
    b.Send(RemoveAccount(account.accountId));
    if !resp.remove.Ok? {
      return Raised(Raise(resp.remove)), account;
    }
    account := account.(accountStatus := if account.migrate then INVITED else LEFT);
    status := Completed;
    return Returned(status), account;
  }

  method ViaMasterRun(b: Backend, acc: Record, master: Record, cfg: Config, resp: LeaveResponses)
    returns (exit: StepResult<Signal>, account: Record)
    modifies b
    ensures var t := ViaMaster(acc, master, cfg, resp);
      exit == t.exit && account == t.account
      && b.published == old(b.published) + t.published && b.requests == old(b.requests) + t.requests
      && b.items == old(b.items)
  {
    account := acc;
    b.Send(AssumeRole(master.accountId, master.adminRole, None));
    if !resp.session.Ok? {
      return Raised(Raise(resp.session)), account;
    }
    b.Send(DescribeAccount(account.accountId));
    if !resp.describe.Ok? {
      return Raised(Raise(resp.describe)), account;
    }
    ghost var q := [AssumeRole(master.accountId, master.adminRole, None), DescribeAccount(account.accountId)];
    assert b.requests == old(b.requests) + q;
    exit, account := LinkedChecksRun(b, account, resp.describe.value, cfg, resp);
    assert b.requests == old(b.requests) + (q + LinkedChecks(acc, resp.describe.value, cfg, resp).requests);
  }

  method LinkedRun(b: Backend, acc: Record, cfg: Config, ev: StepInput, resp: LeaveResponses)
    returns (exit: StepResult<Signal>, account: Record)
    modifies b
    ensures var t := LinkedBody(acc, old(b.items), cfg, ev, resp);
      exit == t.exit && account == t.account
      && b.published == old(b.published) + t.published && b.requests == old(b.requests) + t.requests
      && b.items == old(b.items)
  {
    var m := QueryMaster(b, ev.companyName);
    if m.result.Raised? {
      return Raised(m.result.exc), acc;
    }
    if m.result.value.None? {
      return Raised(IndexErr), acc;
    }
    exit, account := ViaMasterRun(b, acc, m.result.value.value, cfg, resp);
  }

  method MasterRun(b: Backend, acc: Record, resp: LeaveResponses) returns (exit: StepResult<Signal>, account: Record)
    modifies b
    ensures var t := MasterBody(acc, resp);
      exit == t.exit && account == t.account
      && b.published == old(b.published) + t.published && b.requests == old(b.requests) + t.requests
      && b.items == old(b.items)
  {
    account := acc;
    b.Send(AssumeRole(account.accountId, account.adminRole, None));
    if !resp.session.Ok? {
      return Raised(Raise(resp.session)), account;
    }
    b.Send(ListAccounts(account.accountId));
    if !resp.accounts.Ok? {
      return Raised(Raise(resp.accounts)), account;
    }
    if resp.accounts.value > 1 {
      return Returned(Wait), account;
    }
    b.Send(DeleteOrganization(account.accountId));
    if !resp.deleteOrg.Ok? {
      return Raised(Raise(resp.deleteOrg)), account;
    }
    account := account.(accountStatus := if account.migrate then INVITED else LEFT);
    return Returned(Completed), account;
  }

  method StandaloneRun(b: Backend, acc: Record, resp: LeaveResponses) returns (exit: StepResult<Signal>, account: Record)
    modifies b
    ensures var t := StandaloneBody(acc, resp);
      exit == t.exit && account == t.account
      && b.published == old(b.published) + t.published && b.requests == old(b.requests) + t.requests
      && b.items == old(b.items)
  {
    account := acc;
    b.Send(AssumeRole(account.accountId, AWS_MASTER_ROLE, None));
    if !resp.session.Ok? {
      return Raised(Raise(resp.session)), account;
    }
    b.Send(ListAccounts(account.accountId));
    if resp.accounts.Ok? {
      return Raised(Failure(StandaloneMsg(account.accountId))), account;
    }
    if resp.accounts.OtherError? {
      return Raised(Raise(resp.accounts)), account;
    }
    account := account.(accountStatus := if account.migrate then INVITED else LEFT);
    return Returned(Completed), account;
  }

  /** The try block of `leave_org`. */
  method LeaveBodyRun(b: Backend, acc: Record, cfg: Config, ev: StepInput, resp: LeaveResponses)
    returns (exit: StepResult<Signal>, account: Record)
    modifies b
    ensures var t := LeaveBody(acc, old(b.items), cfg, ev, resp);
      exit == t.exit && account == t.account
      && b.published == old(b.published) + t.published && b.requests == old(b.requests) + t.requests
      && b.items == old(b.items)
  {
    account := acc;
    if account.accountStatus >= INVITED {
      return Returned(Completed), account;
    }
    if account.accountType == Linked {
      exit, account := LinkedRun(b, account, cfg, ev, resp);
    } else if account.accountType == Master {
      exit, account := MasterRun(b, account, resp);
    } else if account.accountType == Standalone {
      exit, account := StandaloneRun(b, account, resp);
    } else {
      account := account.(accountStatus := if account.migrate then INVITED else LEFT);
      exit := Returned(Completed);
    }
  }

  /** The except clauses and the `finally` of `leave_org`. */
  method LeaveHandlersRun(b: Backend, exit: StepResult<Signal>, acc: Record, ev: StepInput, now: int)
    returns (r: StepResult<Signal>)
    modifies b
    ensures var h := LeaveHandlers(Attempt(exit, acc, [], []), ev);
      r == h.result && b.items == ApplyWrites(old(b.items), h.writes, now)
      && b.published == old(b.published) + h.published && b.requests == old(b.requests)
  {
    var account := acc;
    r := exit;
    if exit.Raised? {
      var e := exit.exc;
      if e.ClientErr? {
        if e.code == "AccountNotFoundException" {
          account := account.(accountStatus := INVITED);
          r := Returned(Completed);
        } else {
          var l := LogError(Some(account.accountId), Some(account.companyName), LOE, "", Some(e), true, account.slackHandle);
          b.Publish(l.published);
          account := account.(error := Some(l.text));
          r := Returned(Wait);
        }
      } else {
        b.Publish(EventLog(LOE, ev, e).published);
      }
    }
    b.Put(account, now);
  }

  /** `leave_org(event)`, with the record written back in `finally`. */
  method LeaveOrg(b: Backend, cfg: Config, ev: StepInput, resp: LeaveResponses, now: int)
    returns (r: StepResult<Signal>)
    modifies b
    ensures var o := LeaveOrgSpec(old(b.items), cfg, ev, resp);
      r == o.result && Realizes(b, o, now)
  {
    var found := AccountById(b.items, ev.companyName, ev.accountId);
    if found.None? {
      b.Publish(EventLog(LOE, ev, IndexErr).published);
      return Raised(IndexErr);
    }
    var exit, account := LeaveBodyRun(b, found.value, cfg, ev, resp);
    ghost var t := LeaveBody(found.value, old(b.items), cfg, ev, resp);
    assert LeaveHandlers(Attempt(exit, account, [], []), ev) == LeaveHandlers(t, ev);
    r := LeaveHandlersRun(b, exit, account, ev, now);
  }
}
