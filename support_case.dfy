/** The support-case gate: when enabled, the company's payer account gets a billing
    support case asking to update its payment method, and the workflow waits until that
    case is resolved. */
module SupportCase {
  import opened Documents
  import opened Strings
  import opened Constant
  import opened Base
  import opened MeLogger
  import opened Store
  import opened Util

  /** The fields of one entry of `describe_cases(...)["cases"]` the step reads. */
  datatype CaseInfo = CaseInfo(displayId: Option<string>, status: Option<string>)

  /** The answers of the Support calls: describing the recorded case, creating a case
      (its id) and describing the new case. */
  datatype SupportResponses = SupportResponses(existing: Aws<seq<CaseInfo>>, created: Aws<string>,
                                               describeNew: Aws<seq<CaseInfo>>)

  /** How the try block ended and the master record it left (`account`, when loaded). */
  datatype CaseAttempt = CaseAttempt(exit: StepResult<Signal>, master: Option<Record>, requests: seq<Request>)

  const RESOLVED := "resolved"

  /** Whether the record holds a support case id (`account.get("SupportCaseId")` is truthy). */
  predicate HasCase(acc: Record) {
    acc.supportCaseId.Some? && acc.supportCaseId.value != ""
  }

  /** The try block from the master record on: the recorded case is described, or a case
      is opened and its id, display id and status are stored. */
  function CaseBody(acc: Record, cfg: Config, resp: SupportResponses): (t: CaseAttempt)
  {
    if HasCase(acc) then
      var q := [DescribeCase(acc.supportCaseId.value)];
      if !resp.existing.Ok? then CaseAttempt(Raised(Raise(resp.existing)), Some(acc), q)
      else if resp.existing.value == [] then CaseAttempt(Raised(IndexErr), Some(acc), q)
      else if resp.existing.value[0].status.None? then CaseAttempt(Raised(AttrErr(NONE_HAS_NO_LOWER)), Some(acc), q)
      else if Lower(resp.existing.value[0].status.value) == RESOLVED then
        CaseAttempt(Returned(Completed), Some(acc.(supportCaseStatus := Some(RESOLVED))), q)
      else CaseAttempt(Returned(Wait), Some(acc), q)
    else
      var q1 := [CreateCase(SupportCaseSubject(acc.accountId), cfg.caseCcEmails)];
      if !resp.created.Ok? then CaseAttempt(Raised(Raise(resp.created)), Some(acc), q1)
      else
        var q2 := q1 + [DescribeCase(resp.created.value)];
        if !resp.describeNew.Ok? then CaseAttempt(Raised(Raise(resp.describeNew)), Some(acc), q2)
        else if resp.describeNew.value == [] then CaseAttempt(Raised(IndexErr), Some(acc), q2)
        else
          var c := resp.describeNew.value[0];
          CaseAttempt(Returned(Wait),
                      Some(acc.(supportCaseId := Some(resp.created.value), supportCaseDisplayId := c.displayId,
                                supportCaseStatus := c.status)), q2)
  }

  /** The try block once `get_master_account` answered `m`: its error, an empty answer
      (`[0]` of an empty list), or the case handling on the master record. */
  function SupportBody(m: MasterLookup, cfg: Config, resp: SupportResponses): (t: CaseAttempt)
  {
    if m.result.Raised? then CaseAttempt(Raised(m.result.exc), None, [])
    else if m.result.value.None? then CaseAttempt(Raised(IndexErr), None, [])
    else CaseBody(m.result.value.value, cfg, resp)
  }

  /** The except clauses and the `finally`: a ClientError is recorded in the master's
      `Error` as "code: message" and is not re-raised, so the status stays the default
      Wait; any other exception is notified for the company and re-raised; the master,
      when loaded, is written back. */
  function SupportHandlers(t: CaseAttempt, company: string): (o: Outcome<CompanyStatus>)
  {
    var writes := if t.master.Some? then [t.master.value] else [];
    match t.exit
    case Returned(s) => Outcome(Returned(CompanyStatus(s, company)), writes, [], [])
    case Raised(e) =>
      if e.ClientErr? then
        if t.master.None? then Outcome(Raised(TypeErr(NONE_NOT_SUBSCRIPTABLE)), [], [], [])
        else
          var acc := t.master.value;
          var l := LogError(Some(acc.accountId), Some(acc.companyName), LOE, e.code + ": " + e.message, Some(e), true,
                            acc.slackHandle);
          Outcome(Returned(CompanyStatus(Wait, company)), [acc.(error := Some(l.text))], l.published, [])
      else
        var l := LogError(None, Some(company), LOE, "", Some(e), true, None);
        Outcome(Raised(e), writes, l.published, [])
  }

  /** The enabled step once `get_master_account` answered `m`. */
  function SupportAfter(m: MasterLookup, cfg: Config, company: string, resp: SupportResponses)
    : (o: Outcome<CompanyStatus>)
  {
    var t := SupportBody(m, cfg, resp);
    var h := SupportHandlers(t, company);
    Outcome(h.result, h.writes, h.published, t.requests)
  }

  /** `lambda_handler(event)` of the support-case step for `event["CompanyName"]`. When
      `CREATE_SUPPORT_CASE` is not "TRUE" nothing is looked up; otherwise the lookup's own
      notice (several masters) comes first. */
  ghost function SupportSpec(items: map<Key, Record>, cfg: Config, company: string, resp: SupportResponses)
    : (o: Outcome<CompanyStatus>)
  {
    if cfg.createSupportCase != Some(TRUE) then Outcome(Returned(CompanyStatus(Completed, company)), [], [], [])
    else
      var m := GetMasterAccount(items, company);
      var a := SupportAfter(m, cfg, company, resp);
      Outcome(a.result, a.writes, m.published + a.published, a.requests)
  }

  // ---- Properties ----

  /** With the gate off the step is Completed at once: no lookup, no call, no write. */
  lemma DisabledCompletes(items: map<Key, Record>, cfg: Config, company: string, resp: SupportResponses)
    requires cfg.createSupportCase != Some(TRUE)
    ensures SupportSpec(items, cfg, company, resp) == Outcome(Returned(CompanyStatus(Completed, company)), [], [], [])
  {
  }

  /** A recorded case is described once; the step is Completed, with `SupportCaseStatus`
      set to "resolved", exactly when the case's status is "resolved" in any letter case,
      and waits otherwise with the record unchanged. */
  lemma ResolvedIffCompleted(acc: Record, cfg: Config, company: string, resp: SupportResponses)
    requires HasCase(acc) && resp.existing.Ok? && resp.existing.value != [] && resp.existing.value[0].status.Some?
    ensures var st := resp.existing.value[0].status.value;
      var o := SupportAfter(MasterLookup(Returned(Some(acc)), []), cfg, company, resp);
      o.requests == [DescribeCase(acc.supportCaseId.value)] && o.published == []
      && (o.result == Returned(CompanyStatus(Completed, company)) <==> Lower(st) == RESOLVED)
      && (Lower(st) == RESOLVED ==> o.writes == [acc.(supportCaseStatus := Some(RESOLVED))])
      && (Lower(st) != RESOLVED ==> o.result == Returned(CompanyStatus(Wait, company)) && o.writes == [acc])
  {
  }

  /** Without a case id a case is opened, with a subject naming the payer account and the
      configured cc addresses; the step is never Completed in that call, and once both
      calls went through the new case's id, display id and status are stored. */
  lemma NewCaseWaits(acc: Record, cfg: Config, company: string, resp: SupportResponses)
    requires !HasCase(acc)
    ensures var o := SupportAfter(MasterLookup(Returned(Some(acc)), []), cfg, company, resp);
      o.result != Returned(CompanyStatus(Completed, company))
      && o.requests[0] == CreateCase(SupportCaseSubject(acc.accountId), cfg.caseCcEmails)
      && Contains(SupportCaseSubject(acc.accountId), acc.accountId)
      && (resp.created.Ok? && resp.describeNew.Ok? && resp.describeNew.value != [] ==>
            var c := resp.describeNew.value[0];
            o.result == Returned(CompanyStatus(Wait, company))
            && o.requests == [CreateCase(SupportCaseSubject(acc.accountId), cfg.caseCcEmails),
                              DescribeCase(resp.created.value)]
            && o.writes == [acc.(supportCaseId := Some(resp.created.value), supportCaseDisplayId := c.displayId,
                                 supportCaseStatus := c.status)])
  {
  }

  /** A ClientError of a Support call is recorded on the master as "code: message",
      notified with the master's Slack handle, and swallowed: the step answers Wait. */
  lemma ClientErrorWaits(acc: Record, cfg: Config, company: string, resp: SupportResponses)
    requires CaseBody(acc, cfg, resp).exit.Raised? && CaseBody(acc, cfg, resp).exit.exc.ClientErr?
    ensures var e := CaseBody(acc, cfg, resp).exit.exc;
      var o := SupportAfter(MasterLookup(Returned(Some(acc)), []), cfg, company, resp);
      o.result == Returned(CompanyStatus(Wait, company))
      && o.writes == [acc.(error := Some(e.code + ": " + e.message))]
      && |o.published| == 1 && o.published[0].notice.errorType == LOE
      && o.published[0].notice.slackHandle == acc.slackHandle
  {
  }

  /** Any other exception is notified for the company, with no account, and re-raised. */
  lemma OtherErrorsReraised(m: MasterLookup, cfg: Config, company: string, resp: SupportResponses)
    requires SupportBody(m, cfg, resp).exit.Raised? && !SupportBody(m, cfg, resp).exit.exc.ClientErr?
    ensures var o := SupportAfter(m, cfg, company, resp);
      o.result == Raised(SupportBody(m, cfg, resp).exit.exc)
      && |o.published| == 1 && o.published[0].notice.accountId == None
      && o.published[0].notice.companyName == Some(company)
  {
  }

  /** The step works on the master record: the record it loads is written back exactly
      once, keyed as before and with only its support-case columns and `Error` changed;
      when no master is loaded nothing is written. */
  lemma MasterPersisted(m: MasterLookup, cfg: Config, company: string, resp: SupportResponses)
    ensures var o := SupportAfter(m, cfg, company, resp);
      (m.result.Returned? && m.result.value.Some? <==> |o.writes| == 1)
      && (|o.writes| != 1 ==> o.writes == [])
      && (|o.writes| == 1 ==>
            var acc := m.result.value.value;
            o.writes[0] == acc.(supportCaseId := o.writes[0].supportCaseId,
                                supportCaseDisplayId := o.writes[0].supportCaseDisplayId,
                                supportCaseStatus := o.writes[0].supportCaseStatus, error := o.writes[0].error))
  {
  }

  /** The step is Completed only with the gate off or for a master whose recorded case,
      described, reports "resolved"; every answer is for the event's company. */
  lemma CompletedOnlyWhenResolved(items: map<Key, Record>, cfg: Config, company: string, resp: SupportResponses)
    ensures var o := SupportSpec(items, cfg, company, resp);
      var m := GetMasterAccount(items, company);
      (o.result.Returned? ==> o.result.value.companyName == company)
      && (o.result == Returned(CompanyStatus(Completed, company)) ==>
            cfg.createSupportCase != Some(TRUE)
            || (m.result.Returned? && m.result.value.Some? && HasCase(m.result.value.value)
                && resp.existing.Ok? && resp.existing.value != [] && resp.existing.value[0].status.Some?
                && Lower(resp.existing.value[0].status.value) == RESOLVED))
  {
  }

  // ---- The step ----

  method CaseBodyRun(b: Backend, acc: Record, cfg: Config, resp: SupportResponses)
    returns (exit: StepResult<Signal>, account: Record)
    modifies b`requests
    ensures var t := CaseBody(acc, cfg, resp);
      exit == t.exit && t.master == Some(account) && b.requests == old(b.requests) + t.requests
  {
    account := acc;
    if HasCase(account) {
      b.Send(DescribeCase(account.supportCaseId.value));
      if !resp.existing.Ok? {
        return Raised(Raise(resp.existing)), account;
      }
      var cases := resp.existing.value;
      if cases == [] {
        return Raised(IndexErr), account;
      }
      var status := cases[0].status;
      if status.None? {
        return Raised(AttrErr(NONE_HAS_NO_LOWER)), account;
      }
      if Lower(status.value) == RESOLVED {
        account := account.(supportCaseStatus := Some(RESOLVED));
        exit := Returned(Completed);
      } else {
        exit := Returned(Wait);
      }
    } else {
      b.Send(CreateCase(SupportCaseSubject(account.accountId), cfg.caseCcEmails));
      if !resp.created.Ok? {
        return Raised(Raise(resp.created)), account;
      }
      var caseId := resp.created.value;
      b.Send(DescribeCase(caseId));
      if !resp.describeNew.Ok? {
        return Raised(Raise(resp.describeNew)), account;
      }
      var cases := resp.describeNew.value;
      if cases == [] {
        return Raised(IndexErr), account;
      }
      account := account.(supportCaseId := Some(caseId), supportCaseDisplayId := cases[0].displayId,
                          supportCaseStatus := cases[0].status);
      exit := Returned(Wait);
    }
  }

  method SupportBodyRun(b: Backend, m: MasterLookup, cfg: Config, resp: SupportResponses)
    returns (exit: StepResult<Signal>, master: Option<Record>)
    modifies b`requests
    ensures var t := SupportBody(m, cfg, resp);
      exit == t.exit && master == t.master && b.requests == old(b.requests) + t.requests
  {
    if m.result.Raised? {
      return Raised(m.result.exc), None;
    }
    if m.result.value.None? {
      return Raised(IndexErr), None;
    }
    var account;
    exit, account := CaseBodyRun(b, m.result.value.value, cfg, resp);
    master := Some(account);
  }

  method SupportHandlersRun(b: Backend, exit: StepResult<Signal>, master: Option<Record>, company: string, now: int)
    returns (r: StepResult<CompanyStatus>)
    modifies b`items, b`published
    ensures var h := SupportHandlers(CaseAttempt(exit, master, []), company);
      r == h.result && b.items == ApplyWrites(old(b.items), h.writes, now)
      && b.published == old(b.published) + h.published
  {
    var account := master;
    var status := Wait;
    if exit.Returned? {
      status := exit.value;
      r := Returned(CompanyStatus(status, company));
    } else {
      var e := exit.exc;
      if e.ClientErr? {
        if account.None? {
          return Raised(TypeErr(NONE_NOT_SUBSCRIPTABLE));
        }
        var acc := account.value;
        var l := LogError(Some(acc.accountId), Some(acc.companyName), LOE, e.code + ": " + e.message, Some(e), true,
                          acc.slackHandle);
        b.Publish(l.published);
        account := Some(acc.(error := Some(l.text)));
        r := Returned(CompanyStatus(status, company));
      } else {
        var l := LogError(None, Some(company), LOE, "", Some(e), true, None);
        b.Publish(l.published);
        r := Raised(e);
      }
    }
    if account.Some? {
      b.Put(account.value, now);
    }
  }

  method SupportAfterRun(b: Backend, m: MasterLookup, cfg: Config, company: string, resp: SupportResponses, now: int)
    returns (r: StepResult<CompanyStatus>)
    modifies b
    ensures var o := SupportAfter(m, cfg, company, resp);
      r == o.result && Realizes(b, o, now)
  {
    var exit, master := SupportBodyRun(b, m, cfg, resp);
    ghost var t := SupportBody(m, cfg, resp);
    assert SupportHandlers(CaseAttempt(exit, master, []), company) == SupportHandlers(t, company);
    r := SupportHandlersRun(b, exit, master, company, now);
  }

  /** `lambda_handler(event)`: with the gate off, Completed and nothing touched; with it on,
      `m` is the answer of `get_master_account` and the rest is `SupportAfter` after it. */
  method OpenSupportCase(b: Backend, cfg: Config, company: string, resp: SupportResponses, now: int)
    returns (r: StepResult<CompanyStatus>, ghost m: MasterLookup)
    modifies b
    ensures cfg.createSupportCase != Some(TRUE) ==>
      r == Returned(CompanyStatus(Completed, company))
      && b.items == old(b.items) && b.published == old(b.published) && b.requests == old(b.requests)
    ensures cfg.createSupportCase == Some(TRUE) ==>
      m == GetMasterAccount(old(b.items), company)
      && var a := SupportAfter(m, cfg, company, resp);
         r == a.result && b.items == ApplyWrites(old(b.items), a.writes, now)
         && b.published == old(b.published) + m.published + a.published && b.requests == old(b.requests) + a.requests
  {
    m := MasterLookup(Returned(None), []);
    if cfg.createSupportCase != Some(TRUE) {
      return Returned(CompanyStatus(Completed, company)), m;
    }
    var lookup := QueryMaster(b, company);
    m := lookup;
    r := SupportAfterRun(b, lookup, cfg, company, resp, now);
    ConcatAssoc(old(b.published), m.published, SupportAfter(m, cfg, company, resp).published);
  }
}
