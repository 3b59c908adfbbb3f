/** The company-wide role step: in the company's master account, if there is one, the
    migration roles are created; the workflow then takes the linked-account flow, or the
    standalone flow when the company has no master account. */
module CreateMasterRoles {
  import opened Documents
  import opened Constant
  import opened Base
  import opened MeLogger
  import opened Store
  import opened Util

  /** The answers of the calls the step makes: the role assumption into the master
      account, and the role calls of `create_roles` there. */
  datatype MasterRolesResponses = MasterRolesResponses(session: Aws<()>, roles: string -> RoleResponses)

  /** How the try block ended, with the master record it loaded, if any (`account`), and
      the requests it made. */
  datatype MasterAttempt = MasterAttempt(exit: StepResult<Signal>, master: Option<Record>, requests: seq<Request>)

  /** From the master record on: the role assumption and `create_roles` in the master account. */
  function MasterRoles(master: Record, cfg: Config, resp: MasterRolesResponses): (t: MasterAttempt)
  {
    var q1 := [AssumeRole(master.accountId, master.adminRole, None)];
    if !resp.session.Ok? then MasterAttempt(Raised(Raise(resp.session)), Some(master), q1)
    else
      var s := ConfiguredRoles(master.accountId, cfg.masterAccountId, resp.roles);
      MasterAttempt(if s.failure.Some? then Raised(s.failure.value) else Returned(LinkedAccountFlow),
                    Some(master), q1 + s.requests)
  }

  /** The try block of `lambda_handler`, once `get_master_account` answered `m`. */
  function MasterRolesBody(m: MasterLookup, cfg: Config, resp: MasterRolesResponses): (t: MasterAttempt)
  {
    if m.result.Raised? then MasterAttempt(Raised(m.result.exc), None, [])
    else if m.result.value.None? then MasterAttempt(Returned(StandaloneAccountFlow), None, [])
    else MasterRoles(m.result.value.value, cfg, resp)
  }

  /** The except clauses, the `finally` (the master record, when loaded, is written back)
      and the returned `Data`. */
  function MasterRolesHandlers(t: MasterAttempt, ev: CompanyEvent, ns: nat): (o: Outcome<FlowData>)
  {
    var writes := if t.master.Some? then [t.master.value] else [];
    match t.exit
    case Returned(s) =>
      var id := if t.master.Some? then Some(t.master.value.accountId) else None;
      Outcome(Returned(FlowData(s, ev.companyName, id, ProcessName(ev.companyName, IdText(id), ns))), writes, [], [])
    case Raised(e) =>
      if e.ClientErr? then
        if t.master.None? then Outcome(Raised(TypeErr(NONE_NOT_SUBSCRIPTABLE)), [], [], [])
        else
          var acc := t.master.value;
          var l := LogError(Some(acc.accountId), Some(acc.companyName), CRME, "", Some(e), true, acc.slackHandle);
          Outcome(Raised(e), [acc.(error := Some(l.text))], l.published, [])
      else if ev.accountId.None? then Outcome(Raised(KeyErr("AccountId")), writes, [], [])
      else if t.master.None? then Outcome(Raised(AttrErr(NONE_HAS_NO_GET)), [], [], [])
      else
        var l := LogError(ev.accountId, Some(t.master.value.companyName), CRME, "", Some(e), true, None);
        Outcome(Raised(e), writes, l.published, [])
  }

  /** The step once `get_master_account` answered `m`. */
  function MasterRolesAfter(m: MasterLookup, cfg: Config, ev: CompanyEvent, resp: MasterRolesResponses, ns: nat)
    : (o: Outcome<FlowData>)
  {
    var t := MasterRolesBody(m, cfg, resp);
    var h := MasterRolesHandlers(t, ev, ns);
    Outcome(h.result, h.writes, h.published, t.requests)
  }

  /** `lambda_handler(event)` of the master-role step; `ns` is `time.monotonic_ns()`. The
      lookup's own notice (several masters) comes first. */
  ghost function MasterRolesSpec(items: map<Key, Record>, cfg: Config, ev: CompanyEvent,
                                 resp: MasterRolesResponses, ns: nat): (o: Outcome<FlowData>)
  {
    var m := GetMasterAccount(items, ev.companyName);
    var a := MasterRolesAfter(m, cfg, ev, resp, ns);
    Outcome(a.result, a.writes, m.published + a.published, a.requests)
  }

  // ---- Properties ----

  /** Without a master account the step takes the standalone flow, with no account id,
      touching nothing. */
  lemma NoMasterStandalone(items: map<Key, Record>, cfg: Config, ev: CompanyEvent, resp: MasterRolesResponses, ns: nat)
    requires Select(items, ev.companyName, TypeIs(Master)) == {}
    ensures MasterRolesSpec(items, cfg, ev, resp, ns)
      == Outcome(Returned(FlowData(StandaloneAccountFlow, ev.companyName, None, ProcessName(ev.companyName, "None", ns))),
                 [], [], [])
  {
  }

  /** With one master account whose roles all go through, the step takes the linked flow
      (the default) for that account, after assuming its admin role and running the role
      loop inside it; the master record is written back unchanged. */
  lemma OneMasterLinkedFlow(items: map<Key, Record>, cfg: Config, ev: CompanyEvent, resp: MasterRolesResponses,
                            ns: nat, k: Key)
    requires Select(items, ev.companyName, TypeIs(Master)) == {k}
    requires resp.session.Ok? && ConfiguredRoles(items[k].accountId, cfg.masterAccountId, resp.roles).failure.None?
    ensures var m := items[k];
      var o := MasterRolesSpec(items, cfg, ev, resp, ns);
      o.result == Returned(FlowData(LinkedAccountFlow, ev.companyName, Some(m.accountId),
                                    ProcessName(ev.companyName, m.accountId, ns)))
      && o.writes == [m] && o.published == []
      && o.requests == [AssumeRole(m.accountId, m.adminRole, None)]
                       + ConfiguredRoles(m.accountId, cfg.masterAccountId, resp.roles).requests
  {
    GetMasterAccountUnique(items, ev.companyName, k);
  }

  /** A ClientError in the master account is recorded in the master's `Error`, notified with
      its Slack handle, persisted and re-raised. */
  lemma ClientErrorRecordedOnMaster(items: map<Key, Record>, cfg: Config, ev: CompanyEvent,
                                    resp: MasterRolesResponses, ns: nat, k: Key)
    requires Select(items, ev.companyName, TypeIs(Master)) == {k}
    requires MasterRoles(items[k], cfg, resp).exit.Raised? && MasterRoles(items[k], cfg, resp).exit.exc.ClientErr?
    ensures var m := items[k];
      var e := MasterRoles(m, cfg, resp).exit.exc;
      var o := MasterRolesSpec(items, cfg, ev, resp, ns);
      o.result == Raised(e) && o.writes == [m.(error := Some(ExcText(Some(e))))]
      && |o.published| == 1 && o.published[0].ErrorNotice?
      && o.published[0].notice.errorType == CRME && o.published[0].notice.slackHandle == m.slackHandle
  {
    GetMasterAccountUnique(items, ev.companyName, k);
  }

  /** Any other exception in the master account is notified under the event's account id and
      re-raised, with the master record written back; an event without `AccountId` makes
      the handler itself raise KeyError, and the notice is lost. */
  lemma OtherErrorReraised(items: map<Key, Record>, cfg: Config, ev: CompanyEvent,
                           resp: MasterRolesResponses, ns: nat, k: Key)
    requires Select(items, ev.companyName, TypeIs(Master)) == {k}
    requires MasterRoles(items[k], cfg, resp).exit.Raised? && !MasterRoles(items[k], cfg, resp).exit.exc.ClientErr?
    ensures var m := items[k];
      var e := MasterRoles(m, cfg, resp).exit.exc;
      var o := MasterRolesSpec(items, cfg, ev, resp, ns);
      o.writes == [m]
      && (ev.accountId.Some? ==>
            o.result == Raised(e) && |o.published| == 1 && o.published[0].ErrorNotice?
            && o.published[0].notice.accountId == ev.accountId && o.published[0].notice.errorType == CRME)
      && (ev.accountId.None? ==> o.result == Raised(KeyErr("AccountId")) && o.published == [])
  {
    GetMasterAccountUnique(items, ev.companyName, k);
  }

  /** Several master accounts: the lookup's notice is the only one published; the except
      clause then fails on the missing record (KeyError when the event has no account id,
      AttributeError otherwise) and nothing is written or requested. */
  lemma SeveralMastersFailInHandler(items: map<Key, Record>, cfg: Config, ev: CompanyEvent,
                                    resp: MasterRolesResponses, ns: nat)
    requires |Select(items, ev.companyName, TypeIs(Master))| > 1
    ensures var o := MasterRolesSpec(items, cfg, ev, resp, ns);
      o.writes == [] && o.requests == []
      && o.published == GetMasterAccount(items, ev.companyName).published && |o.published| == 1
      && o.result == (if ev.accountId.None? then Raised(KeyErr("AccountId")) else Raised(AttrErr(NONE_HAS_NO_GET)))
  {
  }

  /** The returned `Data` names the company, carries the master's id exactly when the
      linked flow is taken, and a process name prefixed with company and id. */
  lemma FlowDataShape(items: map<Key, Record>, cfg: Config, ev: CompanyEvent, resp: MasterRolesResponses, ns: nat)
    requires MasterRolesSpec(items, cfg, ev, resp, ns).result.Returned?
    ensures var d := MasterRolesSpec(items, cfg, ev, resp, ns).result.value;
      d.companyName == ev.companyName
      && (d.status == LinkedAccountFlow || d.status == StandaloneAccountFlow)
      && (d.accountId.Some? <==> d.status == LinkedAccountFlow)
      && (d.status == StandaloneAccountFlow <==> Select(items, ev.companyName, TypeIs(Master)) == {})
      && ev.companyName + "-" + IdText(d.accountId) + "-" <= d.processName
  {
  }

  // ---- The step ----

  method MasterRolesRun(b: Backend, master: Record, cfg: Config, resp: MasterRolesResponses)
    returns (exit: StepResult<Signal>)
    modifies b
    ensures var t := MasterRoles(master, cfg, resp);
      exit == t.exit && b.requests == old(b.requests) + t.requests
      && b.items == old(b.items) && b.published == old(b.published)
  {
    b.Send(AssumeRole(master.accountId, master.adminRole, None));
    if !resp.session.Ok? {
      return Raised(Raise(resp.session));
    }
    var created := CreateRoles(b, master.accountId, cfg.masterAccountId, resp.roles);
    exit := if created.Raised? then Raised(created.exc) else Returned(LinkedAccountFlow);
  }

  method MasterRolesBodyRun(b: Backend, m: MasterLookup, cfg: Config, resp: MasterRolesResponses)
    returns (exit: StepResult<Signal>, master: Option<Record>)
    modifies b
    ensures var t := MasterRolesBody(m, cfg, resp);
      exit == t.exit && master == t.master && b.requests == old(b.requests) + t.requests
      && b.items == old(b.items) && b.published == old(b.published)
  {
    if m.result.Raised? {
      return Raised(m.result.exc), None;
    }
    if m.result.value.None? {
      return Returned(StandaloneAccountFlow), None;
    }
    master := m.result.value;
    exit := MasterRolesRun(b, master.value, cfg, resp);
  }

  method MasterRolesHandlersRun(b: Backend, exit: StepResult<Signal>, master: Option<Record>, ev: CompanyEvent,
                                ns: nat, now: int)
    returns (r: StepResult<FlowData>)
    modifies b
    ensures var h := MasterRolesHandlers(MasterAttempt(exit, master, []), ev, ns);
      r == h.result && b.items == ApplyWrites(old(b.items), h.writes, now)
      && b.published == old(b.published) + h.published && b.requests == old(b.requests)
  {
    var account := master;
    if exit.Returned? {
      var id := if account.Some? then Some(account.value.accountId) else None;
      r := Returned(FlowData(exit.value, ev.companyName, id, ProcessName(ev.companyName, IdText(id), ns)));
    } else {
      var e := exit.exc;
      if e.ClientErr? {
        if account.None? {
          return Raised(TypeErr(NONE_NOT_SUBSCRIPTABLE));
        }
        var acc := account.value;
        var l := LogError(Some(acc.accountId), Some(acc.companyName), CRME, "", Some(e), true, acc.slackHandle);
        b.Publish(l.published);
        account := Some(acc.(error := Some(l.text)));
        r := Raised(e);
      } else if ev.accountId.None? {
        r := Raised(KeyErr("AccountId"));
      } else if account.None? {
        return Raised(AttrErr(NONE_HAS_NO_GET));
      } else {
        var l := LogError(ev.accountId, Some(account.value.companyName), CRME, "", Some(e), true, None);
        b.Publish(l.published);
        r := Raised(e);
      }
    }
    if account.Some? {
      b.Put(account.value, now);
    }
  }

  method MasterRolesAfterRun(b: Backend, m: MasterLookup, cfg: Config, ev: CompanyEvent, resp: MasterRolesResponses,
                             ns: nat, now: int)
    returns (r: StepResult<FlowData>)
    modifies b
    ensures var o := MasterRolesAfter(m, cfg, ev, resp, ns);
      r == o.result && Realizes(b, o, now)
  {
    var exit, master := MasterRolesBodyRun(b, m, cfg, resp);
    ghost var t := MasterRolesBody(m, cfg, resp);
    assert MasterRolesHandlers(MasterAttempt(exit, master, []), ev, ns) == MasterRolesHandlers(t, ev, ns);
    r := MasterRolesHandlersRun(b, exit, master, ev, ns, now);
  }

  /** `lambda_handler(event)`, with the master record (when loaded) written back in `finally`:
      `m` is the answer of `get_master_account`, and the rest is `MasterRolesSpec` after it. */
  method SetUpMasterRoles(b: Backend, cfg: Config, ev: CompanyEvent, resp: MasterRolesResponses, ns: nat, now: int)
    returns (r: StepResult<FlowData>, ghost m: MasterLookup)
    modifies b
    ensures m == GetMasterAccount(old(b.items), ev.companyName)
    ensures var a := MasterRolesAfter(m, cfg, ev, resp, ns);
      r == a.result && b.items == ApplyWrites(old(b.items), a.writes, now)
      && b.published == old(b.published) + m.published + a.published && b.requests == old(b.requests) + a.requests
  {
    var lookup := QueryMaster(b, ev.companyName);
    m := lookup;
    r := MasterRolesAfterRun(b, lookup, cfg, ev, resp, ns, now);
  }
}
