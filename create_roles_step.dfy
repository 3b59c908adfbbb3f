/** The per-account role step: the migration roles are created in the account, reached
    through the company's master account when the account is a linked one. */
module CreateRolesStep {
  import opened Documents
  import opened Constant
  import opened Base
  import opened MeLogger
  import opened Store
  import opened Util

  /** The answers of the calls the step makes: the role assumption into the master account
      (linked accounts only), the one into the account, and the role calls there. */
  datatype AccountRolesResponses = AccountRolesResponses(
    masterSession: Aws<()>, session: Aws<()>, roles: string -> RoleResponses)

  /** The lookup a non-linked account never makes. */
  const NO_LOOKUP := MasterLookup(Returned(None), [])

  /** From the account's own session on: `create_roles` in the account, and the signal its
      type calls for. `via` is the master account the session hops through. */
  function InAccount(acc: Record, via: Option<string>, cfg: Config, resp: AccountRolesResponses,
                     sent: seq<Request>): (t: Attempt<Signal>)
  {
    var q := sent + [AssumeRole(acc.accountId, acc.adminRole, via)];
    if !resp.session.Ok? then Attempt(Raised(Raise(resp.session)), acc, [], q)
    else
      var s := ConfiguredRoles(acc.accountId, cfg.masterAccountId, resp.roles);
      var signal := if acc.accountType == Standalone then StandaloneAccountFlow else Completed;
      Attempt(if s.failure.Some? then Raised(s.failure.value) else Returned(signal), acc, [], q + s.requests)
  }

  /** The try block of `lambda_handler`, given the record and, for a linked account, the
      answer `m` of `get_master_account`; `[0]` of an empty answer is an IndexError. */
  function RolesBody(acc: Record, m: MasterLookup, cfg: Config, resp: AccountRolesResponses): (t: Attempt<Signal>)
  {
    if acc.accountType != Linked then InAccount(acc, None, cfg, resp, [])
    else if m.result.Raised? then Attempt(Raised(m.result.exc), acc, [], [])
    else if m.result.value.None? then Attempt(Raised(IndexErr), acc, [], [])
    else
      var master := m.result.value.value;
      var q1 := [AssumeRole(master.accountId, master.adminRole, None)];
      if !resp.masterSession.Ok? then Attempt(Raised(Raise(resp.masterSession)), acc, [], q1)
      else InAccount(acc, Some(master.accountId), cfg, resp, q1)
  }

  /** The except clauses, the `finally` (the record is written back, and the event gets its
      company, account and process name) and the returned `Data`. A ClientError writes the
      record twice: once in the except clause and once in `finally`. */
  function RolesHandlers(t: Attempt<Signal>, ev: StepInput, ns: nat): (o: Outcome<FlowData>)
  {
    var data := (s: Signal) => FlowData(s, ev.companyName, Some(ev.accountId), ProcessName(ev.companyName, ev.accountId, ns));
    match t.exit
    case Returned(s) => Outcome(Returned(data(s)), [t.account], [], [])
    case Raised(e) =>
      if e.ClientErr? then
        var l := LogError(Some(ev.accountId), Some(ev.companyName), CRLE, "", Some(e), true, t.account.slackHandle);
        var acc := t.account.(error := Some(l.text));
        Outcome(Returned(data(Wait)), [acc, acc], l.published, [])
      else
        var l := LogError(Some(t.account.accountId), Some(t.account.companyName), CRLE, "", Some(e), true, None);
        Outcome(Raised(e), [t.account], l.published, [])
  }

  /** The step once the record was loaded and the master looked up (`m`). */
  function AccountRolesAfter(acc: Record, m: MasterLookup, cfg: Config, ev: StepInput, resp: AccountRolesResponses, ns: nat)
    : (o: Outcome<FlowData>)
  {
    var t := RolesBody(acc, m, cfg, resp);
    var h := RolesHandlers(t, ev, ns);
    Outcome(h.result, h.writes, h.published, t.requests)
  }

  /** The master lookup the step makes: only for a linked account. */
  ghost function LookupFor(items: map<Key, Record>, ev: Event): MasterLookup
  {
    var i := Unwrap(ev);
    var found := AccountById(items, i.companyName, i.accountId);
    if found.Some? && found.value.accountType == Linked then GetMasterAccount(items, i.companyName) else NO_LOOKUP
  }

  /** `lambda_handler(event)` of the role step; `ns` is `time.monotonic_ns()`. The record
      is read before the try block, so a missing one is an IndexError with no notice and no
      write; the lookup's own notice (several masters) comes first. */
  ghost function RolesStepSpec(items: map<Key, Record>, cfg: Config, ev: Event, resp: AccountRolesResponses, ns: nat)
    : (o: Outcome<FlowData>)
  {
    var i := Unwrap(ev);
    if (i.companyName, i.accountId) !in items then Outcome(Raised(IndexErr), [], [], [])
    else
      var m := LookupFor(items, ev);
      var a := AccountRolesAfter(items[(i.companyName, i.accountId)], m, cfg, i, resp, ns);
      Outcome(a.result, a.writes, m.published + a.published, a.requests)
  }

  // ---- Properties ----

  /** A missing record raises IndexError before the try block: nothing is notified,
      requested or written. */
  lemma MissingRecordUnlogged(items: map<Key, Record>, cfg: Config, ev: Event, resp: AccountRolesResponses, ns: nat)
    requires (Unwrap(ev).companyName, Unwrap(ev).accountId) !in items
    ensures RolesStepSpec(items, cfg, ev, resp, ns) == Outcome(Raised(IndexErr), [], [], [])
  {
  }

  /** A linked account is reached through the company's only master account: its admin
      role is assumed first, and the account's role from that session. */
  lemma LinkedThroughMaster(acc: Record, items: map<Key, Record>, cfg: Config, ev: StepInput,
                            resp: AccountRolesResponses, ns: nat, k: Key)
    requires acc.accountType == Linked && Select(items, acc.companyName, TypeIs(Master)) == {k}
    requires resp.masterSession.Ok?
    ensures var master := items[k];
      var o := AccountRolesAfter(acc, GetMasterAccount(items, acc.companyName), cfg, ev, resp, ns);
      |o.requests| >= 2
      && o.requests[0] == AssumeRole(master.accountId, master.adminRole, None)
      && o.requests[1] == AssumeRole(acc.accountId, acc.adminRole, Some(master.accountId))
  {
    GetMasterAccountUnique(items, acc.companyName, k);
  }

  /** Any other account is reached directly: the only role assumption is into the account,
      and the rest are the role loop's calls there. */
  lemma OthersDirect(acc: Record, m: MasterLookup, cfg: Config, ev: StepInput, resp: AccountRolesResponses, ns: nat)
    requires acc.accountType != Linked
    ensures var o := AccountRolesAfter(acc, m, cfg, ev, resp, ns);
      o.requests == [AssumeRole(acc.accountId, acc.adminRole, None)]
                    + (if resp.session.Ok? then ConfiguredRoles(acc.accountId, cfg.masterAccountId, resp.roles).requests else [])
  {
  }

  /** A linked account whose company has no master account fails on `[0]`: the IndexError
      is notified under the account and re-raised, and the record written back. */
  lemma LinkedWithoutMasterRaises(acc: Record, items: map<Key, Record>, cfg: Config, ev: StepInput,
                                  resp: AccountRolesResponses, ns: nat)
    requires acc.accountType == Linked && Select(items, acc.companyName, TypeIs(Master)) == {}
    ensures var o := AccountRolesAfter(acc, GetMasterAccount(items, acc.companyName), cfg, ev, resp, ns);
      o.result == Raised(IndexErr) && o.writes == [acc] && o.requests == []
      && |o.published| == 1 && o.published[0].ErrorNotice? && o.published[0].notice.errorType == CRLE
      && o.published[0].notice.accountId == Some(acc.accountId)
  {
  }

  /** When every call goes through, the signal follows the account type: the standalone
      flow for a standalone account, Completed for any other. */
  lemma SignalFollowsType(acc: Record, m: MasterLookup, cfg: Config, ev: StepInput, resp: AccountRolesResponses, ns: nat)
    requires RolesBody(acc, m, cfg, resp).exit.Returned?
    ensures var o := AccountRolesAfter(acc, m, cfg, ev, resp, ns);
      o.result.Returned?
      && o.result.value.status == (if acc.accountType == Standalone then StandaloneAccountFlow else Completed)
      && resp.session.Ok? && ConfiguredRoles(acc.accountId, cfg.masterAccountId, resp.roles).failure.None?
      && o.writes == [acc]
  {
  }

  /** A ClientError is recorded in `Error`, notified under the event's account with the
      record's Slack handle, and turned into Wait; the record is written twice, identically. */
  lemma ClientErrorWaits(acc: Record, m: MasterLookup, cfg: Config, ev: StepInput, resp: AccountRolesResponses,
                         ns: nat, e: Exc)
    requires RolesBody(acc, m, cfg, resp).exit == Raised(e) && e.ClientErr?
    ensures var o := AccountRolesAfter(acc, m, cfg, ev, resp, ns);
      var w := acc.(error := Some(ExcText(Some(e))));
      o.result.Returned? && o.result.value.status == Wait
      && o.writes == [w, w]
      && |o.published| == 1 && o.published[0].ErrorNotice? && o.published[0].notice.errorType == CRLE
      && o.published[0].notice.accountId == Some(ev.accountId) && o.published[0].notice.slackHandle == acc.slackHandle
  {
  }

  /** The step never changes the record's status, key, type or migration flag. */
  lemma StatusUntouched(acc: Record, m: MasterLookup, cfg: Config, ev: StepInput, resp: AccountRolesResponses, ns: nat)
    ensures var o := AccountRolesAfter(acc, m, cfg, ev, resp, ns);
      forall i | 0 <= i < |o.writes| :: SameIdentity(o.writes[i], acc) && o.writes[i].accountStatus == acc.accountStatus
  {
    assert RolesBody(acc, m, cfg, resp).account == acc;
  }

  /** The returned `Data` names the event's account, with a process name prefixed by
      company and account. */
  lemma FlowDataNamesAccount(acc: Record, m: MasterLookup, cfg: Config, ev: StepInput, resp: AccountRolesResponses, ns: nat)
    requires AccountRolesAfter(acc, m, cfg, ev, resp, ns).result.Returned?
    ensures var d := AccountRolesAfter(acc, m, cfg, ev, resp, ns).result.value;
      d.companyName == ev.companyName && d.accountId == Some(ev.accountId)
      && ev.companyName + "-" + ev.accountId + "-" <= d.processName
  {
  }

  // ---- The step ----

  method InAccountRun(b: Backend, acc: Record, via: Option<string>, cfg: Config, resp: AccountRolesResponses)
    returns (exit: StepResult<Signal>)
    modifies b
    ensures var t := InAccount(acc, via, cfg, resp, []);
      exit == t.exit && b.requests == old(b.requests) + t.requests
      && b.items == old(b.items) && b.published == old(b.published)
  {
    b.Send(AssumeRole(acc.accountId, acc.adminRole, via));
    if !resp.session.Ok? {
      return Raised(Raise(resp.session));
    }
    var created := CreateRoles(b, acc.accountId, cfg.masterAccountId, resp.roles);
    if created.Raised? {
      exit := Raised(created.exc);
    } else if acc.accountType == Standalone {
      exit := Returned(StandaloneAccountFlow);
    } else {
      exit := Returned(Completed);
    }
  }

  /** The same end of the try block, after the requests `sent`. */
  lemma InAccountAfter(acc: Record, via: Option<string>, cfg: Config, resp: AccountRolesResponses, sent: seq<Request>)
    ensures var t := InAccount(acc, via, cfg, resp, sent);
      var u := InAccount(acc, via, cfg, resp, []);
      t.exit == u.exit && t.account == u.account && t.requests == sent + u.requests
  {
  }

  method RolesBodyRun(b: Backend, acc: Record, m: MasterLookup, cfg: Config, resp: AccountRolesResponses)
    returns (exit: StepResult<Signal>)
    modifies b
    ensures var t := RolesBody(acc, m, cfg, resp);
      exit == t.exit && t.account == acc && b.requests == old(b.requests) + t.requests
      && b.items == old(b.items) && b.published == old(b.published)
  {
    if acc.accountType != Linked {
      exit := InAccountRun(b, acc, None, cfg, resp);
      return;
    }
    if m.result.Raised? {
      return Raised(m.result.exc);
    }
    if m.result.value.None? {
      return Raised(IndexErr);
    }
    var master := m.result.value.value;
    b.Send(AssumeRole(master.accountId, master.adminRole, None));
    if !resp.masterSession.Ok? {
      return Raised(Raise(resp.masterSession));
    }
    InAccountAfter(acc, Some(master.accountId), cfg, resp, [AssumeRole(master.accountId, master.adminRole, None)]);
    exit := InAccountRun(b, acc, Some(master.accountId), cfg, resp);
  }

  /** The ClientError clause: the error is logged under the event's account and recorded
      in the record, which is written back. */
  method RecordClientError(b: Backend, e: Exc, acc: Record, ev: StepInput, now: int) returns (account: Record)
    modifies b
    ensures var l := LogError(Some(ev.accountId), Some(ev.companyName), CRLE, "", Some(e), true, acc.slackHandle);
      account == acc.(error := Some(l.text)) && b.items == old(b.items)[KeyOf(account) := Stamp(account, now)]
      && b.published == old(b.published) + l.published && b.requests == old(b.requests)
  {
    var l := LogError(Some(ev.accountId), Some(ev.companyName), CRLE, "", Some(e), true, acc.slackHandle);
    b.Publish(l.published);
    account := acc.(error := Some(l.text));
    b.Put(account, now);
  }

  method RolesHandlersRun(b: Backend, exit: StepResult<Signal>, acc: Record, ev: StepInput, ns: nat, now: int)
    returns (r: StepResult<FlowData>)
    modifies b
    ensures var h := RolesHandlers(Attempt(exit, acc, [], []), ev, ns);
      r == h.result && b.items == ApplyWrites(old(b.items), h.writes, now)
      && b.published == old(b.published) + h.published && b.requests == old(b.requests)
  {
    var account := acc;
    var status := Completed;
    if exit.Raised? {
      var e := exit.exc;
      if !e.ClientErr? {
        var l := LogError(Some(account.accountId), Some(account.companyName), CRLE, "", Some(e), true, None);
        b.Publish(l.published);
        b.Put(account, now);
        return Raised(e);
      }
      account := RecordClientError(b, e, account, ev, now);
      WriteTwiceOnce(old(b.items), account, now);
      status := Wait;
    } else {
      status := exit.value;
    }
    b.Put(account, now);
    r := Returned(FlowData(status, ev.companyName, Some(ev.accountId), ProcessName(ev.companyName, ev.accountId, ns)));
  }

  method AccountRolesAfterRun(b: Backend, acc: Record, m: MasterLookup, cfg: Config, ev: StepInput,
                       resp: AccountRolesResponses, ns: nat, now: int)
    returns (r: StepResult<FlowData>)
    modifies b
    ensures var o := AccountRolesAfter(acc, m, cfg, ev, resp, ns);
      r == o.result && b.items == ApplyWrites(old(b.items), o.writes, now)
      && b.published == old(b.published) + o.published && b.requests == old(b.requests) + o.requests
  {
    var exit := RolesBodyRun(b, acc, m, cfg, resp);
    ghost var t := RolesBody(acc, m, cfg, resp);
    assert RolesHandlers(Attempt(exit, acc, [], []), ev, ns) == RolesHandlers(t, ev, ns);
    r := RolesHandlersRun(b, exit, acc, ev, ns, now);
  }

  /** The step once the record `acc` was loaded: the master lookup (`m`, for a linked
      account only), the try block and its handlers. */
  method LoadedRun(b: Backend, acc: Record, cfg: Config, ev: StepInput, resp: AccountRolesResponses, ns: nat, now: int)
    returns (r: StepResult<FlowData>, ghost m: MasterLookup)
    modifies b
    ensures m == if acc.accountType == Linked then GetMasterAccount(old(b.items), ev.companyName) else NO_LOOKUP
    ensures var a := AccountRolesAfter(acc, m, cfg, ev, resp, ns);
      r == a.result && b.items == ApplyWrites(old(b.items), a.writes, now)
      && b.published == old(b.published) + m.published + a.published && b.requests == old(b.requests) + a.requests
  {
    var lookup := NO_LOOKUP;
    if acc.accountType == Linked {
      lookup := QueryMaster(b, ev.companyName);
    }
    m := lookup;
    r := AccountRolesAfterRun(b, acc, lookup, cfg, ev, resp, ns, now);
  }

  /** `lambda_handler(event)`, that is `RolesStepSpec` case by case: `m` is the master
      lookup, made for a linked account only. */
  method CreateAccountRoles(b: Backend, cfg: Config, ev: Event, resp: AccountRolesResponses, ns: nat, now: int)
    returns (r: StepResult<FlowData>, ghost m: MasterLookup)
    modifies b
    ensures m == LookupFor(old(b.items), ev)
    ensures var i := Unwrap(ev);
      (i.companyName, i.accountId) !in old(b.items) ==>
        r == Raised(IndexErr) && b.items == old(b.items) && b.published == old(b.published) && b.requests == old(b.requests)
    ensures var i := Unwrap(ev);
      (i.companyName, i.accountId) in old(b.items) ==>
        var a := AccountRolesAfter(old(b.items)[(i.companyName, i.accountId)], m, cfg, i, resp, ns);
        r == a.result && b.items == ApplyWrites(old(b.items), a.writes, now)
        && b.published == old(b.published) + m.published + a.published && b.requests == old(b.requests) + a.requests
  {
    var i := Unwrap(ev);
    var found := AccountById(b.items, i.companyName, i.accountId);
    if found.None? {
      m := NO_LOOKUP;
      return Raised(IndexErr), m;
    }
    r, m := LoadedRun(b, found.value, cfg, i, resp, ns, now);
  }
}
