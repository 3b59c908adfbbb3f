/** The billing step: probes, from inside the migrated account, whether Cost Explorer
    can be read there, and waits while access is denied. */
module CheckBillingAccess {
  import opened Documents
  import opened Constant
  import opened Base
  import opened MeLogger
  import opened Store

  /** The answers of the calls the step makes: the session in the account and the probe. */
  datatype BillingResponses = BillingResponses(session: Aws<()>, costs: Aws<()>)

  /** The number of days the probe looks back. */
  const PROBE_DAYS := 5
  const ACCESS_DENIED := "AccessDeniedException"

  /** The try block, with `today` the current date as a day number. */
  function BillingBody(acc: Record, ev: StepInput, resp: BillingResponses, today: int): (t: Attempt<Signal>)
  {
    if acc.accountType == Standalone then Attempt(Returned(Completed), acc, [], [])
    else
      var q1 := [AssumeRole(ev.accountId, AWS_MASTER_ROLE, None)];
      if !resp.session.Ok? then Attempt(Raised(Raise(resp.session)), acc, [], q1)
      else
        var q2 := q1 + [GetCostAndUsage(ev.accountId, today - PROBE_DAYS, today)];
        if !resp.costs.Ok? then Attempt(Raised(Raise(resp.costs)), acc, [], q2)
        else Attempt(Returned(Completed), acc, [], q2)
  }

  /** The except clauses and the `finally`: a ClientError is recorded on the account and
      is a Wait when access is denied, and is re-raised otherwise. */
  function BillingHandlers(t: Attempt<Signal>, ev: StepInput): (o: Outcome<Signal>)
  {
    match t.exit
    case Returned(s) => Outcome(Returned(s), [t.account], [], [])
    case Raised(e) =>
      if e.ClientErr? then
        var l := LogError(Some(t.account.accountId), Some(t.account.companyName), OLPE, "", Some(e), true,
                          t.account.slackHandle);
        var r := if e.code == ACCESS_DENIED then Returned(Wait) else Raised(e);
        Outcome(r, [t.account.(error := Some(l.text))], l.published, [])
      else Outcome(Raised(e), [t.account], EventLog(OLPE, ev, e).published, [])
  }

  /** The step once the record was loaded. */
  function BillingAfter(acc: Record, ev: StepInput, resp: BillingResponses, today: int): (o: Outcome<Signal>)
  {
    var t := BillingBody(acc, ev, resp, today);
    var h := BillingHandlers(t, ev);
    Outcome(h.result, h.writes, t.published + h.published, t.requests)
  }

  /** `lambda_handler(event)` of the billing step on `event["Data"]`. A missing record is an
      IndexError: logged and re-raised, and the empty `account` is not written. */
  function BillingSpec(items: map<Key, Record>, ev: StepInput, resp: BillingResponses, today: int): (o: Outcome<Signal>)
  {
    if (ev.companyName, ev.accountId) !in items then Outcome(Raised(IndexErr), [], EventLog(OLPE, ev, IndexErr).published, [])
    else BillingAfter(items[(ev.companyName, ev.accountId)], ev, resp, today)
  }

  // ---- Properties ----

  /** A Standalone account is Completed with no call at all. */
  lemma StandaloneSkipsProbe(acc: Record, ev: StepInput, resp: BillingResponses, today: int)
    requires acc.accountType == Standalone
    ensures BillingAfter(acc, ev, resp, today) == Outcome(Returned(Completed), [acc], [], [])
  {
  }

  /** Any other account is probed under the master role, over the five days ending today. */
  lemma ProbeWindow(acc: Record, ev: StepInput, resp: BillingResponses, today: int)
    requires acc.accountType != Standalone && resp.session.Ok?
    ensures var qs := BillingAfter(acc, ev, resp, today).requests;
      qs == [AssumeRole(ev.accountId, AWS_MASTER_ROLE, None), GetCostAndUsage(ev.accountId, today - 5, today)]
      && qs[1].args[2].i - qs[1].args[1].i == 5
  {
  }

  /** While Cost Explorer answers AccessDeniedException the step waits, with the error
      recorded and one notice. */
  lemma AccessDeniedWaits(acc: Record, ev: StepInput, resp: BillingResponses, today: int, message: string)
    requires acc.accountType != Standalone && resp.session.Ok?
    requires resp.costs == ClientError(ACCESS_DENIED, message)
    ensures var o := BillingAfter(acc, ev, resp, today);
      o.result == Returned(Wait)
      && o.writes == [acc.(error := Some(ExcText(Some(ClientErr(ACCESS_DENIED, message)))))]
      && |o.published| == 1 && o.published[0].notice.errorType == OLPE
      && o.published[0].notice.errorCode == Some(ACCESS_DENIED)
  {
  }

  /** Any other ClientError, of either call, is recorded on the account and re-raised. */
  lemma OtherClientErrorRecordedAndRaised(acc: Record, ev: StepInput, resp: BillingResponses, today: int)
    requires BillingBody(acc, ev, resp, today).exit.Raised?
    requires var e := BillingBody(acc, ev, resp, today).exit.exc; e.ClientErr? && e.code != ACCESS_DENIED
    ensures var e := BillingBody(acc, ev, resp, today).exit.exc;
      var o := BillingAfter(acc, ev, resp, today);
      o.result == Raised(e) && o.writes == [acc.(error := Some(ExcText(Some(e))))]
      && |o.published| == 1 && o.published[0].notice.accountId == Some(acc.accountId)
  {
  }

  /** Completed exactly when the account is Standalone or both calls went through; Wait
      exactly on AccessDeniedException; an exception otherwise. */
  lemma SignalIff(acc: Record, ev: StepInput, resp: BillingResponses, today: int)
    ensures var o := BillingAfter(acc, ev, resp, today);
      (o.result == Returned(Completed) <==> acc.accountType == Standalone || (resp.session.Ok? && resp.costs.Ok?))
      && (o.result == Returned(Wait) <==>
            acc.accountType != Standalone
            && ((resp.session.ClientError? && resp.session.code == ACCESS_DENIED)
                || (resp.session.Ok? && resp.costs.ClientError? && resp.costs.code == ACCESS_DENIED)))
      && (o.result.Returned? ==> o.result.value in {Completed, Wait})
  {
  }

  /** The status column is never changed: a loaded record is written back once, with at
      most its `Error` column changed, and a missing one is never written. */
  lemma StatusNeverModified(items: map<Key, Record>, ev: StepInput, resp: BillingResponses, today: int)
    ensures var o := BillingSpec(items, ev, resp, today);
      (|o.writes| == 1 <==> (ev.companyName, ev.accountId) in items)
      && (|o.writes| == 0 <==> (ev.companyName, ev.accountId) !in items)
      && forall i | 0 <= i < |o.writes| ::
           o.writes[i] == items[(ev.companyName, ev.accountId)].(error := o.writes[i].error)
  {
  }

  // ---- The step ----

  method BillingBodyRun(b: Backend, acc: Record, ev: StepInput, resp: BillingResponses, today: int)
    returns (exit: StepResult<Signal>)
    modifies b
    ensures var t := BillingBody(acc, ev, resp, today);
      exit == t.exit && t.account == acc && t.published == []
      && b.requests == old(b.requests) + t.requests && b.published == old(b.published) && b.items == old(b.items)
  {
    if acc.accountType == Standalone {
      return Returned(Completed);
    }
    b.Send(AssumeRole(ev.accountId, AWS_MASTER_ROLE, None));
    if !resp.session.Ok? {
      return Raised(Raise(resp.session));
    }
    var backDate := today - PROBE_DAYS;
    b.Send(GetCostAndUsage(ev.accountId, backDate, today));
    if !resp.costs.Ok? {
      return Raised(Raise(resp.costs));
    }
    exit := Returned(Completed);
  }

  method BillingHandlersRun(b: Backend, exit: StepResult<Signal>, acc: Record, ev: StepInput, now: int)
    returns (r: StepResult<Signal>)
    modifies b
    ensures var h := BillingHandlers(Attempt(exit, acc, [], []), ev);
      r == h.result && b.items == ApplyWrites(old(b.items), h.writes, now)
      && b.published == old(b.published) + h.published && b.requests == old(b.requests)
  {
    var account := acc;
    r := exit;
    if exit.Raised? {
      var e := exit.exc;
      if e.ClientErr? {
        var l := LogError(Some(account.accountId), Some(account.companyName), OLPE, "", Some(e), true,
                          account.slackHandle);
        b.Publish(l.published);
        account := account.(error := Some(l.text));
        if e.code == ACCESS_DENIED {
          r := Returned(Wait);
        }
      } else {
        b.Publish(EventLog(OLPE, ev, e).published);
      }
    }
    b.Put(account, now);
  }

  method BillingAfterRun(b: Backend, acc: Record, ev: StepInput, resp: BillingResponses, today: int, now: int)
    returns (r: StepResult<Signal>)
    modifies b
    ensures var o := BillingAfter(acc, ev, resp, today);
      r == o.result && Realizes(b, o, now)
  {
    var exit := BillingBodyRun(b, acc, ev, resp, today);
    ghost var t := BillingBody(acc, ev, resp, today);
    assert BillingHandlers(Attempt(exit, acc, [], []), ev) == BillingHandlers(t, ev);
    r := BillingHandlersRun(b, exit, acc, ev, now);
  }

  /** `lambda_handler(event)` on `event["Data"]`, that is `BillingSpec` case by case. */
  method CheckBilling(b: Backend, ev: StepInput, resp: BillingResponses, today: int, now: int)
    returns (r: StepResult<Signal>)
    modifies b
    ensures (ev.companyName, ev.accountId) !in old(b.items) ==>
      r == Raised(IndexErr) && b.items == old(b.items)
      && b.published == old(b.published) + EventLog(OLPE, ev, IndexErr).published && b.requests == old(b.requests)
    ensures (ev.companyName, ev.accountId) in old(b.items) ==>
      var o := BillingAfter(old(b.items)[(ev.companyName, ev.accountId)], ev, resp, today);
      r == o.result && Realizes(b, o, now)
  {
    var found := AccountById(b.items, ev.companyName, ev.accountId);
    if found.None? {
      b.Publish(EventLog(OLPE, ev, IndexErr).published);
      return Raised(IndexErr);
    }
    r := BillingAfterRun(b, found.value, ev, resp, today, now);
  }
}
