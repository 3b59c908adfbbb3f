/** The OU step: an account that joined the target organization is moved from the
    organization's root to the default organizational unit. */
module UpdateAccountOu {
  import opened Documents
  import opened Constant
  import opened Base
  import opened MeLogger
  import opened Store
  import opened Util

  /** The answers of the calls the step makes: the account's parents and the move. */
  datatype OuResponses = OuResponses(parents: Aws<seq<Parent>>, move: Aws<()>)

  const OU_LEVEL := " is currently at OU level we don't support OU level account migration as of now."

  /** The error recorded for an account that does not sit directly under the root. */
  function OuLevelMsg(ev: StepInput): string {
    "Account " + ev.accountId + " of Company " + ev.companyName + OU_LEVEL
  }

  /** The parameter-validation error the SDK raises, before sending anything, for a
      `SourceParentId` of `None`. It is not a ClientError. */
  const SOURCE_PARENT_INVALID := "Parameter validation failed:\nInvalid type for parameter SourceParentId, value: None, type: <class 'NoneType'>, valid types: <class 'str'>"

  /** The try block as written: without a root parent the error is logged and recorded,
      and the move is still attempted. With no source parent at all, the SDK refuses the
      call before sending it; an empty source parent is sent. */
  function OuBodyAsWritten(acc: Record, cfg: Config, ev: StepInput, resp: OuResponses): (t: Attempt<Signal>)
  {
    if acc.accountStatus >= UPDATED then Attempt(Returned(Completed), acc, [], [])
    else
      var q1 := [ListParents(ev.accountId)];
      if !resp.parents.Ok? then Attempt(Raised(Raise(resp.parents)), acc, [], q1)
      else
        var root := FirstParentOfType(resp.parents.value, Root);
        var l := LogError(Some(acc.accountId), Some(acc.companyName), COUE, OuLevelMsg(ev), None, true, acc.slackHandle);
        var noRoot := root.None? || root.value == "";
        var acc1 := if noRoot then acc.(error := Some(l.text)) else acc;
        var notices := if noRoot then l.published else [];
        if root.None? then Attempt(Raised(Failure(SOURCE_PARENT_INVALID)), acc1, notices, q1)
        else
          var q2 := q1 + [MoveAccount(acc.accountId, root, cfg.defaultOuId)];
          if !resp.move.Ok? then Attempt(Raised(Raise(resp.move)), acc1, notices, q2)
          else Attempt(Returned(Completed), acc1.(accountStatus := UPDATED), notices, q2)
  }

  /** The try block as intended: an account under an OU is left where it is, with the
      error recorded and Wait. */
  function OuBody(acc: Record, cfg: Config, ev: StepInput, resp: OuResponses): (t: Attempt<Signal>)
  {
    if acc.accountStatus >= UPDATED then Attempt(Returned(Completed), acc, [], [])
    else
      var q1 := [ListParents(ev.accountId)];
      if !resp.parents.Ok? then Attempt(Raised(Raise(resp.parents)), acc, [], q1)
      else
        var root := FirstParentOfType(resp.parents.value, Root);
        if root.None? || root.value == "" then
          var l := LogError(Some(acc.accountId), Some(acc.companyName), COUE, OuLevelMsg(ev), None, true, acc.slackHandle);
          Attempt(Returned(Wait), acc.(error := Some(l.text)), l.published, q1)
        else
          var q2 := q1 + [MoveAccount(acc.accountId, root, cfg.defaultOuId)];
          if !resp.move.Ok? then Attempt(Raised(Raise(resp.move)), acc, [], q2)
          else Attempt(Returned(Completed), acc.(accountStatus := UPDATED), [], q2)
  }

  /** The except clauses and the `finally`, given how the try block ended. */
  function OuHandlers(t: Attempt<Signal>, ev: StepInput): (o: Outcome<Signal>)
  {
    match t.exit
    case Returned(s) => Outcome(Returned(s), [t.account], [], [])
    case Raised(e) =>
      if e.ClientErr? then
        var l := LogError(Some(t.account.accountId), Some(t.account.companyName), COUE, e.code + ": " + e.message,
                          Some(e), true, t.account.slackHandle);
        Outcome(Returned(Wait), [t.account.(error := Some(l.text))], l.published, [])
      else Outcome(Raised(e), [t.account], EventLog(COUE, ev, e).published, [])
  }

  /** The step once the record was loaded. */
  function OuAfter(acc: Record, cfg: Config, ev: StepInput, resp: OuResponses): (o: Outcome<Signal>)
  {
    var t := OuBody(acc, cfg, ev, resp);
    var h := OuHandlers(t, ev);
    Outcome(h.result, h.writes, t.published + h.published, t.requests)
  }

  /** The step once the record was loaded, with the try block as written. */
  function OuAfterAsWritten(acc: Record, cfg: Config, ev: StepInput, resp: OuResponses): (o: Outcome<Signal>)
  {
    var t := OuBodyAsWritten(acc, cfg, ev, resp);
    var h := OuHandlers(t, ev);
    Outcome(h.result, h.writes, t.published + h.published, t.requests)
  }

  /** `lambda_handler(event)` of the OU step. A missing record is an IndexError inside the
      try block: logged and re-raised, with nothing to persist. */
  function UpdateOuSpec(items: map<Key, Record>, cfg: Config, ev: StepInput, resp: OuResponses): (o: Outcome<Signal>)
  {
    if (ev.companyName, ev.accountId) !in items then Outcome(Raised(IndexErr), [], EventLog(COUE, ev, IndexErr).published, [])
    else OuAfter(items[(ev.companyName, ev.accountId)], cfg, ev, resp)
  }

  // ---- Properties ----

  /** As written, an account under an OU falls through to the move with `None` as its
      source parent. The SDK refuses that call, so the step logs and re-raises that
      failure: the record keeps its status and the OU-level error, two notices go out, and
      the Wait meant for it is lost. As intended, the step Waits with the same record and
      a single notice, and no move is attempted. */
  lemma OuLevelAccountRaisesAsWritten(acc: Record, cfg: Config, ev: StepInput, resp: OuResponses)
    requires acc.accountStatus < UPDATED && resp.parents.Ok? && FirstParentOfType(resp.parents.value, Root).None?
    ensures var o := OuAfterAsWritten(acc, cfg, ev, resp);
      o.result == Raised(Failure(SOURCE_PARENT_INVALID))
      && o.writes == [acc.(error := Some(OuLevelMsg(ev)))]
      && |o.published| == 2 && o.published[0].notice.message == OuLevelMsg(ev)
      && o.published[1].notice.message == SOURCE_PARENT_INVALID
      && o.requests == [ListParents(ev.accountId)]
    ensures var o := OuAfter(acc, cfg, ev, resp);
      o.result == Returned(Wait) && o.writes == [acc.(error := Some(OuLevelMsg(ev)))]
      && |o.published| == 1 && o.requests == [ListParents(ev.accountId)]
  {
    assert |OuLevelMsg(ev)| > 0 by { assert OuLevelMsg(ev)[0] == 'A'; }
  }

  /** Where the account sits directly under a root, the intended try block is the one
      written. */
  lemma OuBodyAgreesUnderRoot(acc: Record, cfg: Config, ev: StepInput, resp: OuResponses)
    requires resp.parents.Ok? ==> FirstParentOfType(resp.parents.value, Root).Some?
    requires resp.parents.Ok? ==> FirstParentOfType(resp.parents.value, Root).value != ""
    ensures OuBody(acc, cfg, ev, resp) == OuBodyAsWritten(acc, cfg, ev, resp)
  {
  }

  /** An account at UPDATED or beyond is Completed and written back unchanged, with no call. */
  lemma AlreadyUpdatedCompletes(items: map<Key, Record>, cfg: Config, ev: StepInput, resp: OuResponses)
    requires (ev.companyName, ev.accountId) in items
    requires items[(ev.companyName, ev.accountId)].accountStatus >= UPDATED
    ensures var o := UpdateOuSpec(items, cfg, ev, resp);
      o == Outcome(Returned(Completed), [items[(ev.companyName, ev.accountId)]], [], [])
  {
  }

  /** The move goes from the account's first root parent to the default OU, after the
      parents were listed. */
  lemma MovesFromRootToDefaultOu(acc: Record, cfg: Config, ev: StepInput, resp: OuResponses)
    requires acc.accountStatus < UPDATED && resp.parents.Ok?
    requires FirstParentOfType(resp.parents.value, Root).Some?
    requires FirstParentOfType(resp.parents.value, Root).value != ""
    ensures var root := FirstParentOfType(resp.parents.value, Root);
      OuAfter(acc, cfg, ev, resp).requests == [ListParents(ev.accountId), MoveAccount(acc.accountId, root, cfg.defaultOuId)]
      && exists i | 0 <= i < |resp.parents.value| :: resp.parents.value[i] == Parent(root.value, ParentTypeName(Root))
  {
  }

  /** Completed with the status moved to UPDATED happens exactly when the parents were
      listed, a root found and the move went through; otherwise the status is unchanged. */
  lemma UpdatedIffMoved(acc: Record, cfg: Config, ev: StepInput, resp: OuResponses)
    requires acc.accountStatus < UPDATED
    ensures var o := OuAfter(acc, cfg, ev, resp);
      |o.writes| == 1
      && (o.writes[0].accountStatus == UPDATED <==>
            resp.parents.Ok? && FirstParentOfType(resp.parents.value, Root).Some?
            && FirstParentOfType(resp.parents.value, Root).value != "" && resp.move.Ok?)
      && (o.writes[0].accountStatus == UPDATED ==> o.result == Returned(Completed))
      && (o.writes[0].accountStatus != UPDATED ==> o.writes[0].accountStatus == acc.accountStatus)
  {
  }

  /** A ClientError records "<code>: <message>" and waits, leaving the status as it was. */
  lemma ClientErrorWaits(acc: Record, cfg: Config, ev: StepInput, resp: OuResponses, e: Exc)
    requires OuBody(acc, cfg, ev, resp).exit == Raised(e) && e.ClientErr?
    ensures var o := OuAfter(acc, cfg, ev, resp);
      o.result == Returned(Wait) && o.writes == [acc.(error := Some(e.code + ": " + e.message))]
      && |o.published| == 1 && o.published[0].ErrorNotice? && o.published[0].notice.errorType == COUE
  {
    assert |e.code + ": " + e.message| > 0 by { assert |": "| == 2; }
  }

  /** Any other exception is notified under the event's account and re-raised; a loaded
      record is written back on every path, once, under its key, and a missing one never. */
  lemma OtherErrorsReraisedAndPersisted(items: map<Key, Record>, cfg: Config, ev: StepInput, resp: OuResponses)
    requires WellKeyed(items)
    ensures var o := UpdateOuSpec(items, cfg, ev, resp);
      (|o.writes| == 1 <==> (ev.companyName, ev.accountId) in items)
      && (|o.writes| == 0 <==> (ev.companyName, ev.accountId) !in items)
      && (forall i | 0 <= i < |o.writes| :: KeyOf(o.writes[i]) == (ev.companyName, ev.accountId))
      && (o.result.Raised? ==>
            !o.result.exc.ClientErr? && |o.published| >= 1
            && o.published[|o.published| - 1] == EventLog(COUE, ev, o.result.exc).published[0])
  {
    if (ev.companyName, ev.accountId) in items {
      var acc := items[(ev.companyName, ev.accountId)];
      assert SameIdentity(OuBody(acc, cfg, ev, resp).account, acc);
    }
  }

  // ---- The step ----

  /** The move from the root `root`, once it is known there is one. */
  method MoveRun(b: Backend, acc: Record, root: string, cfg: Config, resp: OuResponses)
    returns (exit: StepResult<Signal>, account: Record)
    modifies b
    ensures exit == (if resp.move.Ok? then Returned(Completed) else Raised(Raise(resp.move)))
    ensures account == (if resp.move.Ok? then acc.(accountStatus := UPDATED) else acc)
    ensures b.requests == old(b.requests) + [MoveAccount(acc.accountId, Some(root), cfg.defaultOuId)]
    ensures b.items == old(b.items) && b.published == old(b.published)
  {
    account := acc;
    b.Send(MoveAccount(account.accountId, Some(root), cfg.defaultOuId));
    if !resp.move.Ok? {
      return Raised(Raise(resp.move)), account;
    }
    account := account.(accountStatus := UPDATED);
    exit := Returned(Completed);
  }

  method OuBodyRun(b: Backend, acc: Record, cfg: Config, ev: StepInput, resp: OuResponses)
    returns (exit: StepResult<Signal>, account: Record)
    modifies b
    ensures var t := OuBody(acc, cfg, ev, resp);
      exit == t.exit && account == t.account && b.requests == old(b.requests) + t.requests
      && b.published == old(b.published) + t.published && b.items == old(b.items)
  {
    account := acc;
    if account.accountStatus >= UPDATED {
      return Returned(Completed), account;
    }
    b.Send(ListParents(ev.accountId));
    if !resp.parents.Ok? {
      return Raised(Raise(resp.parents)), account;
    }
    var root := GetParentId(resp.parents.value, Root);
    if root.None? || root.value == "" {
      var l := LogError(Some(account.accountId), Some(account.companyName), COUE, OuLevelMsg(ev), None, true,
                        account.slackHandle);
      b.Publish(l.published);
      account := account.(error := Some(l.text));
      return Returned(Wait), account;
    }
    exit, account := MoveRun(b, account, root.value, cfg, resp);
  }

  method OuHandlersRun(b: Backend, exit: StepResult<Signal>, acc: Record, ev: StepInput, now: int)
    returns (r: StepResult<Signal>)
    modifies b
    ensures var h := OuHandlers(Attempt(exit, acc, [], []), ev);
      r == h.result && b.items == ApplyWrites(old(b.items), h.writes, now)
      && b.published == old(b.published) + h.published && b.requests == old(b.requests)
  {
    var account := acc;
    r := exit;
    if exit.Raised? {
      var e := exit.exc;
      if e.ClientErr? {
        var l := LogError(Some(account.accountId), Some(account.companyName), COUE, e.code + ": " + e.message,
                          Some(e), true, account.slackHandle);
        b.Publish(l.published);
        account := account.(error := Some(l.text));
        r := Returned(Wait);
      } else {
        b.Publish(EventLog(COUE, ev, e).published);
      }
    }
    b.Put(account, now);
  }

  method OuAfterRun(b: Backend, acc: Record, cfg: Config, ev: StepInput, resp: OuResponses, now: int)
    returns (r: StepResult<Signal>)
    modifies b
    ensures var o := OuAfter(acc, cfg, ev, resp);
      r == o.result && Realizes(b, o, now)
  {
    var exit, account := OuBodyRun(b, acc, cfg, ev, resp);
    ghost var t := OuBody(acc, cfg, ev, resp);
    assert OuHandlers(Attempt(exit, account, [], []), ev) == OuHandlers(t, ev);
    r := OuHandlersRun(b, exit, account, ev, now);
  }

  /** `lambda_handler(event)`, that is `UpdateOuSpec` case by case, with the record written
      back in `finally`. */
  method UpdateOu(b: Backend, cfg: Config, ev: StepInput, resp: OuResponses, now: int) returns (r: StepResult<Signal>)
    modifies b
    ensures (ev.companyName, ev.accountId) !in old(b.items) ==>
      r == Raised(IndexErr) && b.items == old(b.items)
      && b.published == old(b.published) + EventLog(COUE, ev, IndexErr).published && b.requests == old(b.requests)
    ensures (ev.companyName, ev.accountId) in old(b.items) ==>
      var o := OuAfter(old(b.items)[(ev.companyName, ev.accountId)], cfg, ev, resp);
      r == o.result && Realizes(b, o, now)
  {
    var found := AccountById(b.items, ev.companyName, ev.accountId);
    if found.None? {
      b.Publish(EventLog(COUE, ev, IndexErr).published);
      return Raised(IndexErr);
    }
    r := OuAfterRun(b, found.value, cfg, ev, resp, now);
  }
}
