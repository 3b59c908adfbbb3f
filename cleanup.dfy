/** The decommission and completion watcher: while accounts of the company have left their
    old organization, their owners are reminded to close them (an account the engine can
    no longer enter counts as closed); once none is left and no migrating account is still
    in process, the migration of the company is announced as finished. */
module Cleanup {
  import opened Documents
  import opened Constant
  import opened Base
  import opened MeLogger
  import opened Store

  /** The colour of both Slack messages of the step. */
  const NOTICE_COLOR := "#0ec1eb"
  /** The error code of a role assumption into an account that is closed. */
  const SESSION_DENIED := "AccessDenied"
  const CLOSE_PREFIX := "Account: "
  const CLOSE_SUFFIX := " is being removed from the current organization. Please close the account using your root username/password."
  const STOPPED_TEXT := "Migration Engine ran successfully for company "
  const CLOSE_TITLE := "User Action Required"
  const STOPPED_TITLE := "Migration Engine Stopped"
  const OF_COMPANY := "  of company "

  /** The reminder to close a LEFT account. */
  function CloseReminder(accountId: string, company: string): (m: SlackMessage)
  {
    SlackMessage(NOTICE_COLOR, AUTHOR_NAME, CLOSE_TITLE, CLOSE_PREFIX + accountId + OF_COMPANY + company + CLOSE_SUFFIX)
  }

  /** The announcement that the company's migration is finished. */
  function StoppedMessage(company: string): (m: SlackMessage)
  {
    SlackMessage(NOTICE_COLOR, AUTHOR_NAME, STOPPED_TITLE, STOPPED_TEXT + company)
  }

  predicate Denied(a: Aws<()>) {
    a.ClientError? && a.code == SESSION_DENIED
  }

  /** The loop over the LEFT accounts so far: the exception that left it, if one did, and
      the writes, publications and requests made. */
  datatype Sweep = Sweep(failure: Option<Exc>, writes: seq<Record>, published: seq<Publication>, requests: seq<Request>)

  /** One iteration for a LEFT account, with `sessions(id)` the answer of the role
      assumption into account `id`. A ClientError is logged with the account's Slack
      handle, and only AccessDenied marks the account SUSPENDED and writes it: the logged
      text assigned to `Error` afterwards is never written. Any other exception is logged
      under the event's account id (a KeyError when the event has none) and leaves the
      loop. */
  function Visit(acc: Record, ev: CompanyEvent, sessions: string -> Aws<()>): (v: Sweep)
  {
    var q := [AssumeRole(acc.accountId, AWS_MASTER_ROLE, None)];
    var a := sessions(acc.accountId);
    if a.Ok? then Sweep(None, [], [UserNotice(acc.slackHandle, CloseReminder(acc.accountId, ev.companyName))], q)
    else if a.ClientError? then
      var l := LogError(Some(acc.accountId), Some(acc.companyName), LOE, "", Some(ClientErr(a.code, a.message)), true,
                        acc.slackHandle);
      Sweep(None, if Denied(a) then [acc.(accountStatus := SUSPENDED)] else [], l.published, q)
    else if ev.accountId.None? then Sweep(Some(KeyErr("AccountId")), [], [], q)
    else
      Sweep(Some(Failure(a.msg)), [],
            LogError(ev.accountId, Some(ev.companyName), LOE, "", Some(Failure(a.msg)), true, None).published, q)
  }

  /** The loop over `left`, in order, stopping at the first exception. */
  function SweepLeft(left: seq<Record>, ev: CompanyEvent, sessions: string -> Aws<()>): (s: Sweep)
    decreases |left|
  {
    if left == [] then Sweep(None, [], [], [])
    else
      var s := SweepLeft(left[..|left| - 1], ev, sessions);
      if s.failure.Some? then s
      else
        var v := Visit(left[|left| - 1], ev, sessions);
        Sweep(v.failure, s.writes + v.writes, s.published + v.published, s.requests + v.requests)
  }

  /** `lambda_handler(event)` given the LEFT records in the order the query returns them
      and the keys of the company's migrating accounts below UPDATED. */
  function CleanupAfter(left: seq<Record>, inProcess: set<Key>, ev: CompanyEvent, sessions: string -> Aws<()>)
    : (o: Outcome<CompanyStatus>)
  {
    if left != [] then
      var s := SweepLeft(left, ev, sessions);
      Outcome(if s.failure.Some? then Raised(s.failure.value) else Returned(CompanyStatus(Wait, ev.companyName)),
              s.writes, s.published, s.requests)
    else if inProcess != {} then Outcome(Returned(CompanyStatus(Wait, ev.companyName)), [], [], [])
    else Outcome(Returned(CompanyStatus(Completed, ev.companyName)),
                 [], [UserNotice(None, StoppedMessage(ev.companyName))], [])
  }

  /** The records the keys name. */
  function Records(items: map<Key, Record>, ks: seq<Key>): (rs: seq<Record>)
    requires forall i | 0 <= i < |ks| :: ks[i] in items
    ensures |rs| == |ks| && forall i | 0 <= i < |ks| :: rs[i] == items[ks[i]]
  {
    seq(|ks|, i requires 0 <= i < |ks| => items[ks[i]])
  }

  /** The step against the table, for one order `ks` of its LEFT query. */
  function CleanupSpec(items: map<Key, Record>, ks: seq<Key>, ev: CompanyEvent, sessions: string -> Aws<()>)
    : (o: Outcome<CompanyStatus>)
    requires Enumerates(ks, Select(items, ev.companyName, StatusIs(LEFT)))
  {
    CleanupAfter(Records(items, ks), Select(items, ev.companyName, MigratingBelow(UPDATED)), ev, sessions)
  }

  // ---- Properties ----

  /** The loop after account `i`, from the loop before it. */
  lemma SweepExtend(left: seq<Record>, ev: CompanyEvent, sessions: string -> Aws<()>, i: nat)
    requires i < |left| && SweepLeft(left[..i], ev, sessions).failure.None?
    ensures var s0 := SweepLeft(left[..i], ev, sessions);
      var v := Visit(left[i], ev, sessions);
      SweepLeft(left[..i + 1], ev, sessions)
      == Sweep(v.failure, s0.writes + v.writes, s0.published + v.published, s0.requests + v.requests)
  {
    assert left[..i + 1][..i] == left[..i];
  }

  lemma {:induction false} FailureStopsSweep(left: seq<Record>, ev: CompanyEvent, sessions: string -> Aws<()>, k: nat)
    requires k <= |left| && SweepLeft(left[..k], ev, sessions).failure.Some?
    ensures SweepLeft(left, ev, sessions) == SweepLeft(left[..k], ev, sessions)
    decreases |left| - k
  {
    if k < |left| {
      assert left[..k + 1][..k] == left[..k];
      FailureStopsSweep(left, ev, sessions, k + 1);
    } else {
      assert left[..k] == left;
    }
  }

  /** One LEFT account: a working session sends the owner a reminder naming the account,
      with the account's Slack handle, and writes nothing; AccessDenied writes the account
      back as SUSPENDED with its `Error` unchanged; another ClientError writes nothing; a
      ClientError is notified once. */
  lemma VisitCases(acc: Record, ev: CompanyEvent, sessions: string -> Aws<()>)
    ensures var v := Visit(acc, ev, sessions);
      var a := sessions(acc.accountId);
      v.requests == [AssumeRole(acc.accountId, AWS_MASTER_ROLE, None)]
      && (a.Ok? ==>
            v.failure.None? && v.writes == []
            && v.published == [UserNotice(acc.slackHandle, CloseReminder(acc.accountId, ev.companyName))])
      && (Denied(a) ==> v.failure.None? && v.writes == [acc.(accountStatus := SUSPENDED)])
      && (a.ClientError? ==>
            v.failure.None? && |v.published| == 1 && v.published[0].notice.errorType == LOE
            && v.published[0].notice.slackHandle == acc.slackHandle)
      && (a.ClientError? && !Denied(a) ==> v.writes == [])
      && (v.failure.Some? <==> a.OtherError?)
  {
  }

  /** The reminder names the account and the company. */
  lemma ReminderNamesAccount(accountId: string, company: string)
    ensures var t := CloseReminder(accountId, company).text;
      t[|CLOSE_PREFIX|..|CLOSE_PREFIX| + |accountId|] == accountId
  {
  }

  /** The writes and requests of one iteration, without its notices. */
  lemma VisitEffects(acc: Record, ev: CompanyEvent, sessions: string -> Aws<()>)
    ensures var v := Visit(acc, ev, sessions);
      v.requests == [AssumeRole(acc.accountId, AWS_MASTER_ROLE, None)]
      && v.writes == (if Denied(sessions(acc.accountId)) then [acc.(accountStatus := SUSPENDED)] else [])
  {
  }

  /** The requests of the loop over `left` from those of the loop over all but its last
      account. */
  lemma SweepLastRequest(left: seq<Record>, ev: CompanyEvent, sessions: string -> Aws<()>)
    requires left != [] && SweepLeft(left[..|left| - 1], ev, sessions).failure.None?
    ensures SweepLeft(left, ev, sessions).requests
      == SweepLeft(left[..|left| - 1], ev, sessions).requests + [AssumeRole(left[|left| - 1].accountId, AWS_MASTER_ROLE, None)]
  {
    VisitEffects(left[|left| - 1], ev, sessions);
  }

  /** The loop over `left` from the loop over all but its last account. */
  lemma SweepLast(left: seq<Record>, ev: CompanyEvent, sessions: string -> Aws<()>)
    requires left != [] && SweepLeft(left[..|left| - 1], ev, sessions).failure.None?
    ensures var n := |left| - 1;
      var s0 := SweepLeft(left[..n], ev, sessions);
      var s := SweepLeft(left, ev, sessions);
      s.writes == s0.writes + (if Denied(sessions(left[n].accountId)) then [left[n].(accountStatus := SUSPENDED)] else [])
      && s.requests == s0.requests + [AssumeRole(left[n].accountId, AWS_MASTER_ROLE, None)]
  {
    VisitEffects(left[|left| - 1], ev, sessions);
  }

  /** The role assumptions into each of `accounts`, in order. */
  function Tries(accounts: seq<Record>): (qs: seq<Request>)
    ensures |qs| == |accounts|
    ensures forall i | 0 <= i < |accounts| :: qs[i] == AssumeRole(accounts[i].accountId, AWS_MASTER_ROLE, None)
  {
    if accounts == [] then []
    else Tries(accounts[..|accounts| - 1]) + [AssumeRole(accounts[|accounts| - 1].accountId, AWS_MASTER_ROLE, None)]
  }

  /** Once an exception left the loop, later accounts change nothing. */
  lemma SweepFailed(left: seq<Record>, ev: CompanyEvent, sessions: string -> Aws<()>)
    requires left != [] && SweepLeft(left[..|left| - 1], ev, sessions).failure.Some?
    ensures SweepLeft(left, ev, sessions) == SweepLeft(left[..|left| - 1], ev, sessions)
  {
  }

  /** The induction step of `SweepTriesEach`. */
  lemma TriesStep(left: seq<Record>, ev: CompanyEvent, sessions: string -> Aws<()>)
    requires left != [] && SweepLeft(left[..|left| - 1], ev, sessions).failure.None?
    requires SweepLeft(left[..|left| - 1], ev, sessions).requests == Tries(left[..|left| - 1])
    ensures SweepLeft(left, ev, sessions).requests == Tries(left)
  {
    var n := |left| - 1;
    SweepLastRequest(left, ev, sessions);
  }

  /** Every LEFT account is tried once, in query order, until the first exception that is
      not a ClientError. */
  lemma {:induction false} SweepTriesEach(left: seq<Record>, ev: CompanyEvent, sessions: string -> Aws<()>)
    ensures var s := SweepLeft(left, ev, sessions);
      s.failure.None? ==> s.requests == Tries(left)
    decreases |left|
  {
    if left != [] {
      var n := |left| - 1;
      if SweepLeft(left[..n], ev, sessions).failure.None? {
        SweepTriesEach(left[..n], ev, sessions);
        TriesStep(left, ev, sessions);
      } else {
        SweepFailed(left, ev, sessions);
      }
    }
  }

  /** The loop writes only SUSPENDED copies of LEFT accounts whose session was denied,
      with every other column, `Error` included, as read. */
  lemma {:induction false} SweepWritesOnlySuspensions(left: seq<Record>, ev: CompanyEvent, sessions: string -> Aws<()>)
    requires forall i | 0 <= i < |left| :: left[i].accountStatus == LEFT
    ensures var s := SweepLeft(left, ev, sessions);
      forall w | w in s.writes ::
        w.accountStatus == SUSPENDED && w.(accountStatus := LEFT) in left && Denied(sessions(w.accountId))
    decreases |left|
  {
    if left != [] {
      var n := |left| - 1;
      SweepWritesOnlySuspensions(left[..n], ev, sessions);
      var s0 := SweepLeft(left[..n], ev, sessions);
      if s0.failure.None? {
        SweepLast(left, ev, sessions);
        var s := SweepLeft(left, ev, sessions);
        var acc := left[n];
        assert acc.(accountStatus := SUSPENDED).(accountStatus := LEFT) == acc;
        forall w | w in s.writes
          ensures w.accountStatus == SUSPENDED && w.(accountStatus := LEFT) in left && Denied(sessions(w.accountId))
        {
          if w in s0.writes {
            var j :| 0 <= j < n && left[..n][j] == w.(accountStatus := LEFT);
            assert left[j] == w.(accountStatus := LEFT);
          }
        }
      } else {
        assert SweepLeft(left, ev, sessions) == s0;
      }
    }
  }

  /** The SUSPENDED copies of those of `accounts` whose session is denied, in order. */
  function Suspensions(accounts: seq<Record>, sessions: string -> Aws<()>): (ws: seq<Record>)
  {
    if accounts == [] then []
    else
      var acc := accounts[|accounts| - 1];
      Suspensions(accounts[..|accounts| - 1], sessions)
      + (if Denied(sessions(acc.accountId)) then [acc.(accountStatus := SUSPENDED)] else [])
  }

  /** Every account whose session is denied has its SUSPENDED copy among the suspensions. */
  lemma {:induction false} SuspensionsCover(accounts: seq<Record>, sessions: string -> Aws<()>, i: nat)
    requires i < |accounts| && Denied(sessions(accounts[i].accountId))
    ensures accounts[i].(accountStatus := SUSPENDED) in Suspensions(accounts, sessions)
    decreases |accounts|
  {
    var n := |accounts| - 1;
    if i < n {
      SuspensionsCover(accounts[..n], sessions, i);
      assert accounts[..n][i] == accounts[i];
    }
  }

  lemma SuspensionsStep(left: seq<Record>, ev: CompanyEvent, sessions: string -> Aws<()>)
    requires left != [] && SweepLeft(left[..|left| - 1], ev, sessions).failure.None?
    requires SweepLeft(left[..|left| - 1], ev, sessions).writes == Suspensions(left[..|left| - 1], sessions)
    ensures SweepLeft(left, ev, sessions).writes == Suspensions(left, sessions)
  {
    SweepLast(left, ev, sessions);
  }

  /** When no exception left the loop, it wrote exactly the suspensions, in query order. */
  lemma {:induction false} SweepWritesSuspensions(left: seq<Record>, ev: CompanyEvent, sessions: string -> Aws<()>)
    ensures var s := SweepLeft(left, ev, sessions);
      s.failure.None? ==> s.writes == Suspensions(left, sessions)
    decreases |left|
  {
    if left != [] {
      var n := |left| - 1;
      if SweepLeft(left[..n], ev, sessions).failure.None? {
        SweepWritesSuspensions(left[..n], ev, sessions);
        SuspensionsStep(left, ev, sessions);
      } else {
        SweepFailed(left, ev, sessions);
      }
    }
  }

  /** When no exception left the loop, every LEFT account whose session was denied was
      written as SUSPENDED. */
  lemma SweepSuspendsEveryDenied(left: seq<Record>, ev: CompanyEvent, sessions: string -> Aws<()>)
    ensures var s := SweepLeft(left, ev, sessions);
      s.failure.None? ==>
        forall i | 0 <= i < |left| && Denied(sessions(left[i].accountId)) :: left[i].(accountStatus := SUSPENDED) in s.writes
  {
    SweepWritesSuspensions(left, ev, sessions);
    forall i | 0 <= i < |left| && Denied(sessions(left[i].accountId))
      ensures left[i].(accountStatus := SUSPENDED) in Suspensions(left, sessions)
    {
      SuspensionsCover(left, sessions, i);
    }
  }

  /** While any account is LEFT the step answers Wait, or raises; it is Completed exactly
      when no account of the company is LEFT and no migrating account is below UPDATED,
      and only then is the end of the migration announced. */
  lemma CompletedIffNothingLeft(items: map<Key, Record>, ks: seq<Key>, ev: CompanyEvent, sessions: string -> Aws<()>)
    requires Enumerates(ks, Select(items, ev.companyName, StatusIs(LEFT)))
    ensures var o := CleanupSpec(items, ks, ev, sessions);
      (o.result.Returned? ==> o.result.value.companyName == ev.companyName && o.result.value.status in {Completed, Wait})
      && (o.result == Returned(CompanyStatus(Completed, ev.companyName)) <==>
            Select(items, ev.companyName, StatusIs(LEFT)) == {} && Select(items, ev.companyName, MigratingBelow(UPDATED)) == {})
      && (o.result == Returned(CompanyStatus(Completed, ev.companyName)) ==>
            o.published == [UserNotice(None, StoppedMessage(ev.companyName))] && o.writes == [] && o.requests == [])
      && (Select(items, ev.companyName, StatusIs(LEFT)) != {} ==> o.result != Returned(CompanyStatus(Completed, ev.companyName)))
  {
    EnumerationSize(ks, Select(items, ev.companyName, StatusIs(LEFT)));
  }

  /** The records the LEFT query returns are LEFT records of the company. */
  lemma LeftRecords(items: map<Key, Record>, ks: seq<Key>, company: string)
    requires Enumerates(ks, Select(items, company, StatusIs(LEFT)))
    ensures forall i | 0 <= i < |ks| :: Records(items, ks)[i].accountStatus == LEFT
  {
  }

  // ---- The step ----

  method VisitRun(b: Backend, acc: Record, ev: CompanyEvent, sessions: string -> Aws<()>, now: int)
    returns (failure: Option<Exc>)
    modifies b
    ensures var v := Visit(acc, ev, sessions);
      failure == v.failure && b.items == ApplyWrites(old(b.items), v.writes, now)
      && b.published == old(b.published) + v.published && b.requests == old(b.requests) + v.requests
  {
    var account := acc;
    b.Send(AssumeRole(account.accountId, AWS_MASTER_ROLE, None));
    var a := sessions(account.accountId);
    if a.Ok? {
      b.Publish([UserNotice(account.slackHandle, CloseReminder(account.accountId, ev.companyName))]);
      return None;
    }
    if a.ClientError? {
      if a.code == SESSION_DENIED {
        account := account.(accountStatus := SUSPENDED);
        b.Put(account, now);
      }
      var l := LogError(Some(account.accountId), Some(account.companyName), LOE, "", Some(ClientErr(a.code, a.message)),
                        true, account.slackHandle);
      b.Publish(l.published);
      account := account.(error := Some(l.text));
      return None;
    }
    if ev.accountId.None? {
      return Some(KeyErr("AccountId"));
    }
    b.Publish(LogError(ev.accountId, Some(ev.companyName), LOE, "", Some(Failure(a.msg)), true, None).published);
    failure := Some(Failure(a.msg));
  }

  /** The loop over the LEFT accounts; an exception leaves it. */
  method SweepRun(b: Backend, left: seq<Record>, ev: CompanyEvent, sessions: string -> Aws<()>, now: int)
    returns (failure: Option<Exc>)
    modifies b
    ensures var s := SweepLeft(left, ev, sessions);
      failure == s.failure && b.items == ApplyWrites(old(b.items), s.writes, now)
      && b.published == old(b.published) + s.published && b.requests == old(b.requests) + s.requests
  {
    failure := None;
    var i := 0;
    assert left[..0] == [];
    while i < |left|
      invariant 0 <= i <= |left|
      invariant var s := SweepLeft(left[..i], ev, sessions);
        failure == s.failure && b.items == ApplyWrites(old(b.items), s.writes, now)
        && b.published == old(b.published) + s.published && b.requests == old(b.requests) + s.requests
      invariant failure.None?
    {
      ghost var s0 := SweepLeft(left[..i], ev, sessions);
      ghost var v := Visit(left[i], ev, sessions);
      var f := VisitRun(b, left[i], ev, sessions, now);
      SweepExtend(left, ev, sessions, i);
      ApplyWritesConcat(old(b.items), s0.writes, v.writes, now);
      ConcatAssoc(old(b.published), s0.published, v.published);
      ConcatAssoc(old(b.requests), s0.requests, v.requests);
      i := i + 1;
      if f.Some? {
        FailureStopsSweep(left, ev, sessions, i);
        return f;
      }
    }
    assert left[..i] == left;
  }

  /** `lambda_handler(event)`: `ks` is the order in which the LEFT query returned its
      items; the rest is `CleanupSpec` for that order. */
  method CleanUp(b: Backend, ev: CompanyEvent, sessions: string -> Aws<()>, now: int)
    returns (r: StepResult<CompanyStatus>, ghost ks: seq<Key>)
    modifies b
    ensures Enumerates(ks, Select(old(b.items), ev.companyName, StatusIs(LEFT)))
    ensures var o := CleanupSpec(old(b.items), ks, ev, sessions);
      r == o.result && Realizes(b, o, now)
  {
    var keys := Enumerate(Select(b.items, ev.companyName, StatusIs(LEFT)));
    ks := keys;
    var leftAccounts := Records(b.items, keys);
    var status := Wait;
    if leftAccounts != [] {
      var failure := SweepRun(b, leftAccounts, ev, sessions, now);
      if failure.Some? {
        return Raised(failure.value), ks;
      }
    } else {
      var inProcess := Select(b.items, ev.companyName, MigratingBelow(UPDATED));
      if inProcess == {} {
        b.Publish([UserNotice(None, StoppedMessage(ev.companyName))]);
        status := Completed;
      }
    }
    r := Returned(CompanyStatus(status, ev.companyName));
  }
}
