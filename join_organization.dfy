/** The join step: the target organization invites the account, unless an open
    invitation already exists, and the account accepts it through its own `MasterRole`. */
module JoinOrganization {
  import opened Documents
  import opened Constant
  import opened Base
  import opened MeLogger
  import opened Store

  /** One party of a handshake, and one handshake as `list_handshakes_for_organization`
      lists it. */
  datatype Party = Party(id: string, partyType: string)
  datatype Handshake = Handshake(id: string, state: string, parties: seq<Party>)

  /** The answers of the calls the step makes: the handshake list, the invitation (the
      new handshake's id), the role assumption into the account and the acceptance. */
  datatype JoinResponses = JoinResponses(
    handshakes: Aws<seq<Handshake>>, invite: Aws<string>, session: Aws<()>, accept: Aws<()>)

  // ---- get_invitation ----

  /** The handshake invites the account: it is open and one of its parties is the account. */
  predicate Invites(h: Handshake, accountId: string) {
    h.state == "OPEN" && exists p | p in h.parties :: p.id == accountId && p.partyType == "ACCOUNT"
  }

  /** The inner loop: whether some party of `h` is the account, while `h` is open. */
  function PartyMatch(h: Handshake, accountId: string, k: nat): (r: bool)
    requires k <= |h.parties|
    ensures r <==> h.state == "OPEN" && exists i | k <= i < |h.parties| :: h.parties[i].id == accountId && h.parties[i].partyType == "ACCOUNT"
    decreases |h.parties| - k
  {
    if k == |h.parties| then false
    else if h.state == "OPEN" && h.parties[k].id == accountId && h.parties[k].partyType == "ACCOUNT" then true
    else PartyMatch(h, accountId, k + 1)
  }

  /** `get_invitation`: the id of the first handshake, in list order, that invites the
      account; `None` when there is none. */
  function GetInvitation(hs: seq<Handshake>, accountId: string): (r: Option<string>)
    decreases |hs|
  {
    if hs == [] then None
    else if PartyMatch(hs[0], accountId, 0) then Some(hs[0].id)
    else GetInvitation(hs[1..], accountId)
  }

  lemma PartyMatchInvites(h: Handshake, accountId: string)
    ensures PartyMatch(h, accountId, 0) <==> Invites(h, accountId)
  {
    if Invites(h, accountId) {
      var p :| p in h.parties && p.id == accountId && p.partyType == "ACCOUNT";
      var i :| 0 <= i < |h.parties| && h.parties[i] == p;
    }
  }

  /** The search finds the first inviting handshake and nothing when none invites. */
  lemma {:induction false} GetInvitationFirst(hs: seq<Handshake>, accountId: string)
    ensures var r := GetInvitation(hs, accountId);
      (r.None? <==> forall i | 0 <= i < |hs| :: !Invites(hs[i], accountId))
      && (r.Some? ==> exists i | 0 <= i < |hs| ::
            Invites(hs[i], accountId) && r.value == hs[i].id
            && forall j | 0 <= j < i :: !Invites(hs[j], accountId))
    decreases |hs|
  {
    if hs != [] {
      PartyMatchInvites(hs[0], accountId);
      if !PartyMatch(hs[0], accountId, 0) {
        GetInvitationFirst(hs[1..], accountId);
        var r := GetInvitation(hs[1..], accountId);
        if r.Some? {
          var i :| 0 <= i < |hs[1..]| && Invites(hs[1..][i], accountId) && r.value == hs[1..][i].id
            && forall j | 0 <= j < i :: !Invites(hs[1..][j], accountId);
          assert Invites(hs[i + 1], accountId) && r.value == hs[i + 1].id;
          forall j | 0 <= j < i + 1 ensures !Invites(hs[j], accountId) {
            if j > 0 { assert hs[j] == hs[1..][j - 1]; }
          }
        } else {
          forall i | 0 <= i < |hs| ensures !Invites(hs[i], accountId) {
            if i > 0 { assert hs[i] == hs[1..][i - 1]; }
          }
        }
      } else {
        assert Invites(hs[0], accountId);
      }
    }
  }

  // ---- The try block ----

  /** `not account['HandshakeId']`: no handshake, or an empty id. */
  predicate NoHandshake(h: Option<string>) {
    h.None? || h.value == ""
  }

  /** From the role assumption on: the account accepts the handshake `hid` and is JOINED. */
  function Accept(acc: Record, hid: string, resp: JoinResponses, sent: seq<Request>): (t: Attempt<Signal>)
  {
    var q1 := sent + [AssumeRole(acc.accountId, AWS_MASTER_ROLE, None)];
    if !resp.session.Ok? then Attempt(Raised(Raise(resp.session)), acc, [], q1)
    else
      var q2 := q1 + [AcceptHandshake(acc.accountId, Some(hid))];
      if !resp.accept.Ok? then Attempt(Raised(Raise(resp.accept)), acc, [], q2)
      else Attempt(Returned(Completed), acc.(accountStatus := JOINED), [], q2)
  }

  /** Once the handshakes are listed: the open invitation found, or a new one, is accepted. */
  function InviteAndAccept(acc: Record, found: Option<string>, resp: JoinResponses): (t: Attempt<Signal>)
  {
    var acc1 := acc.(handshakeId := found);
    var q1 := [ListHandshakes()];
    if !NoHandshake(found) then Accept(acc1, found.value, resp, q1)
    else
      var q2 := q1 + [InviteAccount(acc.accountId)];
      if !resp.invite.Ok? then Attempt(Raised(Raise(resp.invite)), acc1, [], q2)
      else Accept(acc1.(handshakeId := Some(resp.invite.value)), resp.invite.value, resp, q2)
  }

  /** The try block of `lambda_handler`, given the loaded record. */
  function JoinBody(acc: Record, resp: JoinResponses): (t: Attempt<Signal>)
  {
    if acc.accountStatus >= JOINED then Attempt(Returned(Completed), acc, [], [])
    else if !resp.handshakes.Ok? then Attempt(Raised(Raise(resp.handshakes)), acc, [], [ListHandshakes()])
    else InviteAndAccept(acc, GetInvitation(resp.handshakes.value, acc.accountId), resp)
  }

  /** The except clauses and the `finally`, given how the try block ended. */
  function JoinHandlers(t: Attempt<Signal>, ev: StepInput): (o: Outcome<Signal>)
  {
    match t.exit
    case Returned(s) => Outcome(Returned(s), [t.account], [], [])
    case Raised(e) =>
      if e.ClientErr? then
        if e.code == "ConcurrentModificationException" then Outcome(Returned(ConcurrencyWait), [t.account], [], [])
        else
          var l := LogError(Some(t.account.accountId), Some(t.account.companyName), JOE, e.code + ": " + e.message,
                            Some(e), true, t.account.slackHandle);
          Outcome(Returned(Wait), [t.account.(error := Some(l.text))], l.published, [])
      else Outcome(Raised(e), [t.account], EventLog(JOE, ev, e).published, [])
  }

  /** `lambda_handler(event)` of the join step. A missing record is an IndexError that is
      logged and re-raised, with nothing to persist. */
  function JoinSpec(items: map<Key, Record>, ev: StepInput, resp: JoinResponses): (o: Outcome<Signal>)
  {
    var found := AccountById(items, ev.companyName, ev.accountId);
    if found.None? then Outcome(Raised(IndexErr), [], EventLog(JOE, ev, IndexErr).published, [])
    else
      var t := JoinBody(found.value, resp);
      var h := JoinHandlers(t, ev);
      Outcome(h.result, h.writes, t.published + h.published, t.requests)
  }

  // ---- Properties ----

  /** A record at JOINED or beyond (LEFT and SUSPENDED included) is Completed and written
      back unchanged, with neither an invitation nor an acceptance. */
  lemma AlreadyJoinedCompletes(items: map<Key, Record>, ev: StepInput, resp: JoinResponses)
    requires (ev.companyName, ev.accountId) in items
    requires items[(ev.companyName, ev.accountId)].accountStatus >= JOINED
    ensures var o := JoinSpec(items, ev, resp);
      o.result == Returned(Completed) && o.writes == [items[(ev.companyName, ev.accountId)]] && o.requests == []
  {
  }

  /** An invitation is sent exactly when the listed handshakes hold no open invitation
      for the account (or only one with an empty id). */
  lemma InviteOnlyWithoutOpenHandshake(acc: Record, resp: JoinResponses)
    requires acc.accountStatus < JOINED && resp.handshakes.Ok?
    ensures var found := GetInvitation(resp.handshakes.value, acc.accountId);
      var t := JoinBody(acc, resp);
      (InviteAccount(acc.accountId) in t.requests <==> NoHandshake(found))
      && (found.None? <==> forall i | 0 <= i < |resp.handshakes.value| :: !Invites(resp.handshakes.value[i], acc.accountId))
  {
    GetInvitationFirst(resp.handshakes.value, acc.accountId);
    var found := GetInvitation(resp.handshakes.value, acc.accountId);
    var t := JoinBody(acc, resp);
    if !NoHandshake(found) {
      assert t.requests[0] == ListHandshakes();
      assert forall i | 1 <= i < |t.requests| :: t.requests[i].op != OrgInviteAccount;
    } else {
      assert t.requests[1] == InviteAccount(acc.accountId);
    }
  }

  /** The handshake accepted is the open invitation found, when there is one with a
      non-empty id, and otherwise the one the invitation created; it is recorded in the
      record's `HandshakeId`. */
  lemma AcceptsTheRecordedHandshake(acc: Record, resp: JoinResponses, hid: string)
    requires acc.accountStatus < JOINED && resp.handshakes.Ok?
    requires AcceptHandshake(acc.accountId, Some(hid)) in JoinBody(acc, resp).requests
    ensures var found := GetInvitation(resp.handshakes.value, acc.accountId);
      var t := JoinBody(acc, resp);
      (if NoHandshake(found) then resp.invite == Ok(hid) else found == Some(hid))
      && t.account.handshakeId == Some(hid)
  {
    var found := GetInvitation(resp.handshakes.value, acc.accountId);
    var t := JoinBody(acc, resp);
    assert forall i | 0 <= i < |t.requests| - 1 :: t.requests[i].op != OrgAcceptHandshake;
  }

  /** A successful acceptance, and only it, makes the account JOINED and Completed. */
  lemma AcceptJoins(items: map<Key, Record>, ev: StepInput, resp: JoinResponses)
    requires (ev.companyName, ev.accountId) in items
    requires items[(ev.companyName, ev.accountId)].accountStatus < JOINED
    ensures var o := JoinSpec(items, ev, resp);
      var acc := items[(ev.companyName, ev.accountId)];
      (o.result == Returned(Completed) <==> resp.handshakes.Ok? && (NoHandshake(GetInvitation(resp.handshakes.value, acc.accountId)) ==> resp.invite.Ok?) && resp.session.Ok? && resp.accept.Ok?)
      && (o.result == Returned(Completed) ==> o.writes[0].accountStatus == JOINED)
      && (o.result != Returned(Completed) ==> o.writes[0].accountStatus == acc.accountStatus)
  {
  }

  /** ConcurrentModificationException: ConcurrencyWait, with no error recorded; any other
      ClientError records "<code>: <message>" and waits; the status is left as it was. */
  lemma ClientErrorClassification(items: map<Key, Record>, ev: StepInput, resp: JoinResponses, e: Exc)
    requires (ev.companyName, ev.accountId) in items
    requires JoinBody(items[(ev.companyName, ev.accountId)], resp).exit == Raised(e) && e.ClientErr?
    ensures var o := JoinSpec(items, ev, resp);
      var acc := items[(ev.companyName, ev.accountId)];
      |o.writes| == 1 && o.writes[0].accountStatus == acc.accountStatus
      && (e.code == "ConcurrentModificationException" ==>
            o.result == Returned(ConcurrencyWait) && o.writes[0].error == acc.error && o.published == [])
      && (e.code != "ConcurrentModificationException" ==>
            o.result == Returned(Wait) && o.writes[0].error == Some(e.code + ": " + e.message) && |o.published| == 1)
  {
    var acc := items[(ev.companyName, ev.accountId)];
    assert JoinBody(acc, resp).account.accountStatus == acc.accountStatus;
    assert JoinBody(acc, resp).account.error == acc.error;
    var msg := e.code + ": " + e.message;
    assert |msg| > 0 by { assert |": "| == 2; }
  }

  /** The try block keeps the record's key, type and migration flag. */
  lemma BodyKeepsIdentity(acc: Record, resp: JoinResponses)
    ensures SameIdentity(JoinBody(acc, resp).account, acc)
  {
  }

  /** A loaded record is written back exactly once, under its key, on every path (the
      ConcurrencyWait one included); a missing one is never written. */
  lemma PersistsOnEveryPath(items: map<Key, Record>, ev: StepInput, resp: JoinResponses)
    requires WellKeyed(items)
    ensures var o := JoinSpec(items, ev, resp);
      (|o.writes| == 1 <==> (ev.companyName, ev.accountId) in items)
      && (|o.writes| == 0 <==> (ev.companyName, ev.accountId) !in items)
      && forall i | 0 <= i < |o.writes| :: KeyOf(o.writes[i]) == (ev.companyName, ev.accountId)
  {
    if (ev.companyName, ev.accountId) in items {
      BodyKeepsIdentity(items[(ev.companyName, ev.accountId)], resp);
    }
  }

  // ---- The step ----

  method AcceptRun(b: Backend, acc: Record, hid: string, resp: JoinResponses)
    returns (exit: StepResult<Signal>, account: Record)
    modifies b
    ensures var t := Accept(acc, hid, resp, []);
      exit == t.exit && account == t.account && b.requests == old(b.requests) + t.requests
      && b.items == old(b.items) && b.published == old(b.published)
  {
    account := acc;
    b.Send(AssumeRole(account.accountId, AWS_MASTER_ROLE, None));
    if !resp.session.Ok? {
      return Raised(Raise(resp.session)), account;
    }
    b.Send(AcceptHandshake(account.accountId, Some(hid)));
    if !resp.accept.Ok? {
      return Raised(Raise(resp.accept)), account;
    }
    account := account.(accountStatus := JOINED);
    exit := Returned(Completed);
  }

  /** The same end of the try block, after the requests `sent`. */
  lemma AcceptAfter(acc: Record, hid: string, resp: JoinResponses, sent: seq<Request>)
    ensures var t := Accept(acc, hid, resp, sent);
      var u := Accept(acc, hid, resp, []);
      t.exit == u.exit && t.account == u.account && t.published == [] && t.requests == sent + u.requests
  {
  }

  method JoinBodyRun(b: Backend, acc: Record, resp: JoinResponses)
    returns (exit: StepResult<Signal>, account: Record)
    modifies b
    ensures var t := JoinBody(acc, resp);
      exit == t.exit && account == t.account && b.requests == old(b.requests) + t.requests
      && b.items == old(b.items) && b.published == old(b.published) && t.published == []
  {
    account := acc;
    if account.accountStatus >= JOINED {
      return Returned(Completed), account;
    }
    b.Send(ListHandshakes());
    if !resp.handshakes.Ok? {
      return Raised(Raise(resp.handshakes)), account;
    }
    var handshakeId := GetInvitation(resp.handshakes.value, account.accountId);
    account := account.(handshakeId := handshakeId);
    var hid := if handshakeId.Some? then handshakeId.value else "";
    ghost var sent := [ListHandshakes()];
    if NoHandshake(handshakeId) {
      b.Send(InviteAccount(account.accountId));
      sent := sent + [InviteAccount(account.accountId)];
      if !resp.invite.Ok? {
        return Raised(Raise(resp.invite)), account;
      }
      hid := resp.invite.value;
      account := account.(handshakeId := Some(hid));
    }
    AcceptAfter(account, hid, resp, sent);
    exit, account := AcceptRun(b, account, hid, resp);
  }

  method JoinHandlersRun(b: Backend, exit: StepResult<Signal>, acc: Record, ev: StepInput, now: int)
    returns (r: StepResult<Signal>)
    modifies b
    ensures var h := JoinHandlers(Attempt(exit, acc, [], []), ev);
      r == h.result && b.items == ApplyWrites(old(b.items), h.writes, now)
      && b.published == old(b.published) + h.published && b.requests == old(b.requests)
  {
    var account := acc;
    r := exit;
    if exit.Raised? {
      var e := exit.exc;
      if e.ClientErr? {
        if e.code == "ConcurrentModificationException" {
          r := Returned(ConcurrencyWait);
        } else {
          var l := LogError(Some(account.accountId), Some(account.companyName), JOE, e.code + ": " + e.message,
                            Some(e), true, account.slackHandle);
          b.Publish(l.published);
          account := account.(error := Some(l.text));
          r := Returned(Wait);
        }
      } else {
        b.Publish(EventLog(JOE, ev, e).published);
      }
    }
    b.Put(account, now);
  }

  /** `lambda_handler(event)`, with the record written back in `finally`. */
  method Join(b: Backend, ev: StepInput, resp: JoinResponses, now: int) returns (r: StepResult<Signal>)
    modifies b
    ensures var o := JoinSpec(old(b.items), ev, resp);
      r == o.result && Realizes(b, o, now)
  {
    var found := AccountById(b.items, ev.companyName, ev.accountId);
    if found.None? {
      b.Publish(EventLog(JOE, ev, IndexErr).published);
      return Raised(IndexErr);
    }
    var exit, account := JoinBodyRun(b, found.value, resp);
    ghost var t := JoinBody(found.value, resp);
    assert JoinHandlers(Attempt(exit, account, [], []), ev) == JoinHandlers(t, ev);
    r := JoinHandlersRun(b, exit, account, ev, now);
  }
}
