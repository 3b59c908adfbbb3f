/** The shared step helpers: the master-account lookup with its integrity check, the
    parent search and the idempotent role bootstrap. */
module Util {
  import opened Documents
  import opened Constant
  import opened Base
  import opened MeLogger
  import opened Store

  // ---- get_master_account ----

  /** The text of the integrity error; the rendering of the offending items that follows
      it in the source is not modelled. */
  const MULTIPLE_MASTERS := "System Error: Multiple master account found: "

  datatype MasterLookup = MasterLookup(result: StepResult<Option<Record>>, published: seq<Publication>)

  lemma SingletonMembers<K>(s: set<K>, a: K, b: K)
    requires |s| == 1 && a in s && b in s
    ensures a == b
  {
    var c :| c in s;
    assert |s - {c}| == 0;
    assert a in s - {c} || a == c;
    assert b in s - {c} || b == c;
  }

  /** `get_master_account(company_name)`: the company's Master item when there is at most
      one (`None` when there is none); with several it publishes an integrity notice and
      raises. */
  ghost function GetMasterAccount(items: map<Key, Record>, company: string): (m: MasterLookup)
    ensures var ms := Select(items, company, TypeIs(Master));
      && (|ms| > 1 <==> m.result.Raised?)
      && (|ms| > 1 ==> m.result.exc == Failure(MULTIPLE_MASTERS))
      && (|ms| > 1 ==> m.published == LogError(None, Some(company), AIE, MULTIPLE_MASTERS, None, true, None).published)
      && (|ms| <= 1 ==> m.published == [])
      && (|ms| == 0 ==> m.result == Returned(None))
      && (|ms| == 1 ==> m.result.Returned? && m.result.value.Some?)
      && (|ms| == 1 ==> exists k | k in ms :: items[k] == m.result.value.value)
  {
    var ms := Select(items, company, TypeIs(Master));
    if |ms| > 1 then
      MasterLookup(Raised(Failure(MULTIPLE_MASTERS)),
                   LogError(None, Some(company), AIE, MULTIPLE_MASTERS, None, true, None).published)
    else if |ms| == 0 then MasterLookup(Returned(None), [])
    else
      var k :| k in ms;
      MasterLookup(Returned(Some(items[k])), [])
  }

  /** With exactly one Master item, the lookup returns that item, whichever key holds it. */
  lemma GetMasterAccountUnique(items: map<Key, Record>, company: string, k: Key)
    requires Select(items, company, TypeIs(Master)) == {k}
    ensures GetMasterAccount(items, company).result == Returned(Some(items[k]))
  {
    var ms := Select(items, company, TypeIs(Master));
    var m := GetMasterAccount(items, company);
    var j :| j in ms && items[j] == m.result.value.value;
    SingletonMembers(ms, j, k);
  }

  /** The query of `get_master_account`, with its notice published on the topic. */
  method QueryMaster(b: Backend, company: string) returns (m: MasterLookup)
    modifies b
    ensures m == GetMasterAccount(old(b.items), company)
    ensures b.published == old(b.published) + m.published
    ensures b.items == old(b.items) && b.requests == old(b.requests)
  {
    var ms := Select(b.items, company, TypeIs(Master));
    if |ms| > 1 {
      m := MasterLookup(Raised(Failure(MULTIPLE_MASTERS)),
                        LogError(None, Some(company), AIE, MULTIPLE_MASTERS, None, true, None).published);
      b.Publish(m.published);
    } else if |ms| == 0 {
      m := MasterLookup(Returned(None), []);
    } else {
      var k :| k in ms;
      assert ms == {k} by {
        forall j | j in ms ensures j == k { SingletonMembers(ms, j, k); }
      }
      GetMasterAccountUnique(b.items, company, k);
      m := MasterLookup(Returned(Some(b.items[k])), []);
    }
  }

  /** The integrity notice goes to the notification topic as an Account Integrity Error of
      the company, tied to no account. */
  lemma SeveralMastersNotify(items: map<Key, Record>, company: string)
    requires |Select(items, company, TypeIs(Master))| > 1
    ensures var m := GetMasterAccount(items, company);
      |m.published| == 1 && m.published[0].ErrorNotice?
      && m.published[0].notice.errorType == AIE && m.published[0].notice.accountId.None?
      && m.published[0].notice.companyName == Some(company)
      && m.published[0].notice.message == MULTIPLE_MASTERS
  {
  }

  // ---- get_parent_id ----

  /** One entry of `list_parents(ChildId=...)["Parents"]`. */
  datatype Parent = Parent(id: string, parentType: string)

  /** The Id of the first parent of the requested type, or `None`. */
  function FirstParentOfType(parents: seq<Parent>, t: ParentType): (r: Option<string>)
    ensures r.None? <==> forall i | 0 <= i < |parents| :: parents[i].parentType != ParentTypeName(t)
    ensures r.Some? ==> exists i | 0 <= i < |parents| ::
      parents[i].parentType == ParentTypeName(t) && parents[i].id == r.value
      && forall j | 0 <= j < i :: parents[j].parentType != ParentTypeName(t)
  {
    if parents == [] then None
    else if parents[0].parentType == ParentTypeName(t) then Some(parents[0].id)
    else
      var r := FirstParentOfType(parents[1..], t);
      if r.Some? then
        var i :| 0 <= i < |parents[1..]| && parents[1..][i].parentType == ParentTypeName(t)
          && parents[1..][i].id == r.value
          && forall j | 0 <= j < i :: parents[1..][j].parentType != ParentTypeName(t);
        assert parents[i + 1] == parents[1..][i];
        assert forall j | 0 <= j < i + 1 :: parents[j].parentType != ParentTypeName(t) by {
          forall j | 0 <= j < i + 1 ensures parents[j].parentType != ParentTypeName(t) {
            if j > 0 { assert parents[j] == parents[1..][j - 1]; }
          }
        }
        r
      else
        assert forall i | 1 <= i < |parents| :: parents[i] == parents[1..][i - 1];
        r
  }

  /** `get_parent_id(account_id, parent_type)` over the parents the call returned: the
      loop returns at the first match. */
  method GetParentId(parents: seq<Parent>, t: ParentType) returns (r: Option<string>)
    ensures r == FirstParentOfType(parents, t)
  {
    var i := 0;
    while i < |parents|
      invariant 0 <= i <= |parents|
      invariant FirstParentOfType(parents[i..], t) == FirstParentOfType(parents, t)
    {
      if parents[i].parentType == ParentTypeName(t) {
        return Some(parents[i].id);
      }
      assert parents[i..][1..] == parents[i + 1..];
      i := i + 1;
    }
    return None;
  }

  // ---- create_roles ----

  /** The responses the IAM and STS calls for one role give. `polls` are the successive
      answers to the role-assumption probe made after creating `MasterRole`. */
  datatype RoleResponses = RoleResponses(
    getRole: Aws<()>, createRole: Aws<()>, policy: Aws<()>, waitExists: Aws<()>, polls: seq<Aws<()>>)

  /** The state of the role loop: the roles created so far and the requests made, or the
      exception that ended it. */
  datatype RolesState = RolesState(created: seq<string>, failure: Option<Exc>, requests: seq<Request>)

  /** What the probe or the handling of one role did: its requests, and the exception it
      ended with, if any. */
  datatype Probe = Probe(failure: Option<Exc>, requests: seq<Request>)
  datatype RoleOutcome = RoleOutcome(createdIt: bool, failure: Option<Exc>, requests: seq<Request>)

  /** The `while True` probe: it stops at the first successful assumption, retries after
      a ClientError and lets any other error through; running out of answers is the
      Lambda timing out. */
  function PollAssume(accountId: string, role: string, polls: seq<Aws<()>>): (r: Probe)
    ensures |r.requests| <= |polls|
    ensures forall i | 0 <= i < |r.requests| :: r.requests[i] == AssumeRole(accountId, role, None)
    ensures r.failure == Some(Timeout) ==> |r.requests| == |polls|
    decreases |polls|
  {
    if polls == [] then Probe(Some(Timeout), [])
    else
      var q := AssumeRole(accountId, role, None);
      if polls[0].Ok? then Probe(None, [q])
      else if polls[0].OtherError? then Probe(Some(Raise(polls[0])), [q])
      else
        var rest := PollAssume(accountId, role, polls[1..]);
        Probe(rest.failure, [q] + rest.requests)
  }

  /** The probe succeeds exactly when some answer is a success and every earlier one a
      ClientError; it makes one request per answer it reads. */
  lemma {:induction false} PollSucceedsIff(accountId: string, role: string, polls: seq<Aws<()>>)
    ensures var r := PollAssume(accountId, role, polls);
      r.failure.None? <==> exists i | 0 <= i < |polls| :: polls[i].Ok? && forall j | 0 <= j < i :: polls[j].ClientError?
    decreases |polls|
  {
    if polls != [] && polls[0].ClientError? {
      PollSucceedsIff(accountId, role, polls[1..]);
      var r := PollAssume(accountId, role, polls[1..]);
      if r.failure.None? {
        var i :| 0 <= i < |polls[1..]| && polls[1..][i].Ok? && forall j | 0 <= j < i :: polls[1..][j].ClientError?;
        assert polls[i + 1].Ok?;
        assert forall j | 0 <= j < i + 1 :: polls[j].ClientError? by {
          forall j | 0 <= j < i + 1 ensures polls[j].ClientError? {
            if j > 0 { assert polls[j] == polls[1..][j - 1]; }
          }
        }
      } else {
        forall i | 0 <= i < |polls| && polls[i].Ok? ensures !(forall j | 0 <= j < i :: polls[j].ClientError?) {
          assert i > 0 && polls[i] == polls[1..][i - 1];
          var j :| 0 <= j < i - 1 && !polls[1..][j].ClientError?;
          assert !polls[j + 1].ClientError?;
        }
      }
    }
  }

  /** The call that gives a created role its policy: an inline document is put, a
      managed policy is attached by its ARN. */
  function PolicyCall(accountId: string, role: string, spec: RoleSpec): (q: Request)
    ensures spec.policy.Arn? ==> q == AttachRolePolicy(accountId, role, spec.policy.arn)
    ensures spec.policy.Document? ==> q == PutRolePolicy(accountId, role)
  {
    if spec.policy.Document? then PutRolePolicy(accountId, role) else AttachRolePolicy(accountId, role, spec.policy.arn)
  }

  /** The requests and the outcome for one role of the loop. */
  function RoleStep(accountId: string, config: map<string, RoleSpec>, role: string, resp: RoleResponses): (r: RoleOutcome)
    requires role in config
  {
    var spec := config[role];
    var get := [GetRole(accountId, role)];
    if resp.getRole.Ok? then RoleOutcome(false, None, get)
    else if !(resp.getRole.ClientError? && resp.getRole.code == "NoSuchEntity") then RoleOutcome(false, Some(Raise(resp.getRole)), get)
    else
      var create := get + [CreateRole(accountId, role, spec.trustedAccount)];
      if !resp.createRole.Ok? then RoleOutcome(false, Some(Raise(resp.createRole)), create)
      else
        var attach := create + [PolicyCall(accountId, role, spec)];
        if !resp.policy.Ok? then RoleOutcome(false, Some(Raise(resp.policy)), attach)
        else
          var wait := attach + [WaitRoleExists(accountId, role)];
          if !resp.waitExists.Ok? then RoleOutcome(true, Some(Raise(resp.waitExists)), wait)
          else if role == AWS_MASTER_ROLE then
            var poll := PollAssume(accountId, role, resp.polls);
            RoleOutcome(true, poll.failure, wait + poll.requests)
          else RoleOutcome(true, None, wait)
  }

  /** The calls one role can lead to: looking it up, creating it, giving it its policy,
      waiting for it and probing it. */
  predicate RoleRequest(accountId: string, config: map<string, RoleSpec>, role: string, q: Request)
    requires role in config
  {
    var spec := config[role];
    q == GetRole(accountId, role) || q == CreateRole(accountId, role, spec.trustedAccount)
    || q == PolicyCall(accountId, role, spec)
    || q == WaitRoleExists(accountId, role) || q == AssumeRole(accountId, role, None)
  }

  lemma RoleStepRequests(accountId: string, config: map<string, RoleSpec>, role: string, resp: RoleResponses)
    requires role in config
    ensures var t := RoleStep(accountId, config, role, resp);
      t.requests != [] && t.requests[0] == GetRole(accountId, role)
      && (resp.getRole.Ok? ==> t.requests == [GetRole(accountId, role)])
      && forall q | q in t.requests :: RoleRequest(accountId, config, role, q)
  {
    var polls := PollAssume(accountId, role, resp.polls).requests;
    assert forall q | q in polls :: q == AssumeRole(accountId, role, None);
  }

  /** The state of the loop of `create_roles` after the first `n` role names: each role
      is handled in turn until one raises. */
  function RolesAfter(accountId: string, config: map<string, RoleSpec>, names: seq<string>,
                      oracle: string -> RoleResponses, n: nat): (s: RolesState)
    requires n <= |names| && forall i | 0 <= i < |names| :: names[i] in config
  {
    if n == 0 then RolesState([], None, [])
    else
      var prev := RolesAfter(accountId, config, names, oracle, n - 1);
      if prev.failure.Some? then prev
      else
        var role := names[n - 1];
        var step := RoleStep(accountId, config, role, oracle(role));
        RolesState(if step.createdIt then prev.created + [role] else prev.created, step.failure, prev.requests + step.requests)
  }

  ghost predicate IsSubsequence(xs: seq<string>, ys: seq<string>) {
    exists idx: seq<nat> | |idx| == |xs| ::
      (forall i | 0 <= i < |idx| :: idx[i] < |ys| && ys[idx[i]] == xs[i])
      && (forall i, j | 0 <= i < j < |idx| :: idx[i] < idx[j])
  }

  /** One more name adds at most that name to the created roles, and only when its
      `get_role` answered NoSuchEntity. */
  lemma CreatedGrowth(accountId: string, config: map<string, RoleSpec>, names: seq<string>,
                      oracle: string -> RoleResponses, n: nat)
    requires 0 < n <= |names| && forall i | 0 <= i < |names| :: names[i] in config
    ensures var s := RolesAfter(accountId, config, names, oracle, n);
      var p := RolesAfter(accountId, config, names, oracle, n - 1);
      var g := oracle(names[n - 1]).getRole;
      s.created == p.created
      || (s.created == p.created + [names[n - 1]] && g.ClientError? && g.code == "NoSuchEntity")
  {
  }

  lemma SubsequenceExtend(xs: seq<string>, ys: seq<string>, y: string)
    requires IsSubsequence(xs, ys)
    ensures IsSubsequence(xs, ys + [y]) && IsSubsequence(xs + [y], ys + [y])
  {
    var idx: seq<nat> :| |idx| == |xs|
      && (forall i | 0 <= i < |idx| :: idx[i] < |ys| && ys[idx[i]] == xs[i])
      && (forall i, j | 0 <= i < j < |idx| :: idx[i] < idx[j]);
    assert forall i | 0 <= i < |idx| :: idx[i] < |ys + [y]| && (ys + [y])[idx[i]] == xs[i];
    var idx2: seq<nat> := idx + [|ys|];
    assert forall i | 0 <= i < |idx2| :: idx2[i] < |ys + [y]| && (ys + [y])[idx2[i]] == (xs + [y])[i];
    assert forall i, j | 0 <= i < j < |idx2| :: idx2[i] < idx2[j];
  }

  /** The roles reported as created are a subsequence of the names visited, each of them
      one whose `get_role` answered NoSuchEntity. */
  lemma {:induction false} CreatedRolesSubsequence(accountId: string, config: map<string, RoleSpec>,
                                                    names: seq<string>, oracle: string -> RoleResponses, n: nat)
    requires n <= |names| && forall i | 0 <= i < |names| :: names[i] in config
    ensures var s := RolesAfter(accountId, config, names, oracle, n);
      IsSubsequence(s.created, names[..n])
      && (forall i | 0 <= i < |s.created| ::
            oracle(s.created[i]).getRole.ClientError? && oracle(s.created[i]).getRole.code == "NoSuchEntity")
  {
    var s := RolesAfter(accountId, config, names, oracle, n);
    if n == 0 {
      var idx: seq<nat> := [];
      assert |idx| == |s.created|;
    } else {
      assert names[..n] == names[..n - 1] + [names[n - 1]];
      CreatedRolesSubsequence(accountId, config, names, oracle, n - 1);
      CreatedGrowth(accountId, config, names, oracle, n);
      SubsequenceExtend(RolesAfter(accountId, config, names, oracle, n - 1).created, names[..n - 1], names[n - 1]);
    }
  }

  /** When the loop gets through its first `n` names, every one of them whose `get_role`
      answered NoSuchEntity was created with its configured trust, given its policy and
      reported as created. */
  lemma {:induction false} MissingRolesCreated(accountId: string, config: map<string, RoleSpec>,
                                               names: seq<string>, oracle: string -> RoleResponses, n: nat)
    requires n <= |names| && forall i | 0 <= i < |names| :: names[i] in config
    requires RolesAfter(accountId, config, names, oracle, n).failure.None?
    ensures var s := RolesAfter(accountId, config, names, oracle, n);
      forall i | 0 <= i < n && oracle(names[i]).getRole.ClientError? && oracle(names[i]).getRole.code == "NoSuchEntity" ::
        names[i] in s.created
        && CreateRole(accountId, names[i], config[names[i]].trustedAccount) in s.requests
        && PolicyCall(accountId, names[i], config[names[i]]) in s.requests
  {
    if n > 0 {
      var s := RolesAfter(accountId, config, names, oracle, n);
      var prev := RolesAfter(accountId, config, names, oracle, n - 1);
      assert prev.failure.None?;
      MissingRolesCreated(accountId, config, names, oracle, n - 1);
      var role := names[n - 1];
      var step := RoleStep(accountId, config, role, oracle(role));
      assert s.created == (if step.createdIt then prev.created + [role] else prev.created);
      assert s.requests == prev.requests + step.requests;
      var g := oracle(role).getRole;
      if g.ClientError? && g.code == "NoSuchEntity" {
        assert step.createdIt;
        assert step.requests[1] == CreateRole(accountId, role, config[role].trustedAccount);
        assert step.requests[2] == PolicyCall(accountId, role, config[role]);
        assert s.requests[|prev.requests| + 1] == step.requests[1];
        assert s.requests[|prev.requests| + 2] == step.requests[2];
      }
    }
  }

  /** A role whose `get_role` succeeds is neither created nor reported. */
  lemma {:induction false} ExistingRoleUntouched(accountId: string, config: map<string, RoleSpec>,
                                                  names: seq<string>, oracle: string -> RoleResponses, n: nat, role: string)
    requires n <= |names| && forall i | 0 <= i < |names| :: names[i] in config
    requires oracle(role).getRole.Ok?
    ensures var s := RolesAfter(accountId, config, names, oracle, n);
      role !in s.created && forall trusted: string :: CreateRole(accountId, role, trusted) !in s.requests
  {
    if n > 0 {
      ExistingRoleUntouched(accountId, config, names, oracle, n - 1, role);
      RoleStepRequests(accountId, config, names[n - 1], oracle(names[n - 1]));
    }
  }

  /** Every configured policy is an ARN, so the loop attaches managed policies and never
      puts an inline one. */
  lemma {:induction false} NoInlinePolicies(accountId: string, config: map<string, RoleSpec>,
                                             names: seq<string>, oracle: string -> RoleResponses, n: nat)
    requires n <= |names| && forall i | 0 <= i < |names| :: names[i] in config
    requires forall name | name in config :: config[name].policy.Arn?
    ensures forall q | q in RolesAfter(accountId, config, names, oracle, n).requests :: q.op != IamPutRolePolicy
  {
    if n > 0 {
      NoInlinePolicies(accountId, config, names, oracle, n - 1);
      RoleStepRequests(accountId, config, names[n - 1], oracle(names[n - 1]));
    }
  }

  /** The whole loop of `create_roles` in the account `accountId`, over the configured roles. */
  function ConfiguredRoles(accountId: string, masterAccountId: string, oracle: string -> RoleResponses): RolesState
  {
    var names := RoleNames();
    assert names[0] in RoleConfig(masterAccountId) && names[1] in RoleConfig(masterAccountId);
    RolesAfter(accountId, RoleConfig(masterAccountId), names, oracle, |names|)
  }

  /** With the configured roles, no inline policy is ever put. */
  lemma ConfiguredRolesNoInlinePolicies(accountId: string, masterAccountId: string, oracle: string -> RoleResponses)
    ensures forall q | q in ConfiguredRoles(accountId, masterAccountId, oracle).requests :: q.op != IamPutRolePolicy
  {
    var names := RoleNames();
    assert names[0] in RoleConfig(masterAccountId) && names[1] in RoleConfig(masterAccountId);
    forall name | name in RoleConfig(masterAccountId) ensures RoleConfig(masterAccountId)[name].policy.Arn? {
      RolePoliciesAreArns(masterAccountId, name);
    }
    NoInlinePolicies(accountId, RoleConfig(masterAccountId), names, oracle, |names|);
  }

  /** A ClientError from `get_role` other than NoSuchEntity ends the loop with that error,
      once every earlier role went through. */
  lemma GetRoleErrorReraised(accountId: string, config: map<string, RoleSpec>,
                             names: seq<string>, oracle: string -> RoleResponses, n: nat)
    requires 0 < n <= |names| && forall i | 0 <= i < |names| :: names[i] in config
    requires RolesAfter(accountId, config, names, oracle, n - 1).failure.None?
    requires var g := oracle(names[n - 1]).getRole; g.ClientError? && g.code != "NoSuchEntity"
    ensures var g := oracle(names[n - 1]).getRole;
      RolesAfter(accountId, config, names, oracle, n).failure == Some(ClientErr(g.code, g.message))
  {
  }

  /** Once a role raised, the remaining names are not visited. */
  lemma {:induction false} FailureSticks(accountId: string, config: map<string, RoleSpec>, names: seq<string>,
                                          oracle: string -> RoleResponses, m: nat, n: nat)
    requires m <= n <= |names| && forall i | 0 <= i < |names| :: names[i] in config
    requires RolesAfter(accountId, config, names, oracle, m).failure.Some?
    ensures RolesAfter(accountId, config, names, oracle, n) == RolesAfter(accountId, config, names, oracle, m)
  {
    if m < n {
      FailureSticks(accountId, config, names, oracle, m, n - 1);
    }
  }

  /** A ClientError answer is followed by another probe. */
  lemma PollRetry(accountId: string, role: string, polls: seq<Aws<()>>, k: nat, polled: seq<Request>)
    requires k < |polls| && polls[k].ClientError?
    requires var t := PollAssume(accountId, role, polls[k..]);
      PollAssume(accountId, role, polls) == Probe(t.failure, polled + t.requests)
    ensures var t := PollAssume(accountId, role, polls[k + 1..]);
      PollAssume(accountId, role, polls) == Probe(t.failure, (polled + [AssumeRole(accountId, role, None)]) + t.requests)
  {
    assert polls[k..][1..] == polls[k + 1..];
    var t := PollAssume(accountId, role, polls[k + 1..]);
    assert PollAssume(accountId, role, polls[k..]) == Probe(t.failure, [AssumeRole(accountId, role, None)] + t.requests);
    assert polled + ([AssumeRole(accountId, role, None)] + t.requests) == (polled + [AssumeRole(accountId, role, None)]) + t.requests;
  }

  /** The `while True` probe after creating `MasterRole`. */
  method WaitUntilAssumable(b: Backend, accountId: string, role: string, polls: seq<Aws<()>>)
    returns (failure: Option<Exc>)
    modifies b
    ensures var t := PollAssume(accountId, role, polls);
      failure == t.failure && b.requests == old(b.requests) + t.requests
    ensures b.items == old(b.items) && b.published == old(b.published)
  {
    ghost var polled: seq<Request> := [];
    var k := 0;
    assert polls[k..] == polls;
    assert polled + PollAssume(accountId, role, polls).requests == PollAssume(accountId, role, polls).requests;
    while k < |polls|
      invariant 0 <= k <= |polls|
      invariant b.requests == old(b.requests) + polled
      invariant var t := PollAssume(accountId, role, polls[k..]);
        PollAssume(accountId, role, polls) == Probe(t.failure, polled + t.requests)
      invariant b.items == old(b.items) && b.published == old(b.published)
    {
      b.Send(AssumeRole(accountId, role, None));
      if polls[k].OtherError? {
        return Some(Raise(polls[k]));
      }
      if polls[k].Ok? {
        return None;
      }
      PollRetry(accountId, role, polls, k, polled);
      polled := polled + [AssumeRole(accountId, role, None)];
      k := k + 1;
    }
    return Some(Timeout);
  }

  /** The body of the loop for one role: look it up, and when IAM answers NoSuchEntity
      create it, attach its policy and wait for it. */
  method EnsureRole(b: Backend, accountId: string, config: map<string, RoleSpec>, role: string, resp: RoleResponses)
    returns (createdIt: bool, failure: Option<Exc>)
    requires role in config
    modifies b
    ensures var t := RoleStep(accountId, config, role, resp);
      createdIt == t.createdIt && failure == t.failure && b.requests == old(b.requests) + t.requests
    ensures b.items == old(b.items) && b.published == old(b.published)
  {
    var spec := config[role];
    createdIt := false;
    b.Send(GetRole(accountId, role));
    if resp.getRole.Ok? {
      return false, None;
    }
    if !(resp.getRole.ClientError? && resp.getRole.code == "NoSuchEntity") {
      return false, Some(Raise(resp.getRole));
    }
    b.Send(CreateRole(accountId, role, spec.trustedAccount));
    if !resp.createRole.Ok? {
      return false, Some(Raise(resp.createRole));
    }
    var q := if spec.policy.Document? then PutRolePolicy(accountId, role)
             else AttachRolePolicy(accountId, role, spec.policy.arn);
    b.Send(q);
    if !resp.policy.Ok? {
      return false, Some(Raise(resp.policy));
    }
    createdIt := true;
    b.Send(WaitRoleExists(accountId, role));
    if !resp.waitExists.Ok? {
      return true, Some(Raise(resp.waitExists));
    }
    failure := None;
    if role == AWS_MASTER_ROLE {
      failure := WaitUntilAssumable(b, accountId, role, resp.polls);
    }
  }

  /** One turn of the loop of `create_roles`: the role `names[n]`, after the first `n`
      names went through without raising. */
  method RoleTurn(b: Backend, accountId: string, config: map<string, RoleSpec>, names: seq<string>,
                  oracle: string -> RoleResponses, n: nat, st: RolesState)
    returns (next: RolesState, ghost added: seq<Request>)
    requires forall i | 0 <= i < |names| :: names[i] in config
    requires n < |names| && st == RolesAfter(accountId, config, names, oracle, n) && st.failure.None?
    modifies b
    ensures next == RolesAfter(accountId, config, names, oracle, n + 1)
    ensures next.requests == st.requests + added && b.requests == old(b.requests) + added
    ensures b.items == old(b.items) && b.published == old(b.published)
  {
    ghost var t := RoleStep(accountId, config, names[n], oracle(names[n]));
    var before := b.requests;
    var createdIt, failure := EnsureRole(b, accountId, config, names[n], oracle(names[n]));
    var sent := b.requests[|before|..];
    assert sent == t.requests;
    added := sent;
    next := RolesState(if createdIt then st.created + [names[n]] else st.created, failure, st.requests + sent);
  }

  /** The loop of `create_roles` over the given role names. */
  method CreateRolesLoop(b: Backend, accountId: string, config: map<string, RoleSpec>, names: seq<string>,
                         oracle: string -> RoleResponses)
    returns (r: StepResult<seq<string>>)
    requires forall i | 0 <= i < |names| :: names[i] in config
    modifies b
    ensures var s := RolesAfter(accountId, config, names, oracle, |names|);
      (r == if s.failure.Some? then Raised(s.failure.value) else Returned(s.created))
      && b.requests == old(b.requests) + s.requests
      && b.items == old(b.items) && b.published == old(b.published)
  {
    var st := RolesState([], None, []);
    var n := 0;
    while n < |names| && st.failure.None?
      invariant 0 <= n <= |names|
      invariant st == RolesAfter(accountId, config, names, oracle, n)
      invariant b.requests == old(b.requests) + st.requests
      invariant b.items == old(b.items) && b.published == old(b.published)
    {
      ghost var added;
      st, added := RoleTurn(b, accountId, config, names, oracle, n, st);
      n := n + 1;
    }
    if st.failure.Some? {
      FailureSticks(accountId, config, names, oracle, n, |names|);
      r := Raised(st.failure.value);
    } else {
      r := Returned(st.created);
    }
  }

  /** `create_roles(session)` for the account `accountId`: visits the configured role names
      in sorted order, creating each missing one, and returns the names it created. */
  method CreateRoles(b: Backend, accountId: string, masterAccountId: string, oracle: string -> RoleResponses)
    returns (r: StepResult<seq<string>>)
    modifies b
    ensures var s := ConfiguredRoles(accountId, masterAccountId, oracle);
      (r == if s.failure.Some? then Raised(s.failure.value) else Returned(s.created))
      && b.requests == old(b.requests) + s.requests
      && b.items == old(b.items) && b.published == old(b.published)
  {
    var names := RoleNames();
    assert names[0] in RoleConfig(masterAccountId) && names[1] in RoleConfig(masterAccountId);
    r := CreateRolesLoop(b, accountId, RoleConfig(masterAccountId), names, oracle);
  }
}
