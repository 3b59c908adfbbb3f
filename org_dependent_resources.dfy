/** The permission scan: in every region the migrated account is active in, IAM Access
    Analyzer findings tell which resources grant access by organization (PrincipalOrgID or
    PrincipalOrgPaths conditions); such resources must be fixed before the account can
    move on. */
module OrgDependentResources {
  import opened Documents
  import opened Constant
  import opened Base
  import opened MeLogger
  import opened Store

  /** One entry of `list_findings(...)["findings"]`. */
  datatype Finding = Finding(resource: string, status: string)

  const ACTIVE := "ACTIVE"
  const ORG_ID_CONDITION := "condition.aws:PrincipalOrgID"
  const ORG_PATHS_CONDITION := "condition.aws:PrincipalOrgPaths"
  const NO_ANALYZER := "No Analyzer found in  region "
  const ORG_LEVEL_ACCESS := " is using organization level permission to access resource"

  /** The answers of the calls made in one region: the analyzer ARNs, then for each
      condition the findings naming the account's organization ("issues") and those
      naming the organization the engine runs in ("resolved"). */
  datatype RegionResponses = RegionResponses(
    analyzers: Aws<seq<string>>,
    orgIssues: Aws<seq<Finding>>, orgResolved: Aws<seq<Finding>>,
    pathIssues: Aws<seq<Finding>>, pathResolved: Aws<seq<Finding>>)

  /** The answers of the calls the step makes: the session in the account, the two
      `describe_organization` calls and the regions' answers. */
  datatype ScanResponses = ScanResponses(
    session: Aws<()>, targetOrg: Aws<string>, ownOrg: Aws<string>, regions: string -> RegionResponses)

  // ---- Resource lists ----

  /** `[f["resource"] for f in findings if f["status"] == "ACTIVE"]`. */
  function ActiveResources(fs: seq<Finding>): (r: seq<string>)
  {
    if fs == [] then [] else (if fs[0].status == ACTIVE then [fs[0].resource] else []) + ActiveResources(fs[1..])
  }

  /** The list holds a resource exactly when an ACTIVE finding names it. */
  lemma {:induction false} ActiveResourcesMembers(fs: seq<Finding>)
    ensures var r := ActiveResources(fs);
      && |r| <= |fs|
      && (forall x | x in r :: Finding(x, ACTIVE) in fs)
      && (forall f | f in fs && f.status == ACTIVE :: f.resource in r)
  {
    if fs != [] {
      ActiveResourcesMembers(fs[1..]);
      assert forall f | f in fs :: f == fs[0] || f in fs[1..];
    }
  }

  /** The elements of `a` that are not in `b`, in order. */
  function Minus(a: seq<string>, b: seq<string>): (r: seq<string>)
  {
    if a == [] then [] else (if a[0] in b then [] else [a[0]]) + Minus(a[1..], b)
  }

  lemma {:induction false} MinusMembers(a: seq<string>, b: seq<string>)
    ensures forall x :: x in Minus(a, b) <==> x in a && x !in b
  {
    if a != [] {
      MinusMembers(a[1..], b);
      assert forall x :: x in a <==> x == a[0] || x in a[1..];
    }
  }

  /** The first occurrence of each element, in order. */
  function Distinct(s: seq<string>): (r: seq<string>)
  {
    if s == [] then []
    else
      var d := Distinct(s[..|s| - 1]);
      if s[|s| - 1] in d then d else d + [s[|s| - 1]]
  }

  lemma {:induction false} DistinctMembers(s: seq<string>)
    ensures var r := Distinct(s);
      && (forall x :: x in r <==> x in s)
      && (forall i, j | 0 <= i < j < |r| :: r[i] != r[j])
  {
    if s != [] {
      DistinctMembers(s[..|s| - 1]);
      assert forall x :: x in s <==> x in s[..|s| - 1] || x == s[|s| - 1];
    }
  }

  /** `list(set(a).symmetric_difference(set(b)))`, with the elements in first-occurrence
      order. */
  function SymmetricDifference(a: seq<string>, b: seq<string>): (r: seq<string>)
  {
    Distinct(Minus(a, b) + Minus(b, a))
  }

  /** Each element that is in exactly one of the two lists is in the result, once. */
  lemma SymmetricDifferenceMembers(a: seq<string>, b: seq<string>)
    ensures var r := SymmetricDifference(a, b);
      && (forall x :: x in r <==> (x in a) != (x in b))
      && (forall i, j | 0 <= i < j < |r| :: r[i] != r[j])
  {
    MinusMembers(a, b);
    MinusMembers(b, a);
    var both := Minus(a, b) + Minus(b, a);
    DistinctMembers(both);
    assert forall x :: x in both <==> x in Minus(a, b) || x in Minus(b, a);
  }

  // ---- One region ----

  /** What the queries of a region found: a failure, no analyzer at all, or the
      resources that use organization-level permissions. */
  datatype Listing = Listing(failure: Option<Exc>, noAnalyzer: bool, resources: seq<string>, requests: seq<Request>)

  /** One condition: the resolved findings are only asked for when there are issues. */
  function ConditionScan(accountId: string, region: string, arn: string, condition: string, target: string,
                         own: string, issues: Aws<seq<Finding>>, resolved: Aws<seq<Finding>>): (l: Listing)
  {
    var q1 := [ListFindings(accountId, region, arn, condition, target)];
    if !issues.Ok? then Listing(Some(Raise(issues)), false, [], q1)
    else
      var found := ActiveResources(issues.value);
      if found == [] then Listing(None, false, [], q1)
      else
        var q2 := q1 + [ListFindings(accountId, region, arn, condition, own)];
        if !resolved.Ok? then Listing(Some(Raise(resolved)), false, [], q2)
        else Listing(None, false, SymmetricDifference(found, ActiveResources(resolved.value)), q2)
  }

  /** The two conditions, with analyzer `arn`: the PrincipalOrgID list, then the
      PrincipalOrgPaths list. */
  function BothConditions(accountId: string, region: string, arn: string, rr: RegionResponses, own: string,
                          target: string): (l: Listing)
  {
    var o := ConditionScan(accountId, region, arn, ORG_ID_CONDITION, target, own, rr.orgIssues, rr.orgResolved);
    if o.failure.Some? then Listing(o.failure, false, [], o.requests)
    else
      var p := ConditionScan(accountId, region, arn, ORG_PATHS_CONDITION, target, own, rr.pathIssues, rr.pathResolved);
      Listing(p.failure, false, if p.failure.Some? then [] else o.resources + p.resources, o.requests + p.requests)
  }

  /** The queries of `get_org_level_resources` in one region, with the first analyzer. */
  function RegionFindings(accountId: string, region: string, rr: RegionResponses, own: string, target: string): (l: Listing)
  {
    var q0 := [ListAnalyzers(accountId, region)];
    if !rr.analyzers.Ok? then Listing(Some(Raise(rr.analyzers)), false, [], q0)
    else if rr.analyzers.value == [] then Listing(None, true, [], q0)
    else
      var c := BothConditions(accountId, region, rr.analyzers.value[0], rr, own, target);
      Listing(c.failure, false, c.resources, q0 + c.requests)
  }

  /** The notices about the offending resources, one per resource, in order. */
  function ResourceNotices(acc: Record, resources: seq<string>): (ps: seq<Publication>)
    ensures |ps| == |resources|
  {
    if resources == [] then []
    else
      var r := resources[|resources| - 1];
      ResourceNotices(acc, resources[..|resources| - 1])
      + LogError(Some(acc.accountId), Some(acc.companyName), OLPE, "Resource " + r + ORG_LEVEL_ACCESS, None, true,
                 acc.slackHandle).published
  }

  /** How a region, or the whole step, left off: its exit, the record, the records
      written, what was published and the calls made. */
  datatype Progress = Progress(exit: StepResult<Signal>, account: Record, writes: seq<Record>,
                               published: seq<Publication>, requests: seq<Request>)

  /** `get_org_level_resources(region, account, ...)` given what the queries found. */
  function RegionScan(acc: Record, region: string, l: Listing): (p: Progress)
    ensures p.writes == [] || p.writes == [p.account]
  {
    if l.failure.Some? then Progress(Raised(l.failure.value), acc, [], [], l.requests)
    else if l.noAnalyzer then
      var m := LogError(Some(acc.accountId), Some(acc.companyName), OLPE, NO_ANALYZER + region, None, true, acc.slackHandle);
      Progress(Returned(Wait), acc, [acc], m.published, l.requests)
    else if l.resources == [] then Progress(Returned(Completed), acc, [], [], l.requests)
    else
      var acc1 := acc.(orgLevelPermissions := Some(l.resources));
      Progress(Returned(Wait), acc1, [acc1], ResourceNotices(acc, l.resources), l.requests)
  }

  /** The region loop so far: the failure that stopped it, whether a region answered Wait,
      and what the regions did. */
  datatype Scan = Scan(failure: Option<Exc>, waited: bool, account: Record, writes: seq<Record>,
                       published: seq<Publication>, requests: seq<Request>)

  function ScanRegions(acc: Record, regions: seq<string>, oracle: string -> RegionResponses, own: string, target: string): (s: Scan)
    decreases |regions|
  {
    if regions == [] then Scan(None, false, acc, [], [], [])
    else
      var s := ScanRegions(acc, regions[..|regions| - 1], oracle, own, target);
      if s.failure.Some? then s
      else
        var region := regions[|regions| - 1];
        var p := RegionScan(s.account, region, RegionFindings(s.account.accountId, region, oracle(region), own, target));
        Scan(if p.exit.Raised? then Some(p.exit.exc) else None, s.waited || p.exit == Returned(Wait), p.account,
             s.writes + p.writes, s.published + p.published, s.requests + p.requests)
  }

  // ---- The step ----

  /** The calls before the region loop: the session in the account, then the account's
      organization id and the engine's: the first failure, and the calls made up to it. */
  function Preface(ev: StepInput, resp: ScanResponses): (l: Listing)
  {
    var q1 := [AssumeRole(ev.accountId, AWS_MASTER_ROLE, None)];
    if !resp.session.Ok? then Listing(Some(Raise(resp.session)), false, [], q1)
    else
      var q2 := q1 + [DescribeOrganization(Some(ev.accountId))];
      if !resp.targetOrg.Ok? then Listing(Some(Raise(resp.targetOrg)), false, [], q2)
      else
        var q3 := q2 + [DescribeOrganization(None)];
        if !resp.ownOrg.Ok? then Listing(Some(Raise(resp.ownOrg)), false, [], q3)
        else Listing(None, false, [], q3)
  }

  /** The try block of `lambda_handler`: the preface, the region loop and the verdict. */
  function ScanBody(acc: Record, ev: StepInput, regions: seq<string>, resp: ScanResponses): (t: Progress)
  {
    var f := Preface(ev, resp);
    if f.failure.Some? then Progress(Raised(f.failure.value), acc, [], [], f.requests)
    else
      var v := ScanVerdict(ScanRegions(acc, regions, resp.regions, resp.ownOrg.value, resp.targetOrg.value));
      Progress(v.exit, v.account, v.writes, v.published, f.requests + v.requests)
  }

  /** After the loop: Wait when a region waited, else the scan is recorded as done. */
  function ScanVerdict(s: Scan): (t: Progress)
  {
    if s.failure.Some? then Progress(Raised(s.failure.value), s.account, s.writes, s.published, s.requests)
    else if s.waited then Progress(Returned(Wait), s.account, s.writes, s.published, s.requests)
    else Progress(Returned(Completed), s.account.(isPermissionsScanned := Some(true)), s.writes, s.published, s.requests)
  }

  /** The except clauses and the `finally`, given how the try block exited and where it
      left the record. */
  function ScanHandling(exit: StepResult<Signal>, account: Record, ev: StepInput): (o: Outcome<Signal>)
  {
    match exit
    case Returned(s) => Outcome(Returned(s), [account], [], [])
    case Raised(e) =>
      if e.ClientErr? then
        var l := LogError(Some(ev.accountId), Some(ev.companyName), OLPE, "", Some(e), true, account.slackHandle);
        Outcome(Raised(e), [account.(error := Some(l.text))], l.published, [])
      else Outcome(Raised(e), [account], EventLog(OLPE, ev, e).published, [])
  }

  /** The try block's writes and notices, then the handlers'. */
  function ScanHandlers(t: Progress, ev: StepInput): (o: Outcome<Signal>)
  {
    var h := ScanHandling(t.exit, t.account, ev);
    Outcome(h.result, t.writes + h.writes, t.published + h.published, t.requests)
  }

  function ScanAfter(acc: Record, ev: StepInput, regions: seq<string>, resp: ScanResponses): (o: Outcome<Signal>)
  {
    ScanHandlers(ScanBody(acc, ev, regions, resp), ev)
  }

  // ---- Properties ----

  /** A region without an analyzer waits, is notified once and is written back as it is,
      and no finding is asked for. */
  lemma NoAnalyzerWaits(acc: Record, region: string, rr: RegionResponses, own: string, target: string)
    requires rr.analyzers == Ok([])
    ensures var l := RegionFindings(acc.accountId, region, rr, own, target);
      var p := RegionScan(acc, region, l);
      l.requests == [ListAnalyzers(acc.accountId, region)]
      && p == Progress(Returned(Wait), acc, [acc], p.published, l.requests) && |p.published| == 1
  {
  }

  /** A condition with no active issue asks for nothing more and finds nothing; otherwise
      it finds the resources that are active in exactly one of the two finding lists. */
  lemma ConditionResult(accountId: string, region: string, arn: string, condition: string, target: string,
                        own: string, issues: Aws<seq<Finding>>, resolved: Aws<seq<Finding>>)
    requires issues.Ok?
    ensures var l := ConditionScan(accountId, region, arn, condition, target, own, issues, resolved);
      var found := ActiveResources(issues.value);
      (found == [] ==> l == Listing(None, false, [], [ListFindings(accountId, region, arn, condition, target)]))
      && (found != [] && resolved.Ok? ==>
            l.failure.None?
            && (forall x :: x in l.resources <==> (x in found) != (x in ActiveResources(resolved.value)))
            && l.requests == [ListFindings(accountId, region, arn, condition, target),
                              ListFindings(accountId, region, arn, condition, own)])
  {
    if resolved.Ok? {
      SymmetricDifferenceMembers(ActiveResources(issues.value), ActiveResources(resolved.value));
    }
  }

  /** Only ACTIVE findings count: a resource is offending in a condition only when an
      ACTIVE finding names it. */
  lemma OnlyActiveFindings(accountId: string, region: string, arn: string, condition: string, target: string,
                           own: string, issues: Aws<seq<Finding>>, resolved: Aws<seq<Finding>>, x: string)
    requires x in ConditionScan(accountId, region, arn, condition, target, own, issues, resolved).resources
    ensures issues.Ok? && resolved.Ok?
    ensures Finding(x, ACTIVE) in issues.value || Finding(x, ACTIVE) in resolved.value
  {
    var found := ActiveResources(issues.value);
    var cleared := ActiveResources(resolved.value);
    SymmetricDifferenceMembers(found, cleared);
    ActiveResourcesMembers(issues.value);
    ActiveResourcesMembers(resolved.value);
  }

  /** A region that was scanned without failure waits exactly when it has no analyzer or
      offending resources; offending resources overwrite `OrgLevelPermissions` and are
      written back, and a clean region leaves the record untouched and unwritten. */
  lemma RegionWaitIff(acc: Record, region: string, l: Listing)
    requires l.failure.None?
    ensures var p := RegionScan(acc, region, l);
      (p.exit == Returned(Wait) <==> l.noAnalyzer || l.resources != [])
      && (p.exit != Returned(Wait) ==> p.exit == Returned(Completed) && p.account == acc && p.writes == [])
      && (!l.noAnalyzer && l.resources != [] ==>
            p.account == acc.(orgLevelPermissions := Some(l.resources)) && p.writes == [p.account]
            && |p.published| == |l.resources|)
  {
  }

  /** One more region: once a region failed nothing more happens; otherwise the last
      region's failure stops the loop and its offending resources replace the stored ones. */
  lemma ScanLast(acc: Record, regions: seq<string>, oracle: string -> RegionResponses, own: string, target: string)
    requires regions != []
    ensures var n := |regions| - 1;
      var s0 := ScanRegions(acc, regions[..n], oracle, own, target);
      var s := ScanRegions(acc, regions, oracle, own, target);
      var l := RegionFindings(s0.account.accountId, regions[n], oracle(regions[n]), own, target);
      && (s0.failure.Some? ==> s == s0)
      && (s0.failure.None? ==> s.failure == l.failure)
      && (s0.failure.None? ==> s.waited == (s0.waited || RegionScan(s0.account, regions[n], l).exit == Returned(Wait)))
      && (s0.failure.None? && l.failure.None? && !l.noAnalyzer && l.resources != [] ==>
            s.account == s0.account.(orgLevelPermissions := Some(l.resources)))
      && (s0.failure.None? && (l.failure.Some? || l.noAnalyzer || l.resources == []) ==> s.account == s0.account)
  {
  }

  /** The loop after region `i`, from the loop before it. */
  lemma ScanExtend(acc: Record, regions: seq<string>, oracle: string -> RegionResponses, own: string, target: string,
                   i: nat)
    requires i < |regions| && ScanRegions(acc, regions[..i], oracle, own, target).failure.None?
    ensures var s0 := ScanRegions(acc, regions[..i], oracle, own, target);
      var p := RegionScan(s0.account, regions[i], RegionFindings(s0.account.accountId, regions[i], oracle(regions[i]), own, target));
      ScanRegions(acc, regions[..i + 1], oracle, own, target)
      == Scan(if p.exit.Raised? then Some(p.exit.exc) else None, s0.waited || p.exit == Returned(Wait), p.account,
              s0.writes + p.writes, s0.published + p.published, s0.requests + p.requests)
  {
    assert regions[..i + 1][..i] == regions[..i];
  }

  /** The regions are scanned in the same account; the loop only changes the record's
      `OrgLevelPermissions`. */
  lemma {:induction false} ScanKeepsRecord(acc: Record, regions: seq<string>, oracle: string -> RegionResponses,
                                           own: string, target: string)
    ensures var s := ScanRegions(acc, regions, oracle, own, target);
      s.account == acc.(orgLevelPermissions := s.account.orgLevelPermissions)
  {
    if regions != [] {
      ScanKeepsRecord(acc, regions[..|regions| - 1], oracle, own, target);
      ScanLast(acc, regions, oracle, own, target);
    }
  }

  /** The offending resources region `region` of account `accountId` reports. */
  function Offending(accountId: string, region: string, oracle: string -> RegionResponses, own: string, target: string): seq<string>
  {
    RegionFindings(accountId, region, oracle(region), own, target).resources
  }

  /** What the last region does to the stored permissions: its offending resources
      replace them, and a clean region keeps those of the regions before it. */
  lemma LastRegionPermissions(acc: Record, regions: seq<string>, oracle: string -> RegionResponses,
                              own: string, target: string)
    requires regions != [] && ScanRegions(acc, regions, oracle, own, target).failure.None?
    ensures var n := |regions| - 1;
      var s0 := ScanRegions(acc, regions[..n], oracle, own, target);
      var s := ScanRegions(acc, regions, oracle, own, target);
      var off := Offending(acc.accountId, regions[n], oracle, own, target);
      s0.failure.None?
      && (off != [] ==> s.account.orgLevelPermissions == Some(off))
      && (off == [] ==> s.account.orgLevelPermissions == s0.account.orgLevelPermissions)
  {
    var n := |regions| - 1;
    var pre := regions[..n];
    var s0 := ScanRegions(acc, pre, oracle, own, target);
    ScanLast(acc, regions, oracle, own, target);
    ScanKeepsRecord(acc, pre, oracle, own, target);
    assert s0.failure.None?;
    var l := RegionFindings(s0.account.accountId, regions[n], oracle(regions[n]), own, target);
    assert s0.account.accountId == acc.accountId;
    assert l.resources == Offending(acc.accountId, regions[n], oracle, own, target);
    assert l.failure.None?;
  }

  /** When no region failed and region `i` is the last with offending resources, the
      stored `OrgLevelPermissions` are region `i`'s. */
  lemma {:induction false} LastOffendingAt(acc: Record, regions: seq<string>, oracle: string -> RegionResponses,
                                           own: string, target: string, i: nat)
    requires ScanRegions(acc, regions, oracle, own, target).failure.None?
    requires i < |regions| && Offending(acc.accountId, regions[i], oracle, own, target) != []
    requires forall j | i < j < |regions| :: Offending(acc.accountId, regions[j], oracle, own, target) == []
    ensures ScanRegions(acc, regions, oracle, own, target).account.orgLevelPermissions
            == Some(Offending(acc.accountId, regions[i], oracle, own, target))
  {
    var n := |regions| - 1;
    var pre := regions[..n];
    LastRegionPermissions(acc, regions, oracle, own, target);
    if i < n {
      assert pre[i] == regions[i];
      forall j | i < j < n ensures Offending(acc.accountId, pre[j], oracle, own, target) == [] {
        assert pre[j] == regions[j];
      }
      LastOffendingAt(acc, pre, oracle, own, target, i);
    }
  }

  /** When no region had offending resources, the loop leaves the record as it was. */
  lemma {:induction false} NoOffendingKeepsRecord(acc: Record, regions: seq<string>, oracle: string -> RegionResponses,
                                                  own: string, target: string)
    requires ScanRegions(acc, regions, oracle, own, target).failure.None?
    requires forall i | 0 <= i < |regions| :: Offending(acc.accountId, regions[i], oracle, own, target) == []
    ensures ScanRegions(acc, regions, oracle, own, target).account == acc
  {
    if regions != [] {
      var n := |regions| - 1;
      var pre := regions[..n];
      ScanLast(acc, regions, oracle, own, target);
      ScanKeepsRecord(acc, pre, oracle, own, target);
      assert ScanRegions(acc, pre, oracle, own, target).failure.None?;
      forall i | 0 <= i < n ensures Offending(acc.accountId, pre[i], oracle, own, target) == [] {
        assert pre[i] == regions[i];
      }
      NoOffendingKeepsRecord(acc, pre, oracle, own, target);
    }
  }

  /** When no region failed, the stored `OrgLevelPermissions` are those of the last region
      with offending resources, and the record is the one loaded when there is none. */
  lemma LastOffendingRegionStored(acc: Record, regions: seq<string>, oracle: string -> RegionResponses,
                                  own: string, target: string)
    requires ScanRegions(acc, regions, oracle, own, target).failure.None?
    ensures var s := ScanRegions(acc, regions, oracle, own, target);
      && ((forall i | 0 <= i < |regions| :: Offending(acc.accountId, regions[i], oracle, own, target) == []) ==>
            s.account == acc)
      && forall i | 0 <= i < |regions| && Offending(acc.accountId, regions[i], oracle, own, target) != []
                    && (forall j | i < j < |regions| :: Offending(acc.accountId, regions[j], oracle, own, target) == []) ::
           s.account.orgLevelPermissions == Some(Offending(acc.accountId, regions[i], oracle, own, target))
  {
    if forall i | 0 <= i < |regions| :: Offending(acc.accountId, regions[i], oracle, own, target) == [] {
      NoOffendingKeepsRecord(acc, regions, oracle, own, target);
    }
    forall i | 0 <= i < |regions| && Offending(acc.accountId, regions[i], oracle, own, target) != []
               && (forall j | i < j < |regions| :: Offending(acc.accountId, regions[j], oracle, own, target) == [])
      ensures ScanRegions(acc, regions, oracle, own, target).account.orgLevelPermissions
              == Some(Offending(acc.accountId, regions[i], oracle, own, target))
    {
      LastOffendingAt(acc, regions, oracle, own, target, i);
    }
  }

  /** What the queries of region `region` find makes it answer Wait. */
  predicate Waits(accountId: string, region: string, oracle: string -> RegionResponses, own: string, target: string)
  {
    var l := RegionFindings(accountId, region, oracle(region), own, target);
    l.noAnalyzer || l.resources != []
  }

  /** A region that answers Wait makes the whole loop wait. */
  lemma {:induction false} RegionWaitMakesScanWait(acc: Record, regions: seq<string>, oracle: string -> RegionResponses,
                                                   own: string, target: string, i: nat)
    requires ScanRegions(acc, regions, oracle, own, target).failure.None?
    requires i < |regions| && Waits(acc.accountId, regions[i], oracle, own, target)
    ensures ScanRegions(acc, regions, oracle, own, target).waited
  {
    var n := |regions| - 1;
    var pre := regions[..n];
    var s0 := ScanRegions(acc, pre, oracle, own, target);
    ScanLast(acc, regions, oracle, own, target);
    assert s0.failure.None?;
    var l := RegionFindings(s0.account.accountId, regions[n], oracle(regions[n]), own, target);
    if i < n {
      assert pre[i] == regions[i];
      RegionWaitMakesScanWait(acc, pre, oracle, own, target, i);
      assert s0.waited;
    } else {
      ScanKeepsRecord(acc, pre, oracle, own, target);
      assert s0.account.accountId == acc.accountId;
      assert i == n;
      assert Waits(s0.account.accountId, regions[n], oracle, own, target);
      assert l.failure.None? && (l.noAnalyzer || l.resources != []);
      RegionWaitIff(s0.account, regions[n], l);
      assert RegionScan(s0.account, regions[n], l).exit == Returned(Wait);
    }
  }

  /** A loop that waits has a region that answered Wait. */
  lemma {:induction false} ScanWaitHasRegion(acc: Record, regions: seq<string>, oracle: string -> RegionResponses,
                                             own: string, target: string)
    returns (i: nat)
    requires ScanRegions(acc, regions, oracle, own, target).failure.None?
    requires ScanRegions(acc, regions, oracle, own, target).waited
    ensures i < |regions| && Waits(acc.accountId, regions[i], oracle, own, target)
  {
    var n := |regions| - 1;
    var pre := regions[..n];
    var s0 := ScanRegions(acc, pre, oracle, own, target);
    ScanLast(acc, regions, oracle, own, target);
    assert s0.failure.None?;
    ScanKeepsRecord(acc, pre, oracle, own, target);
    var l := RegionFindings(s0.account.accountId, regions[n], oracle(regions[n]), own, target);
    assert s0.account.accountId == acc.accountId;
    RegionWaitIff(s0.account, regions[n], l);
    if Waits(acc.accountId, regions[n], oracle, own, target) {
      i := n;
    } else {
      i := ScanWaitHasRegion(acc, pre, oracle, own, target);
      assert pre[i] == regions[i];
    }
  }

  /** When no region failed, the loop waited exactly when some region answered Wait. */
  lemma WaitedIffSomeRegionWaits(acc: Record, regions: seq<string>, oracle: string -> RegionResponses,
                                 own: string, target: string)
    requires ScanRegions(acc, regions, oracle, own, target).failure.None?
    ensures ScanRegions(acc, regions, oracle, own, target).waited
            <==> exists i | 0 <= i < |regions| :: Waits(acc.accountId, regions[i], oracle, own, target)
  {
    if ScanRegions(acc, regions, oracle, own, target).waited {
      var i := ScanWaitHasRegion(acc, regions, oracle, own, target);
    }
    if exists i | 0 <= i < |regions| :: Waits(acc.accountId, regions[i], oracle, own, target) {
      var i :| 0 <= i < |regions| && Waits(acc.accountId, regions[i], oracle, own, target);
      RegionWaitMakesScanWait(acc, regions, oracle, own, target, i);
    }
  }

  /** After a failure the loop stops: the later regions are never scanned. */
  lemma {:induction false} FailureStopsScan(acc: Record, regions: seq<string>, oracle: string -> RegionResponses,
                                            own: string, target: string, k: nat)
    requires k <= |regions| && ScanRegions(acc, regions[..k], oracle, own, target).failure.Some?
    ensures ScanRegions(acc, regions, oracle, own, target) == ScanRegions(acc, regions[..k], oracle, own, target)
    decreases |regions| - k
  {
    if k < |regions| {
      var pre := regions[..k + 1];
      assert pre[..k] == regions[..k];
      ScanLast(acc, pre, oracle, own, target);
      assert regions[..k + 1][..k + 1] == regions[..k + 1];
      FailureStopsScan(acc, regions, oracle, own, target, k + 1);
    } else {
      assert regions[..k] == regions;
    }
  }

  /** The step is Completed, with `IsPermissionsScanned` set, exactly when every call
      went through and no region waited; on every other path that column is left as it
      was. The record is written last on every path. */
  lemma CompletedIffScanned(acc: Record, ev: StepInput, regions: seq<string>, resp: ScanResponses)
    ensures var o := ScanAfter(acc, ev, regions, resp);
      var t := ScanBody(acc, ev, regions, resp);
      |o.writes| >= 1
      && (o.result == Returned(Completed) <==>
            resp.session.Ok? && resp.targetOrg.Ok? && resp.ownOrg.Ok?
            && var s := ScanRegions(acc, regions, resp.regions, resp.ownOrg.value, resp.targetOrg.value);
               s.failure.None? && !s.waited)
      && (o.result == Returned(Completed) ==> o.writes[|o.writes| - 1].isPermissionsScanned == Some(true))
      && (o.result != Returned(Completed) ==>
            o.writes[|o.writes| - 1].isPermissionsScanned == acc.isPermissionsScanned)
  {
    if resp.session.Ok? && resp.targetOrg.Ok? && resp.ownOrg.Ok? {
      ScanKeepsRecord(acc, regions, resp.regions, resp.ownOrg.value, resp.targetOrg.value);
    }
  }

  /** A ClientError is recorded on the record, notified under the event's account and
      re-raised; any other exception is notified and re-raised. */
  lemma ErrorsReraised(acc: Record, ev: StepInput, regions: seq<string>, resp: ScanResponses)
    requires ScanBody(acc, ev, regions, resp).exit.Raised?
    ensures var t := ScanBody(acc, ev, regions, resp);
      var o := ScanAfter(acc, ev, regions, resp);
      o.result == t.exit && |o.published| == |t.published| + 1
      && o.published[|o.published| - 1].notice.accountId == Some(ev.accountId)
      && (t.exit.exc.ClientErr? ==>
            o.writes[|o.writes| - 1] == t.account.(error := Some(ExcText(Some(t.exit.exc)))))
  {
  }

  // ---- The step, imperatively ----

  method ConditionScanRun(b: Backend, accountId: string, region: string, arn: string, condition: string,
                          target: string, own: string, issues: Aws<seq<Finding>>, resolved: Aws<seq<Finding>>)
    returns (failure: Option<Exc>, resources: seq<string>)
    modifies b`requests
    ensures var l := ConditionScan(accountId, region, arn, condition, target, own, issues, resolved);
      failure == l.failure && resources == l.resources
      && b.requests == old(b.requests) + l.requests
  {
    b.Send(ListFindings(accountId, region, arn, condition, target));
    if !issues.Ok? {
      return Some(Raise(issues)), [];
    }
    var found := ActiveResources(issues.value);
    if found == [] {
      return None, [];
    }
    b.Send(ListFindings(accountId, region, arn, condition, own));
    if !resolved.Ok? {
      return Some(Raise(resolved)), [];
    }
    failure, resources := None, SymmetricDifference(found, ActiveResources(resolved.value));
  }

  method RegionFindingsRun(b: Backend, accountId: string, region: string, rr: RegionResponses, own: string, target: string)
    returns (failure: Option<Exc>, noAnalyzer: bool, resources: seq<string>)
    modifies b`requests
    ensures var l := RegionFindings(accountId, region, rr, own, target);
      failure == l.failure && noAnalyzer == l.noAnalyzer && resources == l.resources
      && b.requests == old(b.requests) + l.requests
  {
    b.Send(ListAnalyzers(accountId, region));
    if !rr.analyzers.Ok? {
      return Some(Raise(rr.analyzers)), false, [];
    }
    if rr.analyzers.value == [] {
      return None, true, [];
    }
    noAnalyzer := false;
    failure, resources := BothConditionsRun(b, accountId, region, rr.analyzers.value[0], rr, own, target);
  }

  method BothConditionsRun(b: Backend, accountId: string, region: string, arn: string, rr: RegionResponses,
                           own: string, target: string)
    returns (failure: Option<Exc>, resources: seq<string>)
    modifies b`requests
    ensures var l := BothConditions(accountId, region, arn, rr, own, target);
      failure == l.failure && resources == l.resources
      && b.requests == old(b.requests) + l.requests
  {
    var orgList, pathList;
    failure, orgList := ConditionScanRun(b, accountId, region, arn, ORG_ID_CONDITION, target, own, rr.orgIssues, rr.orgResolved);
    if failure.Some? {
      return failure, [];
    }
    failure, pathList := ConditionScanRun(b, accountId, region, arn, ORG_PATHS_CONDITION, target, own, rr.pathIssues,
                                          rr.pathResolved);
    resources := if failure.Some? then [] else orgList + pathList;
  }

  /** The `for resource in org_level_permissions` loop: one notice per resource. */
  method NotifyResources(b: Backend, acc: Record, resources: seq<string>)
    modifies b
    ensures b.published == old(b.published) + ResourceNotices(acc, resources)
    ensures b.items == old(b.items) && b.requests == old(b.requests)
  {
    var i := 0;
    while i < |resources|
      invariant 0 <= i <= |resources|
      invariant b.published == old(b.published) + ResourceNotices(acc, resources[..i])
      invariant b.items == old(b.items) && b.requests == old(b.requests)
    {
      var m := LogError(Some(acc.accountId), Some(acc.companyName), OLPE, "Resource " + resources[i] + ORG_LEVEL_ACCESS,
                        None, true, acc.slackHandle);
      b.Publish(m.published);
      assert resources[..i + 1][..i] == resources[..i];
      i := i + 1;
    }
    assert resources[..|resources|] == resources;
  }

  method RegionScanRun(b: Backend, acc: Record, region: string, rr: RegionResponses, own: string, target: string,
                       now: int)
    returns (exit: StepResult<Signal>, account: Record)
    modifies b
    ensures var p := RegionScan(acc, region, RegionFindings(acc.accountId, region, rr, own, target));
      exit == p.exit && account == p.account && b.items == ApplyWrites(old(b.items), p.writes, now)
      && b.published == old(b.published) + p.published && b.requests == old(b.requests) + p.requests
  {
    account := acc;
    var failure, noAnalyzer, resources := RegionFindingsRun(b, acc.accountId, region, rr, own, target);
    if failure.Some? {
      return Raised(failure.value), account;
    }
    if noAnalyzer {
      var m := LogError(Some(acc.accountId), Some(acc.companyName), OLPE, NO_ANALYZER + region, None, true,
                        acc.slackHandle);
      b.Publish(m.published);
      b.Put(account, now);
      return Returned(Wait), account;
    }
    if resources == [] {
      return Returned(Completed), account;
    }
    NotifyResources(b, acc, resources);
    account := account.(orgLevelPermissions := Some(resources));
    b.Put(account, now);
    exit := Returned(Wait);
  }

  /** The region loop of `lambda_handler`; an exception leaves the loop. */
  method ScanRegionsRun(b: Backend, acc: Record, regions: seq<string>, oracle: string -> RegionResponses,
                        own: string, target: string, now: int)
    returns (failure: Option<Exc>, waited: bool, account: Record)
    modifies b
    ensures var s := ScanRegions(acc, regions, oracle, own, target);
      failure == s.failure && waited == s.waited && account == s.account
      && b.items == ApplyWrites(old(b.items), s.writes, now)
      && b.published == old(b.published) + s.published && b.requests == old(b.requests) + s.requests
  {
    failure, waited, account := None, false, acc;
    var i := 0;
    assert regions[..0] == [];
    while i < |regions|
      invariant 0 <= i <= |regions|
      invariant var s := ScanRegions(acc, regions[..i], oracle, own, target);
        failure == s.failure && waited == s.waited && account == s.account
        && b.items == ApplyWrites(old(b.items), s.writes, now)
        && b.published == old(b.published) + s.published && b.requests == old(b.requests) + s.requests
      invariant failure.None?
    {
      ghost var s0 := ScanRegions(acc, regions[..i], oracle, own, target);
      ghost var p := RegionScan(s0.account, regions[i],
                                RegionFindings(s0.account.accountId, regions[i], oracle(regions[i]), own, target));
      ghost var before, published0, requests0 := b.items, b.published, b.requests;
      var exit;
      exit, account := RegionScanRun(b, account, regions[i], oracle(regions[i]), own, target, now);
      assert exit == p.exit && account == p.account && b.items == ApplyWrites(before, p.writes, now);
      ScanExtend(acc, regions, oracle, own, target, i);
      ApplyWritesConcat(old(b.items), s0.writes, p.writes, now);
      ConcatAssoc(old(b.published), s0.published, p.published);
      ConcatAssoc(old(b.requests), s0.requests, p.requests);
      i := i + 1;
      if exit.Raised? {
        FailureStopsScan(acc, regions, oracle, own, target, i);
        return Some(exit.exc), waited, account;
      }
      waited := waited || exit == Returned(Wait);
    }
    assert regions[..i] == regions;
  }

  method ScanBodyRun(b: Backend, acc: Record, ev: StepInput, regions: seq<string>, resp: ScanResponses, now: int)
    returns (exit: StepResult<Signal>, account: Record)
    modifies b
    ensures var t := ScanBody(acc, ev, regions, resp);
      exit == t.exit && account == t.account && b.items == ApplyWrites(old(b.items), t.writes, now)
      && b.published == old(b.published) + t.published && b.requests == old(b.requests) + t.requests
  {
    ghost var f := Preface(ev, resp);
    var failure := PrefaceRun(b, ev, resp);
    if failure.Some? {
      return Raised(failure.value), acc;
    }
    ghost var v := ScanVerdict(ScanRegions(acc, regions, resp.regions, resp.ownOrg.value, resp.targetOrg.value));
    exit, account := ScanVerdictRun(b, acc, regions, resp.regions, resp.ownOrg.value, resp.targetOrg.value, now);
    ConcatAssoc(old(b.requests), f.requests, v.requests);
  }

  method PrefaceRun(b: Backend, ev: StepInput, resp: ScanResponses) returns (failure: Option<Exc>)
    modifies b`requests
    ensures var f := Preface(ev, resp);
      failure == f.failure && b.requests == old(b.requests) + f.requests
    ensures failure.None? ==> resp.session.Ok? && resp.targetOrg.Ok? && resp.ownOrg.Ok?
  {
    b.Send(AssumeRole(ev.accountId, AWS_MASTER_ROLE, None));
    if !resp.session.Ok? {
      return Some(Raise(resp.session));
    }
    b.Send(DescribeOrganization(Some(ev.accountId)));
    if !resp.targetOrg.Ok? {
      return Some(Raise(resp.targetOrg));
    }
    b.Send(DescribeOrganization(None));
    if !resp.ownOrg.Ok? {
      return Some(Raise(resp.ownOrg));
    }
    failure := None;
  }

  /** The region loop, then the verdict on the account. */
  method ScanVerdictRun(b: Backend, acc: Record, regions: seq<string>, oracle: string -> RegionResponses,
                        own: string, target: string, now: int)
    returns (exit: StepResult<Signal>, account: Record)
    modifies b
    ensures var t := ScanVerdict(ScanRegions(acc, regions, oracle, own, target));
      exit == t.exit && account == t.account && b.items == ApplyWrites(old(b.items), t.writes, now)
      && b.published == old(b.published) + t.published && b.requests == old(b.requests) + t.requests
  {
    var failure, waited;
    failure, waited, account := ScanRegionsRun(b, acc, regions, oracle, own, target, now);
    if failure.Some? {
      return Raised(failure.value), account;
    }
    if waited {
      return Returned(Wait), account;
    }
    account := account.(isPermissionsScanned := Some(true));
    exit := Returned(Completed);
  }

  method ScanHandlersRun(b: Backend, exit: StepResult<Signal>, acc: Record, ev: StepInput, now: int)
    returns (r: StepResult<Signal>)
    modifies b
    ensures var h := ScanHandling(exit, acc, ev);
      r == h.result && b.items == ApplyWrites(old(b.items), h.writes, now)
      && b.published == old(b.published) + h.published && b.requests == old(b.requests)
  {
    var account := acc;
    r := exit;
    if exit.Raised? {
      var e := exit.exc;
      if e.ClientErr? {
        var l := LogError(Some(ev.accountId), Some(ev.companyName), OLPE, "", Some(e), true, account.slackHandle);
        b.Publish(l.published);
        account := account.(error := Some(l.text));
      } else {
        b.Publish(EventLog(OLPE, ev, e).published);
      }
    }
    b.Put(account, now);
  }

  method ScanAfterRun(b: Backend, acc: Record, ev: StepInput, regions: seq<string>, resp: ScanResponses, now: int)
    returns (r: StepResult<Signal>)
    modifies b
    ensures var o := ScanAfter(acc, ev, regions, resp);
      r == o.result && Realizes(b, o, now)
  {
    ghost var t := ScanBody(acc, ev, regions, resp);
    var exit, account := ScanBodyRun(b, acc, ev, regions, resp, now);
    r := ScanHandlersRun(b, exit, account, ev, now);
    ghost var h := ScanHandling(exit, account, ev);
    ApplyWritesConcat(old(b.items), t.writes, h.writes, now);
    ConcatAssoc(old(b.published), t.published, h.published);
  }

  /** `lambda_handler(event)`: the record is loaded, the regions of `event["Regions"]`
      scanned, and the record written back in `finally`. */
  method ScanAccount(b: Backend, ev: StepInput, regions: seq<string>, resp: ScanResponses, now: int)
    returns (r: StepResult<Signal>)
    modifies b
    ensures (ev.companyName, ev.accountId) !in old(b.items) ==>
      r == Raised(IndexErr) && b.items == old(b.items)
      && b.published == old(b.published) + EventLog(OLPE, ev, IndexErr).published && b.requests == old(b.requests)
    ensures (ev.companyName, ev.accountId) in old(b.items) ==>
      var o := ScanAfter(old(b.items)[(ev.companyName, ev.accountId)], ev, regions, resp);
      r == o.result && Realizes(b, o, now)
  {
    var found := AccountById(b.items, ev.companyName, ev.accountId);
    if found.None? {
      b.Publish(EventLog(OLPE, ev, IndexErr).published);
      return Raised(IndexErr);
    }
    r := ScanAfterRun(b, found.value, ev, regions, resp, now);
  }
}
