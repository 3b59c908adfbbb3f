/** The scan-status step: reports whether the permission scan of an account has been
    recorded as done. */
module CheckOrgScanStatus {
  import opened Documents
  import opened Constant
  import opened Base
  import opened MeLogger
  import opened Store
  import OrgDependentResources

  /** `Completed if account.get("IsPermissionsScanned") else Wait`. */
  function ScanStatusOf(acc: Record): (s: Signal)
  {
    if acc.isPermissionsScanned == Some(true) then Completed else Wait
  }

  /** `get_account_scan_status(event)`: the status of the account the event names, or the
      lookup failure, logged. */
  function ScanStatusSpec(items: map<Key, Record>, ev: Event): (o: Outcome<Signal>)
  {
    var i := Unwrap(ev);
    if (i.companyName, i.accountId) !in items then
      Outcome(Raised(IndexErr), [], EventLog(OLPE, i, IndexErr).published, [])
    else Outcome(Returned(ScanStatusOf(items[(i.companyName, i.accountId)])), [], [], [])
  }

  // ---- Properties ----

  /** The step only reads: it never writes the table and makes no AWS call; it answers
      Completed exactly when the record's scan flag is true, Wait otherwise, and it
      notifies only a failed lookup. */
  lemma StatusFollowsFlag(items: map<Key, Record>, ev: Event)
    ensures var o := ScanStatusSpec(items, ev);
      var i := Unwrap(ev);
      o.writes == [] && o.requests == []
      && (o.result == Returned(Completed) <==>
            (i.companyName, i.accountId) in items && items[(i.companyName, i.accountId)].isPermissionsScanned == Some(true))
      && (o.result == Returned(Wait) <==>
            (i.companyName, i.accountId) in items && items[(i.companyName, i.accountId)].isPermissionsScanned != Some(true))
      && (o.result.Raised? <==> |o.published| == 1)
  {
  }

  /** The event may come wrapped in `Data`: both forms give the same answer. */
  lemma DataEnvelopeIgnored(items: map<Key, Record>, i: StepInput)
    ensures ScanStatusSpec(items, InData(i)) == ScanStatusSpec(items, Bare(i))
  {
  }

  /** After a permission scan that ended Completed, the status check of the same account
      answers Completed; after one that waited, it answers as for the record before. */
  lemma StatusAfterScan(items: map<Key, Record>, ev: Base.StepInput, regions: seq<string>,
                        resp: OrgDependentResources.ScanResponses, now: int)
    requires WellKeyed(items) && (ev.companyName, ev.accountId) in items
    ensures var acc := items[(ev.companyName, ev.accountId)];
      var o := OrgDependentResources.ScanAfter(acc, ev, regions, resp);
      var after := ApplyWrites(items, o.writes, now);
      (ev.companyName, ev.accountId) in after
      && (o.result == Returned(Completed) ==> ScanStatusSpec(after, Bare(ev)).result == Returned(Completed))
      && (o.result != Returned(Completed) ==>
            ScanStatusSpec(after, Bare(ev)).result == ScanStatusSpec(items, Bare(ev)).result)
  {
    var acc := items[(ev.companyName, ev.accountId)];
    var o := OrgDependentResources.ScanAfter(acc, ev, regions, resp);
    OrgDependentResources.CompletedIffScanned(acc, ev, regions, resp);
    var f := OrgDependentResources.Preface(ev, resp);
    if f.failure.None? {
      OrgDependentResources.ScanKeepsRecord(acc, regions, resp.regions, resp.ownOrg.value, resp.targetOrg.value);
    }
    var w := o.writes[|o.writes| - 1];
    assert KeyOf(w) == (ev.companyName, ev.accountId);
    assert ApplyWrites(items, o.writes, now)[(ev.companyName, ev.accountId)] == Stamp(w, now);
  }

  // ---- The step ----

  /** `lambda_handler(event)`: `ScanStatusSpec` against the table. */
  method GetAccountScanStatus(b: Backend, ev: Event) returns (r: StepResult<Signal>)
    modifies b`published
    ensures var o := ScanStatusSpec(old(b.items), ev);
      r == o.result && b.published == old(b.published) + o.published
  {
    var i := Unwrap(ev);
    var found := AccountById(b.items, i.companyName, i.accountId);
    if found.None? {
      b.Publish(EventLog(OLPE, i, IndexErr).published);
      return Raised(IndexErr);
    }
    r := Returned(if found.value.isPermissionsScanned == Some(true) then Completed else Wait);
  }
}
