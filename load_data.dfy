/** The first step of a company's migration: reads the account spreadsheet, keeps the
    accounts the table does not hold yet, checks they all belong to the company and loads
    them. */
module LoadData {
  import opened Documents
  import opened Strings
  import opened Constant
  import opened Base
  import opened MeLogger
  import opened DynamoDb
  import opened Data
  import opened Store

  const SAME_COMPANY := "All accounts must belong to the same company."
  const NO_ZFILL := "object has no attribute 'zfill'"
  const STARTED_COLOR := "#0ec1eb"
  const STARTED := "Migration Engine Started"
  const STARTED_FOR := "Migration Engine Started for company "

  /** The ids of the company's accounts in the table. */
  function ExistingIds(items: map<Key, Record>, company: string): (ids: set<string>)
  {
    set k | k in items && k.0 == company :: k.1
  }

  /** The row has a string `AccountId`, as `account["AccountId"].zfill(12)` needs. */
  predicate HasId(row: Row)
  {
    "AccountId" in row && row["AccountId"].Str?
  }

  /** The row's zero-filled id is not among `existing`. */
  predicate IsNew(row: Row, existing: set<string>)
  {
    HasId(row) && ZFill(row["AccountId"].s, ACCOUNT_ID_WIDTH) !in existing
  }

  /** The list comprehension of `generate_account_updates`: the rows that are new, in
      order; the first row without a string id stops it. */
  function NewAccounts(rows: seq<Row>, existing: set<string>): (r: StepResult<seq<Row>>)
    decreases |rows|
  {
    if rows == [] then Returned([])
    else if "AccountId" !in rows[0] then Raised(KeyErr("AccountId"))
    else if !rows[0]["AccountId"].Str? then Raised(AttrErr(NO_ZFILL))
    else
      match NewAccounts(rows[1..], existing)
      case Raised(e) => Raised(e)
      case Returned(rest) => Returned(if IsNew(rows[0], existing) then [rows[0]] + rest else rest)
  }

  /** The row names a company, and not this one. */
  predicate Foreign(row: Row, company: string)
  {
    "CompanyName" in row && Truthy(row["CompanyName"]) && row["CompanyName"] != Str(company)
  }

  /** `generate_account_updates(company_name, account_data)`, with `existing` the ids the
      company's query returns. */
  function GenerateAccountUpdates(existing: set<string>, company: string, rows: seq<Row>): (r: StepResult<seq<Row>>)
  {
    match NewAccounts(rows, existing)
    case Raised(e) => Raised(e)
    case Returned(news) =>
      if exists i | 0 <= i < |news| :: Foreign(news[i], company) then Raised(ValueErr(SAME_COMPANY)) else Returned(news)
  }

  /** `a` is `b` with some elements left out, the rest in order. */
  predicate Subsequence<T(==)>(a: seq<T>, b: seq<T>)
    decreases |b|
  {
    if a == [] then true
    else if b == [] then false
    else (a[0] == b[0] && Subsequence(a[1..], b[1..])) || Subsequence(a, b[1..])
  }

  // ---- Properties ----

  /** The comprehension succeeds exactly when every row has a string id, and then keeps
      exactly the new rows: in their order, each as often as it occurs. */
  lemma {:induction false} NewAccountsFilter(rows: seq<Row>, existing: set<string>)
    ensures NewAccounts(rows, existing).Returned? <==> forall i | 0 <= i < |rows| :: HasId(rows[i])
    ensures NewAccounts(rows, existing).Returned? ==>
      var news := NewAccounts(rows, existing).value;
      Subsequence(news, rows)
      && (forall r :: r in news <==> r in rows && IsNew(r, existing))
      && (forall r | r in rows :: multiset(news)[r] == if IsNew(r, existing) then multiset(rows)[r] else 0)
    decreases |rows|
  {
    if rows != [] {
      var x, rest := rows[0], rows[1..];
      NewAccountsFilter(rest, existing);
      assert rows == [x] + rest;
      if !HasId(x) {
        assert !HasId(rows[0]);
      } else {
        assert (forall i | 0 <= i < |rows| :: HasId(rows[i])) <==> (forall i | 0 <= i < |rest| :: HasId(rest[i])) by {
          if forall i | 0 <= i < |rest| :: HasId(rest[i]) {
            forall i | 0 <= i < |rows| ensures HasId(rows[i]) {
              if i > 0 {
                assert rows[i] == rest[i - 1];
              }
            }
          }
          if forall i | 0 <= i < |rows| :: HasId(rows[i]) {
            forall i | 0 <= i < |rest| ensures HasId(rest[i]) {
              assert rest[i] == rows[i + 1];
            }
          }
        }
        if NewAccounts(rest, existing).Returned? {
          var tail := NewAccounts(rest, existing).value;
          var news := NewAccounts(rows, existing).value;
          assert news == if IsNew(x, existing) then [x] + tail else tail;
          if IsNew(x, existing) {
            assert news[0] == rows[0] && news[1..] == tail;
          }
          forall r | r in rows
            ensures multiset(news)[r] == if IsNew(r, existing) then multiset(rows)[r] else 0
          {
            assert multiset(rows) == multiset{x} + multiset(rest);
            if r !in rest {
              assert multiset(tail)[r] == 0;
            }
          }
        }
      }
    }
  }

  /** The company check runs on the new rows only: the update list is refused exactly
      when a new row names another company; a row that names none, or an empty one, is
      accepted, and an existing account is not looked at. */
  lemma CompanyCheckOnNewRows(existing: set<string>, company: string, rows: seq<Row>)
    requires forall i | 0 <= i < |rows| :: HasId(rows[i])
    ensures var r := GenerateAccountUpdates(existing, company, rows);
      (r.Raised? <==> exists i | 0 <= i < |rows| :: IsNew(rows[i], existing) && Foreign(rows[i], company))
      && (r.Raised? ==> r.exc == ValueErr(SAME_COMPANY))
      && (r.Returned? ==> r.value == NewAccounts(rows, existing).value)
  {
    NewAccountsFilter(rows, existing);
    var news := NewAccounts(rows, existing).value;
    if exists i | 0 <= i < |news| :: Foreign(news[i], company) {
      var i :| 0 <= i < |news| && Foreign(news[i], company);
      assert news[i] in news;
      var j :| 0 <= j < |rows| && rows[j] == news[i];
      assert IsNew(rows[j], existing) && Foreign(rows[j], company);
    }
    if exists j | 0 <= j < |rows| :: IsNew(rows[j], existing) && Foreign(rows[j], company) {
      var j :| 0 <= j < |rows| && IsNew(rows[j], existing) && Foreign(rows[j], company);
      assert rows[j] in rows;
      var i :| 0 <= i < |news| && news[i] == rows[j];
      assert Foreign(news[i], company);
    }
  }

  // ---- The step ----

  /** What one run of the step does: its answer, the new rows it hands to `batch_write`,
      what it publishes and the AWS calls it makes. */
  datatype Load = Load(result: StepResult<CompanyStatus>, loaded: seq<Row>, published: seq<Publication>,
                       requests: seq<Request>)

  function StartedMessage(company: string): SlackMessage
  {
    SlackMessage(STARTED_COLOR, AUTHOR_NAME, STARTED, STARTED_FOR + company)
  }

  /** The download the step asks for, once the location passed its checks. */
  function Downloads(url: string): (qs: seq<Request>)
  {
    if Location(url).Returned? then [GetObject(Location(url).value.0, Location(url).value.1)] else []
  }

  /** The try block up to the update list: the spreadsheet's rows, filtered and checked. */
  function Updates(items: map<Key, Record>, company: string, url: string, fetched: Aws<Sheet>): (r: StepResult<seq<Row>>)
  {
    match GetAccountData(url, fetched)
    case Raised(e) => Raised(e)
    case Returned(rows) => GenerateAccountUpdates(ExistingIds(items, company), company, rows)
  }

  /** `lambda_handler(event)` for the file `filePath` of the shared bucket, whose download
      answers `fetched`. Any exception is logged for the company and re-raised. */
  function LoadSpec(items: map<Key, Record>, cfg: Config, company: string, filePath: string, fetched: Aws<Sheet>)
    : (o: Load)
  {
    var url := S3_SCHEME + cfg.sharedBucket + "/" + filePath;
    match Updates(items, company, url, fetched)
    case Raised(e) =>
      Load(Raised(e), [], LogError(None, Some(company), LDE, "", Some(e), true, None).published, Downloads(url))
    case Returned(updates) =>
      Load(Returned(CompanyStatus(Completed, company)), updates, [UserNotice(None, StartedMessage(company))],
           Downloads(url))
  }

  /** The step loads only accounts the company does not have yet, and only when it
      completes; it then announces the start. On an exception nothing is loaded and the
      error is notified once. */
  lemma LoadsOnlyNewAccounts(items: map<Key, Record>, cfg: Config, company: string, filePath: string,
                             fetched: Aws<Sheet>)
    ensures var o := LoadSpec(items, cfg, company, filePath, fetched);
      (o.result.Returned? ==> o.result.value == CompanyStatus(Completed, company)
                              && o.published == [UserNotice(None, StartedMessage(company))])
      && (o.result.Raised? ==> o.loaded == [] && |o.published| == 1 && o.published[0].notice.errorType == LDE)
      && forall i | 0 <= i < |o.loaded| :: IsNew(o.loaded[i], ExistingIds(items, company))
  {
    var o := LoadSpec(items, cfg, company, filePath, fetched);
    var url := S3_SCHEME + cfg.sharedBucket + "/" + filePath;
    if o.loaded != [] {
      var rows := GetAccountData(url, fetched).value;
      var existing := ExistingIds(items, company);
      NewAccountsFilter(rows, existing);
      assert o.loaded == NewAccounts(rows, existing).value;
      forall i | 0 <= i < |o.loaded| ensures IsNew(o.loaded[i], existing) {
        assert o.loaded[i] in o.loaded;
      }
    }
  }

  /** The item written for a new row: status 0, the zero-filled id (which is not empty,
      so it is kept), not yet scanned. */
  lemma LoadedItem(row: Row, now: string)
    requires HasId(row)
    ensures var item := BatchItem(row, true, now);
      item.Some? && item.value["AccountStatus"] == Int(0) && item.value["IsPermissionsScanned"] == Bool(false)
      && item.value["AccountId"] == Str(ZFill(row["AccountId"].s, ACCOUNT_ID_WIDTH))
  {
    var init := InitAccountItem(row, now);
    ZFillShape(row["AccountId"].s, ACCOUNT_ID_WIDTH);
    assert init["AccountId"] == Str(ZFill(row["AccountId"].s, ACCOUNT_ID_WIDTH));
  }

  /** The download and the filter, against the table. */
  method NewRows(b: Backend, company: string, url: string, fetched: Aws<Sheet>) returns (r: StepResult<seq<Row>>)
    modifies b`requests
    ensures r == Updates(b.items, company, url, fetched) && b.requests == old(b.requests) + Downloads(url)
  {
    var location := Location(url);
    if location.Raised? {
      return Raised(location.exc);
    }
    b.Send(GetObject(location.value.0, location.value.1));
    if !fetched.Ok? {
      return Raised(Raise(fetched));
    }
    var rows := ProcessXls(fetched.value);
    r := GenerateAccountUpdates(ExistingIds(b.items, company), company, rows);
  }

  /** The step, against the table and the topics; the items handed to `batch_write` are
      returned, one per loaded row, and none when there is no new row. */
  method LoadAccounts(b: Backend, cfg: Config, company: string, filePath: string, fetched: Aws<Sheet>, now: string)
    returns (r: StepResult<CompanyStatus>, batch: seq<Row>)
    modifies b`published, b`requests
    ensures var o := LoadSpec(old(b.items), cfg, company, filePath, fetched);
      r == o.result && b.published == old(b.published) + o.published && b.requests == old(b.requests) + o.requests
      && |batch| == |o.loaded| && forall i | 0 <= i < |batch| :: BatchItem(o.loaded[i], true, now) == Some(batch[i])
  {
    var url := S3_SCHEME + cfg.sharedBucket + "/" + filePath;
    batch := [];
    var updates := NewRows(b, company, url, fetched);
    if updates.Raised? {
      b.Publish(LogError(None, Some(company), LDE, "", Some(updates.exc), true, None).published);
      return Raised(updates.exc), batch;
    }
    if updates.value != [] {
      var rows := GetAccountData(url, fetched).value;
      NewAccountsFilter(rows, ExistingIds(b.items, company));
      forall i | 0 <= i < |updates.value| ensures BatchItem(updates.value[i], true, now).Some? {
        assert updates.value[i] in updates.value;
        LoadedItem(updates.value[i], now);
      }
      var complete;
      batch, complete := BatchWrite(updates.value, true, now);
    }
    b.Publish([UserNotice(None, StartedMessage(company))]);
    r := Returned(CompanyStatus(Completed, company));
  }
}
