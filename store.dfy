/** The target-account table, the notification topics and the AWS endpoints, as the steps
    see them: a map of records keyed by (CompanyName, AccountId), a log of published
    messages and a log of AWS requests. */
module Store {
  import opened Documents
  import opened Constant
  import opened Base
  import opened DynamoDb

  /** The empty-value conversion on one optional text column. */
  function ClearEmpty(o: Option<string>): (r: Option<string>)
    ensures r.Some? ==> r.value != ""
    ensures o.Some? && o.value != "" ==> r == o
    ensures o.None? ==> r.None?
  {
    if o == Some("") then None else o
  }

  /** The item `update_item` writes: `LastUpdatedOn` set to the write time, every empty
      text column turned into null and the tag document converted as a whole; the key and
      all other columns are kept. */
  function Stamp(r: Record, now: int): (s: Record)
    ensures KeyOf(s) == KeyOf(r) && s.lastUpdatedOn == Some(now)
    ensures s.accountStatus == r.accountStatus && s.accountType == r.accountType && s.adminRole == r.adminRole
    ensures s.migrate == r.migrate && s.orgLevelPermissions == r.orgLevelPermissions
    ensures s.isPermissionsScanned == r.isPermissionsScanned
    ensures s.tags.Some? <==> r.tags.Some?
    ensures r.tags.Some? ==> s.tags.value == Convert(r.tags.value)
    ensures s.email == ClearEmpty(r.email) && s.name == ClearEmpty(r.name) && s.slackHandle == ClearEmpty(r.slackHandle)
    ensures s.error == ClearEmpty(r.error) && s.handshakeId == ClearEmpty(r.handshakeId)
    ensures s.supportCaseId == ClearEmpty(r.supportCaseId) && s.supportCaseDisplayId == ClearEmpty(r.supportCaseDisplayId)
    ensures s.supportCaseStatus == ClearEmpty(r.supportCaseStatus)
  {
    r.(lastUpdatedOn := Some(now), tags := if r.tags.Some? then Some(Convert(r.tags.value)) else None,
       email := ClearEmpty(r.email), name := ClearEmpty(r.name),
       slackHandle := ClearEmpty(r.slackHandle), handshakeId := ClearEmpty(r.handshakeId),
       error := ClearEmpty(r.error), supportCaseId := ClearEmpty(r.supportCaseId),
       supportCaseDisplayId := ClearEmpty(r.supportCaseDisplayId),
       supportCaseStatus := ClearEmpty(r.supportCaseStatus))
  }

  /** The keys of the given records. */
  function WrittenKeys(ws: seq<Record>): (ks: set<Key>)
    ensures forall i | 0 <= i < |ws| :: KeyOf(ws[i]) in ks
  {
    if ws == [] then {} else WrittenKeys(ws[..|ws| - 1]) + {KeyOf(ws[|ws| - 1])}
  }

  /** The table after the given `update_item` calls, in order. */
  function ApplyWrites(items: map<Key, Record>, ws: seq<Record>, now: int): (m: map<Key, Record>)
    ensures m.Keys == items.Keys + WrittenKeys(ws)
    ensures forall k | k in items && k !in WrittenKeys(ws) :: m[k] == items[k]
    ensures |ws| > 0 ==> m[KeyOf(ws[|ws| - 1])] == Stamp(ws[|ws| - 1], now)
  {
    if ws == [] then items
    else ApplyWrites(items, ws[..|ws| - 1], now)[KeyOf(ws[|ws| - 1]) := Stamp(ws[|ws| - 1], now)]
  }

  /** Every record is stored under its own key. */
  predicate WellKeyed(items: map<Key, Record>) {
    forall k | k in items :: KeyOf(items[k]) == k
  }

  lemma {:induction false} WritesKeepWellKeyed(items: map<Key, Record>, ws: seq<Record>, now: int)
    requires WellKeyed(items)
    ensures WellKeyed(ApplyWrites(items, ws, now))
  {
    if ws != [] {
      WritesKeepWellKeyed(items, ws[..|ws| - 1], now);
    }
  }

  /** Writing the same record twice in a row leaves the table as writing it once. */
  lemma WriteTwiceOnce(items: map<Key, Record>, r: Record, now: int)
    ensures ApplyWrites(items, [r, r], now) == ApplyWrites(items, [r], now) == items[KeyOf(r) := Stamp(r, now)]
  {
    assert [r, r][..1] == [r];
    assert [r][..0] == [];
  }

  lemma ConcatAssoc<T>(a: seq<T>, b: seq<T>, c: seq<T>)
    ensures a + b + c == a + (b + c)
  {
  }

  /** Writes made one after the other compose. */
  lemma {:induction false} ApplyWritesConcat(items: map<Key, Record>, ws: seq<Record>, more: seq<Record>, now: int)
    ensures ApplyWrites(items, ws + more, now) == ApplyWrites(ApplyWrites(items, ws, now), more, now)
    decreases |more|
  {
    if more == [] {
      assert ws + more == ws;
    } else {
      var n := |more| - 1;
      assert (ws + more)[..|ws + more| - 1] == ws + more[..n];
      assert (ws + more)[|ws + more| - 1] == more[n];
      ApplyWritesConcat(items, ws, more[..n], now);
    }
  }

  /** What a step did: its result, the records it wrote, what it published and the AWS
      requests it made, each in order. */
  datatype Outcome<T> = Outcome(result: StepResult<T>, writes: seq<Record>,
                                published: seq<Publication>, requests: seq<Request>)

  /** Where the `try` block of a step left off: how it exited (a value, or the exception
      it raised), the record as the block left it, and what it published and requested. */
  datatype Attempt<T> = Attempt(exit: StepResult<T>, account: Record,
                                published: seq<Publication>, requests: seq<Request>)

  class Backend {
    var items: map<Key, Record>
    var published: seq<Publication>
    var requests: seq<Request>

    constructor (contents: map<Key, Record>)
      ensures items == contents && published == [] && requests == []
    {
      items := contents;
      published := [];
      requests := [];
    }

    /** `update_item(table, item)`. */
    method Put(r: Record, now: int)
      modifies this`items
      ensures items == old(items)[KeyOf(r) := Stamp(r, now)]
    {
      items := items[KeyOf(r) := Stamp(r, now)];
    }

    /** `notify_msg(...)` for each message, in order. */
    method Publish(ps: seq<Publication>)
      modifies this`published
      ensures published == old(published) + ps
    {
      published := published + ps;
    }

    /** One AWS call; its response is an input of the step that makes it. */
    method Send(q: Request)
      modifies this`requests
      ensures requests == old(requests) + [q]
    {
      requests := requests + [q];
    }
  }

  /** The step changed the backend exactly as its outcome says. */
  twostate predicate Realizes<T>(b: Backend, o: Outcome<T>, now: int)
    reads b
  {
    b.items == ApplyWrites(old(b.items), o.writes, now)
    && b.published == old(b.published) + o.published
    && b.requests == old(b.requests) + o.requests
  }

  // ---- Queries ----

  /** `get_account_by_id(company, id)`, as an optional first item. */
  function AccountById(items: map<Key, Record>, company: string, id: string): (r: Option<Record>)
    ensures r.Some? <==> (company, id) in items
    ensures r.Some? ==> r.value == items[(company, id)]
  {
    if (company, id) in items then Some(items[(company, id)]) else None
  }

  /** The filters the steps' queries apply within one company. */
  datatype Filter = TypeIs(t: AccountType) | StatusIs(s: int) | StatusBelow(s: int) | MigratingBelow(s: int)

  predicate Holds(f: Filter, r: Record) {
    match f
    case TypeIs(t) => r.accountType == t
    case StatusIs(s) => r.accountStatus == s
    case StatusBelow(s) => r.accountStatus < s
    case MigratingBelow(s) => r.accountStatus < s && r.migrate
  }

  /** The keys of a company's items that pass a filter. */
  function Select(items: map<Key, Record>, company: string, f: Filter): (ks: set<Key>)
    ensures forall k :: k in ks <==> k in items && k.0 == company && Holds(f, items[k])
  {
    set k | k in items && k.0 == company && Holds(f, items[k])
  }

  /** A query's items in the order the table returns them: any order without repeats. */
  predicate Enumerates<K>(ks: seq<K>, s: set<K>) {
    (forall i, j | 0 <= i < j < |ks| :: ks[i] != ks[j])
    && (forall i | 0 <= i < |ks| :: ks[i] in s)
    && (forall k | k in s :: k in ks)
  }

  lemma {:induction false} EnumerationSize<K>(ks: seq<K>, s: set<K>)
    requires Enumerates(ks, s)
    ensures |ks| == |s|
    decreases |ks|
  {
    if ks != [] {
      var last := ks[|ks| - 1];
      assert Enumerates(ks[..|ks| - 1], s - {last}) by {
        forall k | k in s - {last} ensures k in ks[..|ks| - 1] {
          var i :| 0 <= i < |ks| && ks[i] == k;
          assert i != |ks| - 1;
          assert ks[..|ks| - 1][i] == k;
        }
      }
      EnumerationSize(ks[..|ks| - 1], s - {last});
    }
  }

  /** Walks a query's result set in an order the model does not fix. */
  method Enumerate<K>(s: set<K>) returns (ks: seq<K>)
    ensures Enumerates(ks, s)
  {
    ks := [];
    var rest := s;
    while rest != {}
      invariant rest <= s
      invariant forall i, j | 0 <= i < j < |ks| :: ks[i] != ks[j]
      invariant forall i | 0 <= i < |ks| :: ks[i] in s && ks[i] !in rest
      invariant forall k | k in s :: k in ks || k in rest
      decreases rest
    {
      var k :| k in rest;
      ks := ks + [k];
      rest := rest - {k};
    }
  }
}
