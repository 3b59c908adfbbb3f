/** The item preparation done by the DynamoDB helpers before a write: replacing empty
    strings (which DynamoDB rejects) and initialising freshly loaded account rows. */
module DynamoDb {
  import opened Strings
  import opened Documents

  /** The value stored under a dictionary key after conversion: empty strings become
      None, dictionaries and lists are converted recursively, other values are kept. */
  function Convert(v: Value): (r: Value)
    ensures v.Dict? ==> r.Dict? && r.entries.Keys == v.entries.Keys
    ensures v.List? ==> r.List? && |r.elems| == |v.elems|
    ensures v == Str("") ==> r == Null
    ensures !v.Dict? && !v.List? && v != Str("") ==> r == v
    decreases v, 1
  {
    match v
    case Dict(m) => Dict(map k | k in m :: Convert(m[k]))
    case List(es) => List(seq(|es|, i requires 0 <= i < |es| => ConvertElem(es[i])))
    case Str(s) => if s == "" then Null else v
    case _ => v
  }

  /** A value held directly in a list: dictionaries and lists are converted, any other
      element (an empty string included) is left as it is. */
  function ConvertElem(v: Value): (r: Value)
    ensures v.Str? ==> r == v
    decreases v, 2
  {
    if v.Str? then v else Convert(v)
  }

  /** `convert_empty_values(d)`, with a list held in a list treated as a list. */
  function ConvertEmptyValues(d: Row): (r: Row)
    ensures r.Keys == d.Keys
    ensures forall k | k in d :: d[k] == Str("") ==> r[k] == Null
    ensures forall k | k in d :: !d[k].Dict? && !d[k].List? && d[k] != Str("") ==> r[k] == d[k]
    ensures forall k | k in d && d[k].Dict? :: r[k].Dict? && r[k].entries.Keys == d[k].entries.Keys
    ensures forall k | k in d && d[k].List? :: r[k].List? && |r[k].elems| == |d[k].elems|
  {
    Convert(Dict(d)).entries
  }

  lemma {:induction false} ConvertIdempotent(v: Value)
    ensures Convert(Convert(v)) == Convert(v)
    decreases v, 1
  {
    match v
    case Dict(m) =>
      forall k | k in m ensures Convert(Convert(m[k])) == Convert(m[k]) {
        ConvertIdempotent(m[k]);
      }
      assert Convert(Convert(v)).entries == Convert(v).entries;
    case List(es) =>
      var c := Convert(v).elems;
      forall i | 0 <= i < |es| ensures ConvertElem(c[i]) == c[i] {
        ConvertElemIdempotent(es[i]);
      }
      assert Convert(Convert(v)).elems == c;
    case _ =>
  }

  lemma {:induction false} ConvertElemIdempotent(v: Value)
    ensures ConvertElem(ConvertElem(v)) == ConvertElem(v)
    decreases v, 2
  {
    if !v.Str? {
      ConvertIdempotent(v);
    }
  }

  /** Converting twice is the same as converting once. */
  lemma ConvertEmptyValuesIdempotent(d: Row)
    ensures ConvertEmptyValues(ConvertEmptyValues(d)) == ConvertEmptyValues(d)
  {
    ConvertIdempotent(Dict(d));
  }

  /** An empty string held directly in a list is not converted, wherever the list sits. */
  lemma EmptyStringInListKept(d: Row, k: string, i: nat)
    requires k in d && d[k].List? && i < |d[k].elems| && d[k].elems[i] == Str("")
    ensures ConvertEmptyValues(d)[k].elems[i] == Str("")
  {
    assert ConvertEmptyValues(d)[k] == Convert(d[k]);
    assert Convert(d[k]).elems[i] == ConvertElem(d[k].elems[i]);
  }

  // ---- The conversion as the source writes it ----

  datatype Converted = Converted(value: Value) | TypeFailure

  /** Python indexes a list with its own elements when the loop over a dictionary's keys
      is run on a list: only a list that starts with an integer (or a bool) can survive. */
  predicate StartsWithIndex(es: seq<Value>) { |es| > 0 && (es[0].Int? || es[0].Bool?) }

  /** No list held in a list (at any depth) starts with an integer or a bool: the inputs
      for which `ConvertAsWritten` below gives the source's outcome. */
  predicate NoIndexHeadedInnerList(v: Value)
    decreases v, 1
  {
    match v
    case Dict(m) => forall k | k in m :: NoIndexHeadedInnerList(m[k])
    case List(es) => forall i | 0 <= i < |es| :: NoIndexHeadedElem(es[i])
    case _ => true
  }

  predicate NoIndexHeadedElem(v: Value)
    decreases v, 2
  {
    match v
    case List(es) => !StartsWithIndex(es)
    case _ => NoIndexHeadedInnerList(v)
  }

  /** `convert_empty_values` as written: a non-empty list held in a list is handed to the
      dictionary loop, whose `d[k]` indexes the list with a non-integer and raises
      TypeError. */
  function ConvertAsWritten(v: Value): (r: Converted)
    requires NoIndexHeadedInnerList(v)
    decreases v, 1
  {
    match v
    case Dict(m) =>
      if exists k | k in m :: ConvertAsWritten(m[k]).TypeFailure? then TypeFailure
      else Converted(Dict(map k | k in m :: ConvertAsWritten(m[k]).value))
    case List(es) =>
      if exists i | 0 <= i < |es| :: ConvertElemAsWritten(es[i]).TypeFailure? then TypeFailure
      else Converted(List(seq(|es|, i requires 0 <= i < |es| => ConvertElemAsWritten(es[i]).value)))
    case Str(s) => if s == "" then Converted(Null) else Converted(v)
    case _ => Converted(v)
  }

  function ConvertElemAsWritten(v: Value): (r: Converted)
    requires NoIndexHeadedElem(v)
    decreases v, 2
  {
    match v
    case List(es) => if es == [] then Converted(v) else TypeFailure
    case Dict(_) => ConvertAsWritten(v)
    case _ => Converted(v)
  }

  /** `{"a": [["x"]]}`: the source raises TypeError; the corrected conversion keeps it. */
  lemma NestedListRaisesAsWritten()
    ensures ConvertAsWritten(Dict(map["a" := List([List([Str("x")])])])).TypeFailure?
    ensures ConvertEmptyValues(map["a" := List([List([Str("x")])])])
      == map["a" := List([List([Str("x")])])]
  {
    var inner := List([Str("x")]);
    var d := map["a" := List([inner])];
    assert d["a"].elems[0] == inner;
    assert ConvertElemAsWritten(d["a"].elems[0]).TypeFailure?;
    assert ConvertAsWritten(d["a"]).TypeFailure?;
    assert ConvertElem(inner) == inner;
    assert Convert(d["a"]) == d["a"];
    assert ConvertEmptyValues(d) == d;
  }

  /** Where the source does not raise, it agrees with the corrected conversion. */
  lemma {:induction false} AsWrittenAgrees(v: Value)
    requires NoIndexHeadedInnerList(v)
    requires ConvertAsWritten(v).Converted?
    ensures ConvertAsWritten(v).value == Convert(v)
    decreases v, 1
  {
    match v
    case Dict(m) =>
      forall k | k in m ensures ConvertAsWritten(m[k]).value == Convert(m[k]) {
        AsWrittenAgrees(m[k]);
      }
      assert ConvertAsWritten(v).value.entries == Convert(v).entries;
    case List(es) =>
      forall i | 0 <= i < |es| ensures ConvertElemAsWritten(es[i]).value == ConvertElem(es[i]) {
        ElemAsWrittenAgrees(es[i]);
      }
      assert ConvertAsWritten(v).value.elems == Convert(v).elems;
    case _ =>
  }

  lemma {:induction false} ElemAsWrittenAgrees(v: Value)
    requires NoIndexHeadedElem(v)
    requires ConvertElemAsWritten(v).Converted?
    ensures ConvertElemAsWritten(v).value == ConvertElem(v)
    decreases v, 2
  {
    match v
    case List(es) =>
      assert es == [];
      assert Convert(v) == v;
    case Dict(_) => AsWrittenAgrees(v);
    case _ =>
  }

  // ---- batch_write ----

  /** The columns `batch_write` adds to a freshly loaded account row: status 0, a 12-digit
      zero-padded id, not yet scanned, and the write time. */
  function InitAccountItem(row: Row, now: string): (r: Row)
    requires "AccountId" in row && row["AccountId"].Str?
    ensures r.Keys == row.Keys + {"AccountStatus", "AccountId", "IsPermissionsScanned", "LastUpdatedOn"}
    ensures r["AccountStatus"] == Int(0) && r["IsPermissionsScanned"] == Bool(false)
    ensures r["AccountId"].Str? && |r["AccountId"].s| >= 12
    ensures forall k | k in row && k !in {"AccountStatus", "AccountId", "IsPermissionsScanned", "LastUpdatedOn"} ::
      r[k] == row[k]
  {
    ZFillShape(row["AccountId"].s, 12);
    row["AccountStatus" := Int(0)]
       ["AccountId" := Str(ZFill(row["AccountId"].s, 12))]
       ["IsPermissionsScanned" := Bool(false)]
       ["LastUpdatedOn" := Str(now)]
  }

  /** The item `batch_write` puts for one input row. */
  function BatchItem(row: Row, isAccountData: bool, now: string): Option<Row> {
    if !isAccountData then Some(ConvertEmptyValues(row))
    else if "AccountId" in row && row["AccountId"].Str? then
      Some(ConvertEmptyValues(InitAccountItem(row, now)))
    else None
  }

  /** `batch_write(table, items, is_account_data)`: the items handed to the batch writer,
      in order; `complete` is false when a row without a string AccountId stopped the loop
      (the rows before it are still flushed when the writer closes). */
  method BatchWrite(rows: seq<Row>, isAccountData: bool, now: string)
    returns (written: seq<Row>, complete: bool)
    ensures complete ==> |written| == |rows|
    ensures !complete ==> |written| < |rows| && BatchItem(rows[|written|], isAccountData, now).None?
    ensures forall i | 0 <= i < |written| :: BatchItem(rows[i], isAccountData, now) == Some(written[i])
  {
    written := [];
    var i := 0;
    while i < |rows|
      invariant 0 <= i <= |rows| && |written| == i
      invariant forall j | 0 <= j < i :: BatchItem(rows[j], isAccountData, now) == Some(written[j])
    {
      var item := rows[i];
      if isAccountData {
        if !("AccountId" in item && item["AccountId"].Str?) {
          return written, false;
        }
        item := InitAccountItem(item, now);
      }
      written := written + [ConvertEmptyValues(item)];
      i := i + 1;
    }
    complete := true;
  }
}
