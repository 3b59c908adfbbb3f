/** Reading the account spreadsheet: the S3 location check and the normalisation of the
    first worksheet's rows into account dictionaries. */
module Data {
  import opened Documents
  import opened Strings
  import opened Constant
  import opened Base

  const S3_SCHEME := "s3://"
  const NO_SCHEME_HEAD := "s3_url was set to "
  const NO_SCHEME_TAIL := " and did not include s3://"
  const EMPTY_LOCATION := "bucket_name or object_key is either None or Empty"
  const XLS_ONLY := "File format not supported, Only '.xsl' format is supported as of now."
  const ACCOUNT_ID_WIDTH := 12

  /** One worksheet cell as xlrd reads it: a string, a number (numeric cells are taken to
      hold integers), or any other value, given by its `str`. */
  datatype Cell = Text(s: string) | Number(n: int) | Other(shown: string)

  /** The first worksheet: the header row's cells, as text, and the rows below it. A row
      shorter than the header reads as empty cells past its end, as xlrd pads rows. */
  datatype Sheet = Sheet(header: seq<string>, body: seq<seq<Cell>>)

  // ---- The location ----

  /** The index of the first '/' in `s`, or `|s|` when there is none. */
  function FirstSlash(s: string): (i: nat)
    ensures i <= |s| && (i < |s| ==> s[i] == '/') && forall j | 0 <= j < i :: s[j] != '/'
  {
    if s == [] || s[0] == '/' then 0 else 1 + FirstSlash(s[1..])
  }

  /** `s.split('/', n)`: at most `n` cuts, at the first `n` slashes. */
  function Split(s: string, n: nat): (parts: seq<string>)
    decreases |s|
  {
    var i := FirstSlash(s);
    if n == 0 || i == |s| then [s] else [s[..i]] + Split(s[i + 1..], n - 1)
  }

  /** `'/'.join(parts)`. */
  function Join(parts: seq<string>): (s: string)
  {
    if |parts| <= 1 then (if parts == [] then "" else parts[0]) else parts[0] + "/" + Join(parts[1..])
  }

  /** The split is undone by the join, makes at most `n` cuts, and only the last part can
      hold a slash. */
  lemma {:induction false} SplitJoin(s: string, n: nat)
    ensures var parts := Split(s, n);
      1 <= |parts| <= n + 1 && Join(parts) == s
      && forall j, k | 0 <= j < |parts| - 1 && 0 <= k < |parts[j]| :: parts[j][k] != '/'
    decreases |s|
  {
    var i := FirstSlash(s);
    if !(n == 0 || i == |s|) {
      var rest := Split(s[i + 1..], n - 1);
      SplitJoin(s[i + 1..], n - 1);
      var parts := [s[..i]] + rest;
      assert Split(s, n) == parts;
      assert parts[1..] == rest;
      assert Join(parts) == s[..i] + "/" + Join(rest);
      assert s == s[..i] + "/" + s[i + 1..];
      forall j, k | 0 <= j < |parts| - 1 && 0 <= k < |parts[j]| ensures parts[j][k] != '/' {
        if j > 0 {
          assert parts[j] == rest[j - 1];
        }
      }
    }
  }

  /** The checks of `get_account_data(s3_url)` before the download: the bucket is the
      third part of the split and the key the remainder. */
  function Location(url: string): (r: StepResult<(string, string)>)
  {
    if !Contains(url, S3_SCHEME) then Raised(ValueErr(NO_SCHEME_HEAD + url + NO_SCHEME_TAIL))
    else
      var parts := Split(url, 3);
      if |parts| < 4 then Raised(IndexErr)
      else if parts[2] == "" || parts[3] == "" then Raised(ValueErr(EMPTY_LOCATION))
      else if !AnchoredMatch(parts[3], "", "xls") then Raised(Failure(XLS_ONLY))
      else Returned((parts[2], parts[3]))
  }

  /** Cutting at a first slash takes off the part before it. */
  lemma SplitAt(p: string, q: string, n: nat)
    requires n > 0 && forall j | 0 <= j < |p| :: p[j] != '/'
    ensures Split(p + "/" + q, n) == [p] + Split(q, n - 1)
  {
    var s := p + "/" + q;
    assert s[|p|] == '/';
    assert FirstSlash(s) == |p|;
    assert s[..|p|] == p && s[|p| + 1..] == q;
  }

  lemma UrlShape(bucket: string, key: string)
    ensures S3_SCHEME + bucket + "/" + key == "s3:" + "/" + ("" + "/" + (bucket + "/" + key))
    ensures Contains(S3_SCHEME + bucket + "/" + key, S3_SCHEME)
  {
    var url := S3_SCHEME + bucket + "/" + key;
    assert url[..5] == S3_SCHEME;
    assert OccursAt(url, S3_SCHEME, 0);
  }

  /** Three cuts of `a/b/c/d` with `a`, `b` and `c` free of slashes give back the four parts. */
  lemma SplitFour(a: string, b: string, c: string, d: string)
    requires forall j | 0 <= j < |a| :: a[j] != '/'
    requires forall j | 0 <= j < |b| :: b[j] != '/'
    requires forall j | 0 <= j < |c| :: c[j] != '/'
    ensures Split(a + "/" + (b + "/" + (c + "/" + d)), 3) == [a, b, c, d]
  {
    assert Split(c + "/" + d, 1) == [c, d] by {
      SplitAt(c, d, 1);
      assert Split(d, 0) == [d];
    }
    SplitAt(b, c + "/" + d, 2);
    SplitAt(a, b + "/" + (c + "/" + d), 3);
  }

  /** The split of `s3://<bucket>/<key>`: the scheme's two parts, the bucket, the key. */
  lemma UrlParts(bucket: string, key: string)
    requires forall j | 0 <= j < |bucket| :: bucket[j] != '/'
    ensures var url := S3_SCHEME + bucket + "/" + key;
      Contains(url, S3_SCHEME) && Split(url, 3) == ["s3:", "", bucket, key]
  {
    UrlShape(bucket, key);
    SplitFour("s3:", "", bucket, key);
  }

  /** A URL `s3://<bucket>/<key>` with a bucket free of slashes names that bucket and
      that key, slashes in the key included; the key must still look like a spreadsheet
      file, and an empty bucket or key is refused. */
  lemma LocationOf(bucket: string, key: string)
    requires forall j | 0 <= j < |bucket| :: bucket[j] != '/'
    ensures var r := Location(S3_SCHEME + bucket + "/" + key);
      (bucket != "" && key != "" && AnchoredMatch(key, "", "xls") <==> r == Returned((bucket, key)))
      && (bucket == "" || key == "" ==> r == Raised(ValueErr(EMPTY_LOCATION)))
  {
    UrlParts(bucket, key);
  }

  /** A URL without the scheme is refused with a message that repeats it. */
  lemma SchemeRequired(url: string)
    requires !Contains(url, S3_SCHEME)
    ensures Location(url) == Raised(ValueErr(NO_SCHEME_HEAD + url + NO_SCHEME_TAIL))
  {
  }

  // ---- The rows ----

  /** The cell as the row's value before the key-specific rules: `str(int(value))` for
      a number, `str(value)` for anything else that is not a string. */
  function CellText(c: Cell): (t: string)
  {
    match c
    case Text(s) => s
    case Number(n) => IntToString(n)
    case Other(shown) => shown
  }

  function CellAt(row: seq<Cell>, col: nat): Cell
  {
    if col < |row| then row[col] else Text("")
  }

  /** The value stored under `key`: an `AccountId` is zero-filled to twelve characters,
      `Migrate` becomes a boolean. */
  function Normalized(key: string, c: Cell): (v: Value)
  {
    var t := CellText(c);
    if key == "AccountId" then Str(ZFill(t, ACCOUNT_ID_WIDTH))
    else if key == "Migrate" then Bool(Lower(t) == "true" || Lower(t) == "1")
    else Str(t)
  }

  /** The dictionary of one row over the first `|header|` columns; a repeated header
      keeps its last column. */
  function RowRecord(header: seq<string>, row: seq<Cell>): (d: Row)
    decreases |header|
  {
    if header == [] then map[]
    else
      var n := |header| - 1;
      RowRecord(header[..n], row)[header[n] := Normalized(header[n], CellAt(row, n))]
  }

  /** `process_xls(xls)`: one dictionary per row below the header, in order. */
  function Records(header: seq<string>, body: seq<seq<Cell>>): (rs: seq<Row>)
    decreases |body|
  {
    if body == [] then []
    else
      var n := |body| - 1;
      Records(header, body[..n]) + [RowRecord(header, body[n])]
  }

  /** `get_account_data(s3_url)`, with `fetched` the worksheet of the object downloaded
      from the location (or the error of the download or of the workbook reader). */
  function GetAccountData(url: string, fetched: Aws<Sheet>): (r: StepResult<seq<Row>>)
  {
    match Location(url)
    case Raised(e) => Raised(e)
    case Returned(_) =>
      if fetched.Ok? then Returned(Records(fetched.value.header, fetched.value.body)) else Raised(Raise(fetched))
  }

  /** Exactly one dictionary per row, each built from that row. */
  lemma {:induction false} RecordsPerRow(header: seq<string>, body: seq<seq<Cell>>)
    ensures var rs := Records(header, body);
      |rs| == |body| && forall i | 0 <= i < |body| :: rs[i] == RowRecord(header, body[i])
    decreases |body|
  {
    if body != [] {
      var n := |body| - 1;
      RecordsPerRow(header, body[..n]);
      var rs := Records(header, body);
      forall i | 0 <= i < |body| ensures rs[i] == RowRecord(header, body[i]) {
        if i < n {
          assert body[..n][i] == body[i];
        }
      }
    }
  }

  /** The keys of a row's dictionary are the header cells. */
  lemma {:induction false} RowRecordKeys(header: seq<string>, row: seq<Cell>)
    ensures forall k :: k in RowRecord(header, row) <==> k in header
    decreases |header|
  {
    if header != [] {
      var n := |header| - 1;
      RowRecordKeys(header[..n], row);
      assert header == header[..n] + [header[n]];
    }
  }

  /** A header that is not repeated to its right holds the normalised value of its own
      column. */
  lemma {:induction false} RowRecordValues(header: seq<string>, row: seq<Cell>)
    ensures var d := RowRecord(header, row);
      forall j | 0 <= j < |header| && (forall l | j < l < |header| :: header[l] != header[j]) ::
        header[j] in d && d[header[j]] == Normalized(header[j], CellAt(row, j))
    decreases |header|
  {
    if header != [] {
      var n := |header| - 1;
      var h := header[..n];
      RowRecordValues(h, row);
      var d := RowRecord(header, row);
      forall j | 0 <= j < |header| && (forall l | j < l < |header| :: header[l] != header[j])
        ensures header[j] in d && d[header[j]] == Normalized(header[j], CellAt(row, j))
      {
        if j < n {
          assert h[j] == header[j];
          assert forall l | j < l < |h| :: h[l] != h[j] by {
            forall l | j < l < |h| ensures h[l] != h[j] {
              assert h[l] == header[l];
            }
          }
        }
      }
    }
  }

  /** The key-specific rules: an `AccountId` is the cell's text left-padded with zeros to
      at least twelve characters; `Migrate` is true exactly for "true" in any case and for
      "1" (a numeric 1 included); any other column holds the cell's text, a number in
      decimal. */
  lemma NormalizedCells(key: string, c: Cell)
    ensures var v := Normalized(key, c);
      var t := CellText(c);
      (key == "AccountId" ==>
         v.Str? && |v.s| == (if |t| >= 12 then |t| else 12) && (|t| >= 12 ==> v.s == t)
         && (t == [] || (t[0] != '+' && t[0] != '-') ==>
               v.s[|v.s| - |t|..] == t && forall i | 0 <= i < |v.s| - |t| :: v.s[i] == '0'))
      && (key == "Migrate" ==> v.Bool? && (v.b <==> Lower(t) == "true" || Lower(t) == "1"))
      && (key != "AccountId" && key != "Migrate" ==> v == Str(t))
      && (c.Number? && c.n >= 0 ==> t == NatToString(c.n))
  {
    ZFillShape(CellText(c), ACCOUNT_ID_WIDTH);
    if CellText(c) == [] || (CellText(c)[0] != '+' && CellText(c)[0] != '-') {
      ZFillPadsLeft(CellText(c), ACCOUNT_ID_WIDTH);
    }
  }

  lemma MigrateTrueExamples()
    ensures Normalized("Migrate", Text("TRUE")) == Bool(true)
    ensures Normalized("Migrate", Text("True")) == Bool(true)
    ensures Normalized("Migrate", Number(1)) == Bool(true)
  {
    assert Lower("TRUE") == "true" && Lower("True") == "true";
    assert NatToString(1) == "1";
  }

  lemma MigrateFalseExamples()
    ensures Normalized("Migrate", Text("yes")) == Bool(false)
    ensures Normalized("Migrate", Number(0)) == Bool(false)
  {
    assert Lower("yes")[0] == 'y';
    assert NatToString(0) == "0";
  }

  lemma AccountIdExample()
    ensures Normalized("AccountId", Number(42)) == Str("000000000042")
  {
    assert NatToString(42) == "42";
  }

  // ---- The loops ----

  /** One row's dictionary, filled column by column. */
  method RowDict(header: seq<string>, row: seq<Cell>) returns (info: Row)
    ensures info == RowRecord(header, row)
  {
    info := map[];
    var c := 0;
    while c < |header|
      invariant 0 <= c <= |header|
      invariant info == RowRecord(header[..c], row)
    {
      var key := header[c];
      var value := CellText(CellAt(row, c));
      var v := Str(value);
      if key == "AccountId" {
        v := Str(ZFill(value, ACCOUNT_ID_WIDTH));
      }
      if key == "Migrate" {
        v := Bool(Lower(value) == "true" || Lower(value) == "1");
      }
      assert header[..c + 1][..c] == header[..c];
      info := info[key := v];
      c := c + 1;
    }
    assert header[..c] == header;
  }

  /** `process_xls(xls)`: the rows below the header, appended in order. */
  method ProcessXls(sheet: Sheet) returns (accounts: seq<Row>)
    ensures accounts == Records(sheet.header, sheet.body)
  {
    accounts := [];
    var r := 0;
    while r < |sheet.body|
      invariant 0 <= r <= |sheet.body|
      invariant accounts == Records(sheet.header, sheet.body[..r])
    {
      var info := RowDict(sheet.header, sheet.body[r]);
      assert sheet.body[..r + 1][..r] == sheet.body[..r];
      accounts := accounts + [info];
      r := r + 1;
    }
    assert sheet.body[..r] == sheet.body;
  }
}
