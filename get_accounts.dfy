/** The account selector: the company's accounts still before the OU move, each with the
    name of the workflow run to start for it. */
module GetAccounts {
  import opened Constant
  import opened Base
  import opened Store

  /** One returned item: the projected key columns and the added `ProcessName`. */
  datatype AccountItem = AccountItem(companyName: string, accountId: string, processName: string)

  /** `{"CompanyName": company_name, "Accounts": accounts}`. */
  datatype AccountsOutput = AccountsOutput(companyName: string, accounts: seq<AccountItem>)

  /** The items for the keys `ks`, in order, with `clock(i)` the value `time.monotonic_ns()`
      gives at the `i`-th item. */
  function Listed(ks: seq<Key>, clock: nat -> nat): (items: seq<AccountItem>)
    decreases |ks|
  {
    if ks == [] then []
    else
      var n := |ks| - 1;
      Listed(ks[..n], clock) + [AccountItem(ks[n].0, ks[n].1, ProcessName(ks[n].0, ks[n].1, clock(n)))]
  }

  /** `lambda_handler(event)` for one order `ks` of the query's items. */
  function GetAccountsSpec(company: string, ks: seq<Key>, clock: nat -> nat): (o: AccountsOutput)
  {
    AccountsOutput(company, Listed(ks, clock))
  }

  // ---- Properties ----

  /** One item per key, in order, carrying only the key's two columns and a process name
      that starts with `"<CompanyName>-<AccountId>-"`. */
  lemma {:induction false} ListedItems(ks: seq<Key>, clock: nat -> nat)
    ensures var items := Listed(ks, clock);
      |items| == |ks|
      && forall i | 0 <= i < |ks| ::
           items[i].companyName == ks[i].0 && items[i].accountId == ks[i].1
           && items[i].processName == ProcessName(ks[i].0, ks[i].1, clock(i))
           && ks[i].0 + "-" + ks[i].1 + "-" <= items[i].processName
    decreases |ks|
  {
    if ks != [] {
      var n := |ks| - 1;
      ListedItems(ks[..n], clock);
      var items := Listed(ks, clock);
      forall i | 0 <= i < |ks|
        ensures items[i].companyName == ks[i].0 && items[i].accountId == ks[i].1
          && items[i].processName == ProcessName(ks[i].0, ks[i].1, clock(i))
          && ks[i].0 + "-" + ks[i].1 + "-" <= items[i].processName
      {
        if i < n {
          assert ks[..n][i] == ks[i];
        }
      }
    }
  }

  /** The accounts listed are exactly the company's records below UPDATED, each once:
      `Migrate` is not looked at, so a record that is not to be migrated is listed too. */
  lemma SelectsBelowUpdated(items: map<Key, Record>, company: string, ks: seq<Key>, clock: nat -> nat)
    requires Enumerates(ks, Select(items, company, StatusBelow(UPDATED)))
    ensures var o := GetAccountsSpec(company, ks, clock);
      o.companyName == company && |o.accounts| == |Select(items, company, StatusBelow(UPDATED))|
      && (forall i | 0 <= i < |o.accounts| ::
            var k := (o.accounts[i].companyName, o.accounts[i].accountId);
            k in items && k.0 == company && items[k].accountStatus < UPDATED)
      && (forall k | k in items && k.0 == company && items[k].accountStatus < UPDATED ::
            exists i | 0 <= i < |o.accounts| :: o.accounts[i].accountId == k.1)
      && (forall i, j | 0 <= i < j < |o.accounts| :: o.accounts[i].accountId != o.accounts[j].accountId)
  {
    ListedItems(ks, clock);
    EnumerationSize(ks, Select(items, company, StatusBelow(UPDATED)));
    var o := GetAccountsSpec(company, ks, clock);
    forall k | k in items && k.0 == company && items[k].accountStatus < UPDATED
      ensures exists i | 0 <= i < |o.accounts| :: o.accounts[i].accountId == k.1
    {
      var i :| 0 <= i < |ks| && ks[i] == k;
      assert o.accounts[i].accountId == k.1;
    }
    forall i, j | 0 <= i < j < |o.accounts| ensures o.accounts[i].accountId != o.accounts[j].accountId {
      assert ks[i] != ks[j];
      assert ks[i].0 == company == ks[j].0;
    }
  }

  // ---- The step ----

  /** `lambda_handler(event)`: the query, then the loop that adds `ProcessName` to each
      item in place; `ks` is the order in which the query returned its items. */
  method ListAccounts(b: Backend, company: string, clock: nat -> nat)
    returns (r: AccountsOutput, ghost ks: seq<Key>)
    ensures Enumerates(ks, Select(b.items, company, StatusBelow(UPDATED)))
    ensures r == GetAccountsSpec(company, ks, clock)
  {
    var keys := Enumerate(Select(b.items, company, StatusBelow(UPDATED)));
    ks := keys;
    var accounts: seq<AccountItem> := [];
    var i := 0;
    while i < |keys|
      invariant 0 <= i <= |keys|
      invariant accounts == Listed(keys[..i], clock)
    {
      assert keys[..i + 1][..i] == keys[..i];
      accounts := accounts + [AccountItem(keys[i].0, keys[i].1, ProcessName(keys[i].0, keys[i].1, clock(i)))];
      i := i + 1;
    }
    assert keys[..i] == keys;
    r := AccountsOutput(company, accounts);
  }
}
