/** The chart of accounts and the balance derivation: which category each
    account belongs to, its normal balance side, the raw balance of every
    account folded from the transaction rows, the displayed side and
    magnitude of each balance, the accounts grouped by category and sorted by
    name, and the per-category totals. */
module Accounts {
  import opened Common

  datatype Category = Assets | Liabilities | Equities | Income | Expenses

  datatype Side = Debit | Credit

  /** The answer of a table lookup: a known value, or the "Unknown" sentinel. */
  datatype Lookup<T> = Known(value: T) | Unknown

  /** The five categories, in the order the grouped result lists them. */
  const Categories: seq<Category> := [Assets, Liabilities, Equities, Income, Expenses]

  /** The name a category carries as a key of the grouped result. */
  function Label(c: Category): string {
    match c
    case Assets => "Assets"
    case Liabilities => "Liabilities"
    case Equities => "Equities"
    case Income => "Income"
    case Expenses => "Expenses"
  }

  /** The category a key names; any other text names none. */
  function CategoryNamed(s: string): (r: Lookup<Category>)
    ensures r.Known? ==> Label(r.value) == s
  {
    if s == "Assets" then Known(Assets)
    else if s == "Liabilities" then Known(Liabilities)
    else if s == "Equities" then Known(Equities)
    else if s == "Income" then Known(Income)
    else if s == "Expenses" then Known(Expenses)
    else Unknown
  }

  lemma LabelRoundTrip(c: Category)
    ensures CategoryNamed(Label(c)) == Known(c)
  {
  }

  /** The chart of accounts, in the order the table lists it. */
  const Chart: seq<(string, Category)> := [
    ("Cash [ASSET]", Assets),
    ("Accounts Receivable [ASSET]", Assets),
    ("Inventory [ASSET]", Assets),
    ("Prepaid Expenses [ASSET]", Assets),
    ("Equipment [ASSET]", Assets),
    ("Accounts Payable [LIABILITY]", Liabilities),
    ("Notes Payable [LIABILITY]", Liabilities),
    ("Owner's Capital [EQUITY]", Equities),
    ("Sales Revenue [INCOME]", Income),
    ("Service Revenue [INCOME]", Income),
    ("Cost of Goods Sold [EXPENSE]", Expenses),
    ("Rent Expense [EXPENSE]", Expenses),
    ("Salaries Expense [EXPENSE]", Expenses),
    ("Utilities Expense [EXPENSE]", Expenses)
  ]

  /** `name` is not the name of any entry of `entries`. */
  predicate NameAbsent(entries: seq<(string, Category)>, name: string) {
    forall i :: 0 <= i < |entries| ==> entries[i].0 != name
  }

  /** No two entries share a name. */
  predicate DistinctNames(entries: seq<(string, Category)>) {
    forall i, j :: 0 <= i < j < |entries| ==> entries[i].0 != entries[j].0
  }

  /** Dictionary lookup in a table written as a list of entries: the last
      entry with the name decides, as in a dictionary literal. */
  function LookupIn(entries: seq<(string, Category)>, name: string): (r: Lookup<Category>)
    ensures r == Unknown <==> NameAbsent(entries, name)
    ensures r.Known? ==> (name, r.value) in entries
  {
    if entries == [] then Unknown
    else if entries[|entries| - 1].0 == name then Known(entries[|entries| - 1].1)
    else LookupIn(entries[..|entries| - 1], name)
  }

  lemma ChartNamesDistinct()
    ensures DistinctNames(Chart)
  {
  }

  /** The category of an account; "Unknown" for a name outside the chart. */
  function AccountType(name: string): (r: Lookup<Category>)
    ensures r == Unknown <==> NameAbsent(Chart, name)
    ensures r.Known? ==> (name, r.value) in Chart
  {
    LookupIn(Chart, name)
  }

  /** The side on which a category normally carries its balance. */
  function NormalSide(c: Category): (s: Side)
    ensures s == Debit <==> c == Assets || c == Expenses
  {
    match c
    case Assets => Debit
    case Liabilities => Credit
    case Equities => Credit
    case Income => Credit
    case Expenses => Debit
  }

  /** The normal balance of an account, through its category; "Unknown" for a
      name outside the chart. */
  function GetNormalBalance(name: string): (r: Lookup<Side>)
    ensures r == Unknown <==> AccountType(name) == Unknown
    ensures r == Known(Debit) <==> AccountType(name) == Known(Assets) || AccountType(name) == Known(Expenses)
    ensures r == Known(Credit) <==>
            AccountType(name) == Known(Liabilities) || AccountType(name) == Known(Equities)
            || AccountType(name) == Known(Income)
  {
    match AccountType(name)
    case Unknown => Unknown
    case Known(c) => Known(NormalSide(c))
  }

  // ---------------------------------------------------------------------------
  // Raw balances

  /** Raw balance of every account touched so far; an account never touched
      reads as zero. */
  type Balances = map<string, int>

  function Get(b: Balances, account: string): int {
    if account in b then b[account] else 0
  }

  /** A row the balance fold uses: it names both accounts and an amount. */
  predicate CarriesAmount(row: Row) {
    "Debit" in row && "Credit" in row && "Amount" in row
  }

  /** One posting: the amount is added to the debit account and subtracted
      from the credit account; every other account keeps its balance. */
  function Post(b: Balances, debit: string, credit: string, amount: int): (r: Balances)
    ensures r.Keys == b.Keys + {debit, credit}
    ensures forall k :: Get(r, k) == Get(b, k) + (if k == debit then amount else 0)
                                                - (if k == credit then amount else 0)
  {
    var afterDebit := b[debit := Get(b, debit) + amount];
    afterDebit[credit := Get(afterDebit, credit) - amount]
  }

  /** The balance fold: rows without the three columns are skipped, and the
      first row whose amount does not parse ends the fold with the balances
      accumulated before it. */
  function Accumulate(b: Balances, rows: seq<Row>, parse: AmountParser): Balances
    decreases |rows|
  {
    if rows == [] then b
    else if !CarriesAmount(rows[0]) then Accumulate(b, rows[1..], parse)
    else match parse(rows[0]["Amount"])
      case None => b
      case Some(a) => Accumulate(Post(b, rows[0]["Debit"], rows[0]["Credit"], a), rows[1..], parse)
  }

  /** The raw balances of a store; a missing store has none. */
  function RawBalances(store: Store, parse: AmountParser): Balances {
    Accumulate(map[], RowsOf(store), parse)
  }

  method CalculateAccountBalances(store: Store, parse: AmountParser) returns (balances: Balances)
    ensures balances == RawBalances(store, parse)
  {
    balances := map[];
    if store.Absent? {
      return;
    }
    var rows := store.rows;
    var i := 0;
    while i < |rows|
      invariant 0 <= i <= |rows|
      invariant Accumulate(balances, rows[i..], parse) == Accumulate(map[], rows, parse)
    {
      assert rows[i..][1..] == rows[i + 1..];
      var row := rows[i];
      if CarriesAmount(row) {
        var parsed := parse(row["Amount"]);
        if parsed.None? {
          // the parse error escapes the loop; the balances so far are returned
          return;
        }
        var amount := parsed.value;
        balances := balances[row["Debit"] := Get(balances, row["Debit"]) + amount];
        balances := balances[row["Credit"] := Get(balances, row["Credit"]) - amount];
      }
      i := i + 1;
    }
  }

  /** Every row the fold uses has an amount that parses. */
  predicate AmountsParse(rows: seq<Row>, parse: AmountParser) {
    forall row :: row in rows && CarriesAmount(row) ==> parse(row["Amount"]).Some?
  }

  /** What one row adds to the raw balance of `account`. */
  function Contribution(row: Row, account: string, parse: AmountParser): int {
    if !CarriesAmount(row) then 0
    else match parse(row["Amount"])
      case None => 0
      case Some(a) => (if row["Debit"] == account then a else 0) - (if row["Credit"] == account then a else 0)
  }

  /** The sum of the contributions of all rows to one account. */
  function Net(rows: seq<Row>, account: string, parse: AmountParser): int {
    if rows == [] then 0 else Contribution(rows[0], account, parse) + Net(rows[1..], account, parse)
  }

  lemma {:induction false} AccumulateIsNet(b: Balances, rows: seq<Row>, parse: AmountParser, account: string)
    requires AmountsParse(rows, parse)
    ensures Get(Accumulate(b, rows, parse), account) == Get(b, account) + Net(rows, account, parse)
    decreases |rows|
  {
    if rows != [] {
      assert AmountsParse(rows[1..], parse) by {
        forall row | row in rows[1..] ensures row in rows { }
      }
      if CarriesAmount(rows[0]) {
        var a := parse(rows[0]["Amount"]).value;
        AccumulateIsNet(Post(b, rows[0]["Debit"], rows[0]["Credit"], a), rows[1..], parse, account);
      } else {
        AccumulateIsNet(b, rows[1..], parse, account);
      }
    }
  }

  lemma {:induction false} NetAppend(s: seq<Row>, t: seq<Row>, account: string, parse: AmountParser)
    ensures Net(s + t, account, parse) == Net(s, account, parse) + Net(t, account, parse)
  {
    if s == [] {
      assert s + t == t;
    } else {
      assert (s + t)[1..] == s[1..] + t;
      NetAppend(s[1..], t, account, parse);
    }
  }

  lemma {:induction false} NetPermutation(s: seq<Row>, t: seq<Row>, account: string, parse: AmountParser)
    requires multiset(s) == multiset(t)
    ensures Net(s, account, parse) == Net(t, account, parse)
    decreases |s|
  {
    if s != [] {
      var x := s[0];
      assert x in multiset(t);
      var j :| 0 <= j < |t| && t[j] == x;
      var rest := t[..j] + t[j + 1..];
      assert t == t[..j] + [x] + t[j + 1..];
      assert s == [x] + s[1..];
      assert multiset(t) == multiset(t[..j]) + multiset([x]) + multiset(t[j + 1..]);
      assert multiset(rest) == multiset(t[..j]) + multiset(t[j + 1..]);
      assert multiset(s) == multiset([x]) + multiset(s[1..]);
      assert multiset(s[1..]) == multiset(s) - multiset{x};
      assert multiset(rest) == multiset(t) - multiset{x};
      NetPermutation(s[1..], rest, account, parse);
      NetAppend(t[..j] + [x], t[j + 1..], account, parse);
      NetAppend(t[..j], [x], account, parse);
      NetAppend(t[..j], t[j + 1..], account, parse);
    } else {
      assert t == [];
    }
  }

  /** Raw balances do not depend on the order of the rows, as long as every
      amount the fold reads parses. */
  lemma BalancesOrderIndependent(rows: seq<Row>, reordered: seq<Row>, parse: AmountParser)
    requires multiset(rows) == multiset(reordered)
    requires AmountsParse(rows, parse)
    ensures forall account :: Get(Accumulate(map[], rows, parse), account)
                              == Get(Accumulate(map[], reordered, parse), account)
  {
    assert AmountsParse(reordered, parse) by {
      forall row | row in reordered ensures row in rows {
        assert row in multiset(reordered);
      }
    }
    forall account
      ensures Get(Accumulate(map[], rows, parse), account) == Get(Accumulate(map[], reordered, parse), account)
    {
      AccumulateIsNet(map[], rows, parse, account);
      AccumulateIsNet(map[], reordered, parse, account);
      NetPermutation(rows, reordered, account, parse);
    }
  }

  /** A well-formed row whose amount does not parse stops the fold: nothing
      after it is posted. */
  lemma {:induction false} UnparseableAmountStops(b: Balances, before: seq<Row>, row: Row, after: seq<Row>, parse: AmountParser)
    requires AmountsParse(before, parse)
    requires CarriesAmount(row) && parse(row["Amount"]).None?
    ensures Accumulate(b, before + [row] + after, parse) == Accumulate(b, before, parse)
    decreases |before|
  {
    if before == [] {
      assert before + [row] + after == [row] + after;
    } else {
      var rows := before + [row] + after;
      assert rows[0] == before[0];
      assert rows[1..] == before[1..] + [row] + after;
      assert AmountsParse(before[1..], parse) by {
        forall r | r in before[1..] ensures r in before { }
      }
      if CarriesAmount(before[0]) {
        var a := parse(before[0]["Amount"]).value;
        UnparseableAmountStops(Post(b, before[0]["Debit"], before[0]["Credit"], a), before[1..], row, after, parse);
      } else {
        UnparseableAmountStops(b, before[1..], row, after, parse);
      }
    }
  }

  // ---------------------------------------------------------------------------
  // The balances sum to zero

  predicate DistinctKeys(keys: seq<string>) {
    forall i, j :: 0 <= i < j < |keys| ==> keys[i] != keys[j]
  }

  /** The sum of the raw balances of the listed accounts. */
  function SumOver(b: Balances, keys: seq<string>): int {
    if keys == [] then 0 else Get(b, keys[0]) + SumOver(b, keys[1..])
  }

  lemma {:induction false} SumOverEmpty(keys: seq<string>)
    ensures SumOver(map[], keys) == 0
  {
    if keys != [] {
      SumOverEmpty(keys[1..]);
    }
  }

  lemma {:induction false} SumOverPost(b: Balances, debit: string, credit: string, amount: int, keys: seq<string>)
    requires DistinctKeys(keys)
    ensures SumOver(Post(b, debit, credit, amount), keys)
            == SumOver(b, keys) + (if debit in keys then amount else 0) - (if credit in keys then amount else 0)
  {
    if keys != [] {
      assert DistinctKeys(keys[1..]) by {
        forall i, j | 0 <= i < j < |keys[1..]| ensures keys[1..][i] != keys[1..][j] {
          assert keys[1..][i] == keys[i + 1] && keys[1..][j] == keys[j + 1];
        }
      }
      SumOverPost(b, debit, credit, amount, keys[1..]);
      assert keys[0] !in keys[1..] by {
        forall j | 0 <= j < |keys[1..]| ensures keys[1..][j] != keys[0] {
          assert keys[1..][j] == keys[j + 1];
        }
      }
      assert debit in keys <==> debit == keys[0] || debit in keys[1..];
      assert credit in keys <==> credit == keys[0] || credit in keys[1..];
    }
  }

  lemma {:induction false} AccumulateKeysGrow(b: Balances, rows: seq<Row>, parse: AmountParser)
    ensures b.Keys <= Accumulate(b, rows, parse).Keys
    decreases |rows|
  {
    if rows != [] && CarriesAmount(rows[0]) {
      match parse(rows[0]["Amount"])
      case None =>
      case Some(a) =>
        AccumulateKeysGrow(Post(b, rows[0]["Debit"], rows[0]["Credit"], a), rows[1..], parse);
    } else if rows != [] {
      AccumulateKeysGrow(b, rows[1..], parse);
    }
  }

  lemma {:induction false} AccumulatePreservesSum(b: Balances, rows: seq<Row>, parse: AmountParser, keys: seq<string>)
    requires DistinctKeys(keys)
    requires forall k :: k in Accumulate(b, rows, parse) ==> k in keys
    ensures SumOver(Accumulate(b, rows, parse), keys) == SumOver(b, keys)
    decreases |rows|
  {
    if rows != [] && CarriesAmount(rows[0]) {
      match parse(rows[0]["Amount"])
      case None =>
      case Some(a) =>
        var next := Post(b, rows[0]["Debit"], rows[0]["Credit"], a);
        AccumulateKeysGrow(next, rows[1..], parse);
        AccumulatePreservesSum(next, rows[1..], parse, keys);
        SumOverPost(b, rows[0]["Debit"], rows[0]["Credit"], a, keys);
    } else if rows != [] {
      AccumulatePreservesSum(b, rows[1..], parse, keys);
    }
  }

  /** Double entry balances globally: summed over any list of distinct
      accounts that covers every account the fold touched, the raw balances
      add up to zero. */
  lemma BalancesSumToZero(rows: seq<Row>, parse: AmountParser, keys: seq<string>)
    requires DistinctKeys(keys)
    requires forall k :: k in Accumulate(map[], rows, parse) ==> k in keys
    ensures SumOver(Accumulate(map[], rows, parse), keys) == 0
  {
    AccumulatePreservesSum(map[], rows, parse, keys);
    SumOverEmpty(keys);
  }

  // ---------------------------------------------------------------------------
  // Displayed side and magnitude

  function Abs(x: int): int {
    if x < 0 then -x else x
  }

  datatype Shown = Shown(side: Side, balance: int)

  /** Sign normalisation of a raw balance for display.  The magnitude is always
      the absolute value; the side is Credit exactly for a credit-normal
      account whose raw balance is not zero, whatever its sign. */
  function Display(normal: Lookup<Side>, raw: int): (r: Shown)
    ensures r.balance == Abs(raw) && r.balance >= 0
    ensures r.side == Credit <==> normal == Known(Credit) && raw != 0
  {
    if normal == Known(Credit) && raw < 0 then Shown(Credit, Abs(raw))
    else if normal == Known(Debit) && raw > 0 then Shown(Debit, raw)
    else if normal == Known(Credit) && raw > 0 then Shown(Credit, raw)
    else Shown(Debit, Abs(raw))
  }

  /** One account as the grouped result lists it. */
  datatype AccountView = AccountView(name: string, balance: int, side: Side, normal: Lookup<Side>)

  function ViewOf(b: Balances, name: string): (v: AccountView)
    ensures v.name == name && v.normal == GetNormalBalance(name)
    ensures v.balance == Abs(Get(b, name))
    ensures v.side == Credit <==> v.normal == Known(Credit) && Get(b, name) != 0
  {
    var normal := GetNormalBalance(name);
    var shown := Display(normal, Get(b, name));
    AccountView(name, shown.balance, shown.side, normal)
  }

  // ---------------------------------------------------------------------------
  // Ordering by name

  /** String order: character by character, a proper prefix first. */
  predicate NameLe(a: string, b: string)
    decreases |a|
  {
    a == [] || (b != [] && (a[0] < b[0] || (a[0] == b[0] && NameLe(a[1..], b[1..]))))
  }

  lemma {:induction false} NameLeTotal(a: string, b: string)
    ensures NameLe(a, b) || NameLe(b, a)
    decreases |a|
  {
    if a != [] && b != [] && a[0] == b[0] {
      NameLeTotal(a[1..], b[1..]);
    }
  }

  lemma {:induction false} NameLeTransitive(a: string, b: string, c: string)
    requires NameLe(a, b) && NameLe(b, c)
    ensures NameLe(a, c)
    decreases |a|
  {
    if a != [] && a[0] == b[0] && b[0] == c[0] {
      NameLeTransitive(a[1..], b[1..], c[1..]);
    }
  }

  lemma {:induction false} NameLeAntisymmetric(a: string, b: string)
    requires NameLe(a, b) && NameLe(b, a)
    ensures a == b
    decreases |a|
  {
    if a != [] {
      NameLeAntisymmetric(a[1..], b[1..]);
      assert a == [a[0]] + a[1..] && b == [b[0]] + b[1..];
    }
  }

  /** The name order is a total order: total, transitive and antisymmetric. */
  lemma NameOrder()
    ensures forall a, b :: NameLe(a, b) || NameLe(b, a)
    ensures forall a, b, c :: NameLe(a, b) && NameLe(b, c) ==> NameLe(a, c)
    ensures forall a, b :: NameLe(a, b) && NameLe(b, a) ==> a == b
  {
    forall a, b | NameLe(a, b) && NameLe(b, a) ensures a == b {
      NameLeAntisymmetric(a, b);
    }
    forall a, b ensures NameLe(a, b) || NameLe(b, a) {
      NameLeTotal(a, b);
    }
    forall a, b, c | NameLe(a, b) && NameLe(b, c) ensures NameLe(a, c) {
      NameLeTransitive(a, b, c);
    }
  }

  predicate SortedByName(s: seq<AccountView>) {
    forall i, j :: 0 <= i < j < |s| ==> NameLe(s[i].name, s[j].name)
  }

  function InsertByName(v: AccountView, s: seq<AccountView>): (r: seq<AccountView>)
    requires SortedByName(s)
    ensures SortedByName(r)
    ensures multiset(r) == multiset(s) + multiset{v}
    decreases |s|
  {
    if s == [] then [v]
    else if NameLe(v.name, s[0].name) then
      InsertFront(v, s);
      [v] + s
    else
      var rest := InsertByName(v, s[1..]);
      InsertBehind(v, s, rest);
      [s[0]] + rest
  }

  /** A name no later than the first of a sorted list may go in front of it. */
  lemma InsertFront(v: AccountView, s: seq<AccountView>)
    requires SortedByName(s) && s != [] && NameLe(v.name, s[0].name)
    ensures SortedByName([v] + s)
  {
    forall k | 0 <= k < |s| ensures NameLe(v.name, s[k].name) {
      if k > 0 {
        NameLeTransitive(v.name, s[0].name, s[k].name);
      }
    }
  }

  /** A name later than the first of a sorted list goes among the others:
      the first stays in front of the rest with the name inserted. */
  lemma InsertBehind(v: AccountView, s: seq<AccountView>, rest: seq<AccountView>)
    requires SortedByName(s) && s != [] && !NameLe(v.name, s[0].name)
    requires SortedByName(rest) && multiset(rest) == multiset(s[1..]) + multiset{v}
    ensures SortedByName([s[0]] + rest)
    ensures multiset([s[0]] + rest) == multiset(s) + multiset{v}
  {
    NameLeTotal(v.name, s[0].name);
    assert s == [s[0]] + s[1..];
    forall k | 0 <= k < |rest| ensures NameLe(s[0].name, rest[k].name) {
      assert rest[k] in multiset(rest);
      if rest[k] != v {
        assert rest[k] in multiset(s[1..]);
        var j :| 0 <= j < |s[1..]| && s[1..][j] == rest[k];
        assert s[j + 1] == rest[k];
      }
    }
  }

  /** The accounts ordered by name, as the in-place sort by name leaves them. */
  function SortByName(s: seq<AccountView>): (r: seq<AccountView>)
    ensures SortedByName(r)
    ensures multiset(r) == multiset(s)
    ensures |r| == |s|
  {
    if s == [] then []
    else
      assert s == [s[0]] + s[1..];
      InsertByName(s[0], SortByName(s[1..]))
  }

  // ---------------------------------------------------------------------------
  // Accounts grouped by category

  /** The views of the entries of category `c`, in table order. */
  function ChartViews(b: Balances, entries: seq<(string, Category)>, c: Category): seq<AccountView> {
    if entries == [] then []
    else
      var last := entries[|entries| - 1];
      ChartViews(b, entries[..|entries| - 1], c) + (if last.1 == c then [ViewOf(b, last.0)] else [])
  }

  lemma {:induction false} ChartViewsShape(b: Balances, entries: seq<(string, Category)>, c: Category)
    requires DistinctNames(entries)
    ensures forall v :: v in ChartViews(b, entries, c) ==>
              v == ViewOf(b, v.name) && LookupIn(entries, v.name) == Known(c)
    ensures forall name :: multiset(ChartViews(b, entries, c))[ViewOf(b, name)]
                           == if LookupIn(entries, name) == Known(c) then 1 else 0
  {
    if entries != [] {
      var init := entries[..|entries| - 1];
      var last := entries[|entries| - 1];
      assert DistinctNames(init) by {
        forall i, j | 0 <= i < j < |init| ensures init[i].0 != init[j].0 {
          assert init[i] == entries[i] && init[j] == entries[j];
        }
      }
      assert NameAbsent(init, last.0) by {
        forall i | 0 <= i < |init| ensures init[i].0 != last.0 {
          assert init[i] == entries[i];
        }
      }
      ChartViewsShape(b, init, c);
      var extra := if last.1 == c then [ViewOf(b, last.0)] else [];
      assert ChartViews(b, entries, c) == ChartViews(b, init, c) + extra;
    }
  }

  lemma ChartViewsStep(b: Balances, entries: seq<(string, Category)>, i: nat)
    requires i < |entries|
    ensures forall c :: ChartViews(b, entries[..i + 1], c)
                        == ChartViews(b, entries[..i], c) + (if entries[i].1 == c then [ViewOf(b, entries[i].0)] else [])
  {
    assert entries[..i + 1][..i] == entries[..i];
  }

  /** The accounts of one category, sorted by name. */
  function Group(b: Balances, c: Category): seq<AccountView> {
    SortByName(ChartViews(b, Chart, c))
  }

  /** Every chart account is listed exactly once, under its own category,
      whatever its activity; nothing outside the chart is listed; each list
      is sorted by name, and each account shows its normalised balance. */
  lemma GroupShape(b: Balances, c: Category)
    ensures SortedByName(Group(b, c))
    ensures forall v :: v in Group(b, c) ==> v == ViewOf(b, v.name) && AccountType(v.name) == Known(c)
    ensures forall name :: multiset(Group(b, c))[ViewOf(b, name)]
                           == if AccountType(name) == Known(c) then 1 else 0
  {
    ChartNamesDistinct();
    ChartViewsShape(b, Chart, c);
    forall v | v in Group(b, c)
      ensures v == ViewOf(b, v.name) && AccountType(v.name) == Known(c)
    {
      assert v in multiset(Group(b, c));
      assert v in ChartViews(b, Chart, c);
    }
  }

  /** The listed accounts appended, in table order, to their category's
      list, each with its displayed balance. */
  method ListAccounts(balances: Balances, entries: seq<(string, Category)>)
    returns (groups: map<Category, seq<AccountView>>)
    ensures forall c: Category :: c in groups && groups[c] == ChartViews(balances, entries, c)
  {
    groups := map[Assets := [], Liabilities := [], Equities := [], Income := [], Expenses := []];
    EmptyGroupsStart(balances, entries, groups);
    var i := 0;
    while i < |entries|
      invariant 0 <= i <= |entries|
      invariant forall c: Category :: c in groups && groups[c] == ChartViews(balances, entries[..i], c)
    {
      var (name, category) := entries[i];
      ChartViewsStep(balances, entries, i);
      groups := groups[category := groups[category] + [ViewOf(balances, name)]];
      i := i + 1;
    }
    assert entries[..|entries|] == entries;
  }

  /** Each list sorted by name; the order the lists are taken in does not matter. */
  method SortGroups(groups: map<Category, seq<AccountView>>) returns (sorted: map<Category, seq<AccountView>>)
    ensures sorted.Keys == groups.Keys
    ensures forall c :: c in groups ==> sorted[c] == SortByName(groups[c])
  {
    sorted := groups;
    var unsorted := groups.Keys;
    while unsorted != {}
      invariant unsorted <= groups.Keys && sorted.Keys == groups.Keys
      invariant forall c :: c in unsorted ==> sorted[c] == groups[c]
      invariant forall c :: c in groups && c !in unsorted ==> sorted[c] == SortByName(groups[c])
      decreases unsorted
    {
      var c :| c in unsorted;
      sorted := sorted[c := SortByName(sorted[c])];
      unsorted := unsorted - {c};
    }
  }

  method AccountsByType(store: Store, parse: AmountParser) returns (groups: map<Category, seq<AccountView>>)
    ensures forall c: Category :: c in groups && groups[c] == Group(RawBalances(store, parse), c)
  {
    var balances := CalculateAccountBalances(store, parse);
    var listed := ListAccounts(balances, Chart);
    groups := SortGroups(listed);
  }

  lemma EmptyGroupsStart(b: Balances, entries: seq<(string, Category)>, groups: map<Category, seq<AccountView>>)
    requires groups == map[Assets := [], Liabilities := [], Equities := [], Income := [], Expenses := []]
    ensures forall c: Category :: c in groups && groups[c] == ChartViews(b, entries[..0], c)
  {
    assert entries[..0] == [];
    AllCategoriesListed();
    forall c: Category ensures c in groups && groups[c] == [] {
      assert c in Categories;
    }
  }


  lemma AllCategoriesListed()
    ensures forall c: Category :: c in Categories
  {
    forall c: Category ensures c in Categories {
      match c
      case Assets => assert Categories[0] == c;
      case Liabilities => assert Categories[1] == c;
      case Equities => assert Categories[2] == c;
      case Income => assert Categories[3] == c;
      case Expenses => assert Categories[4] == c;
    }
  }

  // ---------------------------------------------------------------------------
  // Category totals and the summary

  /** Debit-shown balances count positive, Credit-shown ones negative. */
  function SignedTotal(accounts: seq<AccountView>): int {
    if accounts == [] then 0
    else
      var last := accounts[|accounts| - 1];
      SignedTotal(accounts[..|accounts| - 1]) + (if last.side == Debit then last.balance else -last.balance)
  }

  /** The sum of the displayed magnitudes. */
  function BalanceSum(accounts: seq<AccountView>): int {
    if accounts == [] then 0 else BalanceSum(accounts[..|accounts| - 1]) + accounts[|accounts| - 1].balance
  }

  /** In one category every account shows the category's normal side (or a
      zero balance), so the signed total is plus or minus the sum of the
      magnitudes. */
  lemma {:induction false} SignedTotalOfOneSide(b: Balances, accounts: seq<AccountView>, s: Side)
    requires forall v :: v in accounts ==> v == ViewOf(b, v.name) && v.normal == Known(s)
    ensures BalanceSum(accounts) >= 0
    ensures SignedTotal(accounts) == if s == Debit then BalanceSum(accounts) else -BalanceSum(accounts)
  {
    if accounts != [] {
      var init := accounts[..|accounts| - 1];
      assert forall v :: v in init ==> v in accounts;
      SignedTotalOfOneSide(b, init, s);
      assert accounts[|accounts| - 1] in accounts;
    }
  }

  /** The category total, the absolute value of the signed total, is the sum
      of the displayed magnitudes of the category's accounts. */
  lemma GroupTotal(b: Balances, c: Category)
    ensures BalanceSum(Group(b, c)) >= 0
    ensures Abs(SignedTotal(Group(b, c))) == BalanceSum(Group(b, c))
  {
    GroupShape(b, c);
    SignedTotalOfOneSide(b, Group(b, c), NormalSide(c));
  }

  /** The signed sum over one category's accounts: debit-shown balances add,
      credit-shown balances subtract. */
  method SignedSum(accounts: seq<AccountView>) returns (total: int)
    ensures total == SignedTotal(accounts)
  {
    total := 0;
    var i := 0;
    while i < |accounts|
      invariant 0 <= i <= |accounts|
      invariant total == SignedTotal(accounts[..i])
    {
      assert accounts[..i + 1][..i] == accounts[..i];
      if accounts[i].side == Debit {
        total := total + accounts[i].balance;
      } else {
        total := total - accounts[i].balance;
      }
      i := i + 1;
    }
    assert accounts[..|accounts|] == accounts;
  }

  /** The total of a category: the absolute value of the signed total of its
      accounts, which is the sum of their displayed magnitudes; zero for a
      name that is not a category. */
  method TotalByType(store: Store, parse: AmountParser, typeName: string) returns (total: int)
    ensures total >= 0
    ensures CategoryNamed(typeName) == Unknown ==> total == 0
    ensures CategoryNamed(typeName).Known? ==>
              total == BalanceSum(Group(RawBalances(store, parse), CategoryNamed(typeName).value))
  {
    var groups := AccountsByType(store, parse);
    var category := CategoryNamed(typeName);
    var accounts := if category.Known? then groups[category.value] else [];
    total := SignedSum(accounts);
    if category.Known? {
      GroupTotal(RawBalances(store, parse), category.value);
    }
    total := Abs(total);
  }

  datatype CategorySummary = CategorySummary(accounts: seq<AccountView>, total: int)

  /** The summary lists all five categories, each with its sorted accounts and
      the sum of their displayed magnitudes. */
  predicate SummaryFor(summary: map<Category, CategorySummary>, b: Balances) {
    forall c: Category :: c in summary && summary[c] == CategorySummary(Group(b, c), BalanceSum(Group(b, c)))
  }

  method AllAccountsSummary(store: Store, parse: AmountParser) returns (summary: map<Category, CategorySummary>)
    ensures SummaryFor(summary, RawBalances(store, parse))
    ensures summary == Summary(RawBalances(store, parse))
  {
    var groups := AccountsByType(store, parse);
    summary := SummariseCategories(store, parse, groups, Categories);
    AllCategoriesListed();
    SummaryUnique(summary, RawBalances(store, parse));
  }

  /** One summary entry per listed category, in list order: its group and
      its total by type. */
  method SummariseCategories(store: Store, parse: AmountParser, groups: map<Category, seq<AccountView>>, cats: seq<Category>)
    returns (summary: map<Category, CategorySummary>)
    requires forall c: Category :: c in groups && groups[c] == Group(RawBalances(store, parse), c)
    ensures forall c :: c in cats ==>
              c in summary && summary[c] == CategorySummary(Group(RawBalances(store, parse), c), BalanceSum(Group(RawBalances(store, parse), c)))
  {
    var b := RawBalances(store, parse);
    summary := map[];
    var j := 0;
    while j < |cats|
      invariant 0 <= j <= |cats|
      invariant forall c :: c in cats[..j] ==>
                  c in summary && summary[c] == CategorySummary(Group(b, c), BalanceSum(Group(b, c)))
    {
      var c := cats[j];
      assert cats[..j + 1] == cats[..j] + [c];
      LabelRoundTrip(c);
      var total := TotalByType(store, parse, Label(c));
      summary := summary[c := CategorySummary(groups[c], total)];
      j := j + 1;
    }
    assert cats[..|cats|] == cats;
  }

  /** The one summary a set of balances determines. */
  function Summary(b: Balances): (s: map<Category, CategorySummary>)
    ensures SummaryFor(s, b)
  {
    AllCategoriesListed();
    map c | c in Categories :: CategorySummary(Group(b, c), BalanceSum(Group(b, c)))
  }

  /** A summary that lists all five categories as they stand is that summary. */
  lemma SummaryUnique(s: map<Category, CategorySummary>, b: Balances)
    requires SummaryFor(s, b)
    ensures s == Summary(b)
  {
    AllCategoriesListed();
    assert s.Keys == Summary(b).Keys;
  }
}
