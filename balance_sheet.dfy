/** The data behind the balance-sheet view: the Assets list, the
    Liabilities & Equity list with its two section headers, and the two
    totals, all taken from the accounts summary. */
module BalanceSheet {
  import opened Common
  import opened Accounts

  /** One row of a list: an account and its displayed balance, or a section
      header with an empty amount cell. */
  datatype SheetLine = SheetLine(caption: string, amount: Option<int>)

  const LiabilitiesHeader: string := "— Liabilities —"
  const EquityHeader: string := "— Equity —"

  /** A category the summary lacks counts as no accounts and a zero total. */
  function SectionOf(summary: map<Category, CategorySummary>, c: Category): (s: CategorySummary)
    ensures c in summary ==> s == summary[c]
    ensures c !in summary ==> s.accounts == [] && s.total == 0
  {
    if c in summary then summary[c] else CategorySummary([], 0)
  }

  /** One row per account, in the order given: its name and displayed balance. */
  function AccountLines(accounts: seq<AccountView>): seq<SheetLine> {
    if accounts == [] then []
    else AccountLines(accounts[..|accounts| - 1]) + [SheetLine(accounts[|accounts| - 1].name, Some(accounts[|accounts| - 1].balance))]
  }

  /** Row i shows account i. */
  lemma {:induction false} AccountLinesAt(accounts: seq<AccountView>)
    ensures |AccountLines(accounts)| == |accounts|
    ensures forall i :: 0 <= i < |accounts| ==>
              AccountLines(accounts)[i] == SheetLine(accounts[i].name, Some(accounts[i].balance))
  {
    if accounts != [] {
      AccountLinesAt(accounts[..|accounts| - 1]);
    }
  }

  function AssetLines(summary: map<Category, CategorySummary>): seq<SheetLine> {
    AccountLines(SectionOf(summary, Assets).accounts)
  }

  function LiabilityEquityLines(summary: map<Category, CategorySummary>): seq<SheetLine> {
    [SheetLine(LiabilitiesHeader, None)] + AccountLines(SectionOf(summary, Liabilities).accounts)
    + [SheetLine(EquityHeader, None)] + AccountLines(SectionOf(summary, Equities).accounts)
  }

  function LiabilityEquityTotal(summary: map<Category, CategorySummary>): int {
    SectionOf(summary, Liabilities).total + SectionOf(summary, Equities).total
  }

  /** Each section of the accounts manager's summary is its category's
      sorted group with that group's total. */
  lemma SectionOfSummary(b: Balances, c: Category)
    ensures SectionOf(Summary(b), c) == CategorySummary(Group(b, c), BalanceSum(Group(b, c)))
  {
    assert SummaryFor(Summary(b), b);
  }

  /** On the accounts manager's summary the Assets list holds exactly the
      Assets accounts of the chart, each with its displayed balance, and
      Total Assets is their summed displayed balance. */
  lemma AssetSideOfSummary(b: Balances)
    ensures forall line :: line in AssetLines(Summary(b)) ==>
              line.amount.Some? && AccountType(line.caption) == Known(Assets)
    ensures forall name :: AccountType(name) == Known(Assets) ==>
              SheetLine(name, Some(ViewOf(b, name).balance)) in AssetLines(Summary(b))
    ensures SectionOf(Summary(b), Assets).total == BalanceSum(Group(b, Assets))
  {
    SectionOfSummary(b, Assets);
    LinesNameGroup(b, Assets);
    LinesCoverGroup(b, Assets);
  }

  /** On the accounts manager's summary the Liabilities & Equity list is the
      Liabilities header, the Liabilities accounts, the Equity header and the
      Equities accounts, in that order, and its total is the sum of the two
      categories' totals; nothing compares it with Total Assets. */
  lemma LiabilitySideShape(b: Balances)
    ensures LiabilityEquityLines(Summary(b))
            == [SheetLine(LiabilitiesHeader, None)] + AccountLines(Group(b, Liabilities))
               + [SheetLine(EquityHeader, None)] + AccountLines(Group(b, Equities))
    ensures LiabilityEquityTotal(Summary(b)) == BalanceSum(Group(b, Liabilities)) + BalanceSum(Group(b, Equities))
  {
    SectionOfSummary(b, Liabilities);
    SectionOfSummary(b, Equities);
  }

  /** Only the two headers and Liabilities and Equities accounts appear on
      that side: Income and Expenses never do. */
  lemma LiabilitySideOfSummary(b: Balances)
    ensures forall line :: line in LiabilityEquityLines(Summary(b)) ==>
              line == SheetLine(LiabilitiesHeader, None) || line == SheetLine(EquityHeader, None)
              || AccountType(line.caption) == Known(Liabilities) || AccountType(line.caption) == Known(Equities)
  {
    LiabilitySideShape(b);
    LinesNameGroup(b, Liabilities);
    LinesNameGroup(b, Equities);
  }

  /** Every Liabilities and every Equities account of the chart is listed,
      with its displayed balance, on the Liabilities & Equity side. */
  lemma LiabilitySideComplete(b: Balances)
    ensures forall name :: AccountType(name) == Known(Liabilities) || AccountType(name) == Known(Equities) ==>
              SheetLine(name, Some(ViewOf(b, name).balance)) in LiabilityEquityLines(Summary(b))
  {
    LiabilitySideShape(b);
    LinesCoverGroup(b, Liabilities);
    LinesCoverGroup(b, Equities);
    forall name | AccountType(name) == Known(Liabilities) || AccountType(name) == Known(Equities)
      ensures SheetLine(name, Some(ViewOf(b, name).balance)) in LiabilityEquityLines(Summary(b))
    {
      InSection(SheetLine(LiabilitiesHeader, None), AccountLines(Group(b, Liabilities)),
                SheetLine(EquityHeader, None), AccountLines(Group(b, Equities)),
                SheetLine(name, Some(ViewOf(b, name).balance)));
    }
  }

  /** A row of either section is a row of the whole list. */
  lemma InSection(h1: SheetLine, xs: seq<SheetLine>, h2: SheetLine, ys: seq<SheetLine>, line: SheetLine)
    ensures line in xs || line in ys ==> line in [h1] + xs + [h2] + ys
  {
  }

  /** Every chart account of a category has its row, with its displayed
      balance, among the rows drawn from the category's group. */
  lemma LinesCoverGroup(b: Balances, c: Category)
    ensures forall name :: AccountType(name) == Known(c) ==>
              SheetLine(name, Some(ViewOf(b, name).balance)) in AccountLines(Group(b, c))
  {
    var g := Group(b, c);
    GroupShape(b, c);
    AccountLinesAt(g);
    forall name | AccountType(name) == Known(c)
      ensures SheetLine(name, Some(ViewOf(b, name).balance)) in AccountLines(g)
    {
      assert multiset(g)[ViewOf(b, name)] == 1;
      var i :| 0 <= i < |g| && g[i] == ViewOf(b, name);
      assert AccountLines(g)[i] == SheetLine(name, Some(ViewOf(b, name).balance));
    }
  }

  /** Every row drawn from a category's group names an account of that category. */
  lemma LinesNameGroup(b: Balances, c: Category)
    ensures forall line :: line in AccountLines(Group(b, c)) ==>
              line.amount.Some? && AccountType(line.caption) == Known(c)
  {
    GroupShape(b, c);
    var g := Group(b, c);
    AccountLinesAt(g);
    forall line | line in AccountLines(g)
      ensures line.amount.Some? && AccountType(line.caption) == Known(c)
    {
      var i :| 0 <= i < |g| && AccountLines(g)[i] == line;
      assert g[i] in g;
    }
  }

  /** The two lists and the two total labels of the view. */
  class BalanceSheetView {
    var assetRows: seq<SheetLine>
    var liabilityRows: seq<SheetLine>
    var assetsTotal: int
    var liabilitiesEquityTotal: int

    /** Both lists start empty and both totals at zero. */
    constructor ()
      ensures assetRows == [] && liabilityRows == [] && assetsTotal == 0 && liabilitiesEquityTotal == 0
    {
      assetRows, liabilityRows := [], [];
      assetsTotal, liabilitiesEquityTotal := 0, 0;
    }

    /** Clears both lists, then fills them and the totals from the summary;
        nothing of what was shown before survives. */
    method Show(summary: map<Category, CategorySummary>)
      modifies this
      ensures assetRows == AssetLines(summary)
      ensures liabilityRows == LiabilityEquityLines(summary)
      ensures assetsTotal == SectionOf(summary, Assets).total
      ensures liabilitiesEquityTotal == LiabilityEquityTotal(summary)
    {
      while assetRows != []
        decreases |assetRows|
      {
        assetRows := assetRows[1..];
      }
      while liabilityRows != []
        invariant assetRows == []
        decreases |liabilityRows|
      {
        liabilityRows := liabilityRows[1..];
      }
      var assets := SectionOf(summary, Assets);
      var liabilities := SectionOf(summary, Liabilities);
      var equities := SectionOf(summary, Equities);
      AppendAccounts(true, assets.accounts);
      liabilityRows := liabilityRows + [SheetLine(LiabilitiesHeader, None)];
      AppendAccounts(false, liabilities.accounts);
      liabilityRows := liabilityRows + [SheetLine(EquityHeader, None)];
      AppendAccounts(false, equities.accounts);
      assetsTotal := assets.total;
      liabilitiesEquityTotal := liabilities.total + equities.total;
    }

    /** Appends one row per account to the Assets list or to the other one. */
    method AppendAccounts(toAssets: bool, accounts: seq<AccountView>)
      modifies this
      ensures toAssets ==> assetRows == old(assetRows) + AccountLines(accounts) && liabilityRows == old(liabilityRows)
      ensures !toAssets ==> liabilityRows == old(liabilityRows) + AccountLines(accounts) && assetRows == old(assetRows)
      ensures assetsTotal == old(assetsTotal) && liabilitiesEquityTotal == old(liabilitiesEquityTotal)
    {
      var i := 0;
      while i < |accounts|
        invariant 0 <= i <= |accounts|
        invariant toAssets ==> assetRows == old(assetRows) + AccountLines(accounts[..i]) && liabilityRows == old(liabilityRows)
        invariant !toAssets ==> liabilityRows == old(liabilityRows) + AccountLines(accounts[..i]) && assetRows == old(assetRows)
        invariant assetsTotal == old(assetsTotal) && liabilitiesEquityTotal == old(liabilitiesEquityTotal)
      {
        assert accounts[..i + 1][..i] == accounts[..i];
        var line := SheetLine(accounts[i].name, Some(accounts[i].balance));
        if toAssets {
          assetRows := assetRows + [line];
        } else {
          liabilityRows := liabilityRows + [line];
        }
        i := i + 1;
      }
      assert accounts[..|accounts|] == accounts;
    }

    /** The refresh: asks the accounts manager for its summary and shows it. */
    method Populate(store: Store, parse: AmountParser)
      modifies this
      ensures assetRows == AssetLines(Summary(RawBalances(store, parse)))
      ensures liabilityRows == LiabilityEquityLines(Summary(RawBalances(store, parse)))
      ensures assetsTotal == SectionOf(Summary(RawBalances(store, parse)), Assets).total
      ensures liabilitiesEquityTotal == LiabilityEquityTotal(Summary(RawBalances(store, parse)))
    {
      var summary := AllAccountsSummary(store, parse);
      Show(summary);
    }
  }
}
