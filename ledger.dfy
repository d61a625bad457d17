/** The general ledger: one entry per complete transaction row, in store
    order, carrying the row's parsed amount and a single running balance
    across all accounts. */
module Ledger {
  import opened Common

  datatype LedgerEntry = LedgerEntry(date: string, description: string, debit: string, credit: string,
                                     amount: int, balance: int)

  /** The row's amount, or zero when it does not parse. */
  function AmountOrZero(row: Row, parse: AmountParser): (a: int)
    requires HasAllColumns(row)
    ensures parse(row["Amount"]).Some? ==> a == parse(row["Amount"]).value
    ensures parse(row["Amount"]).None? ==> a == 0
  {
    match parse(row["Amount"])
    case Some(amount) => amount
    case None => 0
  }

  /** The entries the rows yield when the running balance stands at `opening`
      before the first of them. */
  function LedgerFrom(rows: seq<Row>, opening: int, parse: AmountParser): seq<LedgerEntry>
  {
    if rows == [] then []
    else if HasAllColumns(rows[0]) then
      var e := EntryFor(rows[0], opening, parse);
      [e] + LedgerFrom(rows[1..], e.balance, parse)
    else LedgerFrom(rows[1..], opening, parse)
  }

  /** The entry a complete row yields when the running balance stands at
      `opening` before it. */
  function EntryFor(row: Row, opening: int, parse: AmountParser): (e: LedgerEntry)
    requires HasAllColumns(row)
    ensures e.amount == AmountOrZero(row, parse) && e.balance == opening + e.amount
  {
    var amount := AmountOrZero(row, parse);
    LedgerEntry(row["Date"], row["Description"], row["Debit"], row["Credit"], amount, opening + amount)
  }

  /** One row further along: how the ledger of a suffix of the rows begins. */
  lemma LedgerFromStep(rows: seq<Row>, i: nat, opening: int, parse: AmountParser)
    requires i < |rows|
    ensures HasAllColumns(rows[i]) ==>
              LedgerFrom(rows[i..], opening, parse)
              == [EntryFor(rows[i], opening, parse)] + LedgerFrom(rows[i + 1..], EntryFor(rows[i], opening, parse).balance, parse)
    ensures !HasAllColumns(rows[i]) ==> LedgerFrom(rows[i..], opening, parse) == LedgerFrom(rows[i + 1..], opening, parse)
  {
    assert rows[i..][0] == rows[i] && rows[i..][1..] == rows[i + 1..];
  }

  /** The ledger of a store: the running balance starts at zero; a missing
      store gives no entries. */
  function LedgerOf(store: Store, parse: AmountParser): (l: seq<LedgerEntry>)
    ensures store.Absent? ==> l == []
  {
    LedgerFrom(RowsOf(store), 0, parse)
  }

  /** The entry records the row: its text cells, and its amount (zero where
      the amount does not parse). */
  predicate Mirrors(e: LedgerEntry, row: Row, parse: AmountParser) {
    HasAllColumns(row)
    && e.date == row["Date"] && e.description == row["Description"]
    && e.debit == row["Debit"] && e.credit == row["Credit"] && e.amount == AmountOrZero(row, parse)
  }

  /** One entry per complete row, and entry k records the k-th of them. */
  lemma {:induction false} LedgerMirrorsRows(rows: seq<Row>, opening: int, parse: AmountParser)
    ensures |LedgerFrom(rows, opening, parse)| == |CompleteRows(rows)|
    ensures forall k :: 0 <= k < |CompleteRows(rows)| ==>
              Mirrors(LedgerFrom(rows, opening, parse)[k], CompleteRows(rows)[k], parse)
  {
    if rows != [] {
      if HasAllColumns(rows[0]) {
        var next := opening + AmountOrZero(rows[0], parse);
        LedgerMirrorsRows(rows[1..], next, parse);
        var cs, l := CompleteRows(rows), LedgerFrom(rows, opening, parse);
        assert cs == [rows[0]] + CompleteRows(rows[1..]);
        assert l == [l[0]] + LedgerFrom(rows[1..], next, parse);
        forall k | 1 <= k < |cs|
          ensures Mirrors(l[k], cs[k], parse)
        {
          assert cs[k] == CompleteRows(rows[1..])[k - 1];
          assert l[k] == LedgerFrom(rows[1..], next, parse)[k - 1];
        }
      } else {
        LedgerMirrorsRows(rows[1..], opening, parse);
      }
    }
  }

  /** The sum of the amounts of the entries. */
  function AmountTotal(l: seq<LedgerEntry>): int {
    if l == [] then 0 else AmountTotal(l[..|l| - 1]) + l[|l| - 1].amount
  }

  lemma {:induction false} AmountTotalPrepend(e: LedgerEntry, l: seq<LedgerEntry>)
    ensures AmountTotal([e] + l) == e.amount + AmountTotal(l)
    decreases |l|
  {
    if l == [] {
      assert ([e] + l)[..0] == [];
    } else {
      assert ([e] + l)[..|[e] + l| - 1] == [e] + l[..|l| - 1];
      AmountTotalPrepend(e, l[..|l| - 1]);
    }
  }

  /** The running balance: entry k's balance is the opening balance plus the
      amounts of entries 0 to k. */
  lemma {:induction false} RunningBalance(rows: seq<Row>, opening: int, parse: AmountParser)
    ensures forall k :: 0 <= k < |LedgerFrom(rows, opening, parse)| ==>
              LedgerFrom(rows, opening, parse)[k].balance == opening + AmountTotal(LedgerFrom(rows, opening, parse)[..k + 1])
  {
    if rows != [] {
      if HasAllColumns(rows[0]) {
        var a := AmountOrZero(rows[0], parse);
        var l, tail := LedgerFrom(rows, opening, parse), LedgerFrom(rows[1..], opening + a, parse);
        RunningBalance(rows[1..], opening + a, parse);
        assert l == [l[0]] + tail;
        forall k | 0 <= k < |l|
          ensures l[k].balance == opening + AmountTotal(l[..k + 1])
        {
          assert l[..k + 1] == [l[0]] + tail[..k];
          AmountTotalPrepend(l[0], tail[..k]);
          if k > 0 {
            assert tail[..k] == tail[..(k - 1) + 1];
            assert l[k] == tail[k - 1];
          } else {
            assert tail[..0] == [];
          }
        }
      } else {
        RunningBalance(rows[1..], opening, parse);
      }
    }
  }

  /** The balance shown after the last entry, zero when there is none. */
  function LastBalance(l: seq<LedgerEntry>): int {
    if l == [] then 0 else l[|l| - 1].balance
  }

  /** On the full ledger the two totals agree: the amounts add up to the last
      running balance. */
  lemma FullLedgerTotals(store: Store, parse: AmountParser)
    ensures AmountTotal(LedgerOf(store, parse)) == LastBalance(LedgerOf(store, parse))
  {
    var l := LedgerOf(store, parse);
    if l != [] {
      RunningBalance(RowsOf(store), 0, parse);
      assert l[..|l| - 1 + 1] == l;
    }
  }

  // ---------------------------------------------------------------------
  // Search

  /** The term (already lower-cased) occurs in the entry's date, description,
      debit account or credit account. */
  predicate EntryMatches(e: LedgerEntry, term: string) {
    Contains(term, Lower(e.date)) || Contains(term, Lower(e.description))
    || Contains(term, Lower(e.debit)) || Contains(term, Lower(e.credit))
  }

  /** The matching entries, in ledger order, each exactly as it stands in the
      ledger (its balance is the one computed over the whole ledger). */
  function MatchingEntries(l: seq<LedgerEntry>, term: string): (r: seq<LedgerEntry>)
    ensures |r| <= |l|
    ensures forall e :: e in r <==> e in l && EntryMatches(e, term)
  {
    if l == [] then []
    else
      var rest := MatchingEntries(l[..|l| - 1], term);
      var last := l[|l| - 1];
      assert l == l[..|l| - 1] + [last];
      if EntryMatches(last, term) then rest + [last] else rest
  }

  lemma {:induction false} MatchingEntriesSubseq(l: seq<LedgerEntry>, term: string)
    ensures Subseq(MatchingEntries(l, term), l)
  {
    if l != [] {
      var init, last := l[..|l| - 1], l[|l| - 1];
      MatchingEntriesSubseq(init, term);
      assert l == init + [last];
      SubseqExtend(MatchingEntries(init, term), init, last, EntryMatches(last, term));
    }
  }

  /** Every copy of a matching entry is kept: an entry occurring k times in
      the ledger is returned k times when it matches, and never otherwise. */
  lemma {:induction false} MatchingEntriesCount(l: seq<LedgerEntry>, term: string)
    ensures forall e :: multiset(MatchingEntries(l, term))[e]
                        == if EntryMatches(e, term) then multiset(l)[e] else 0
  {
    if l != [] {
      MatchingEntriesCount(l[..|l| - 1], term);
      assert l == l[..|l| - 1] + [l[|l| - 1]];
    }
  }

  // ---------------------------------------------------------------------
  // The ledger object

  class GeneralLedger {
    var ledgerEntries: seq<LedgerEntry>

    constructor (store: Store, parse: AmountParser)
      ensures ledgerEntries == LedgerOf(store, parse)
    {
      ledgerEntries := [];
      new;
      LoadLedgerEntries(store, parse);
    }

    /** Rebuilds the entries from the store, keeping the running balance as
        it goes. */
    method LoadLedgerEntries(store: Store, parse: AmountParser)
      modifies this
      ensures ledgerEntries == LedgerOf(store, parse)
    {
      ledgerEntries := [];
      var runningBalance := 0;
      if store.Absent? {
        return;
      }
      var rows := store.rows;
      var i := 0;
      while i < |rows|
        invariant 0 <= i <= |rows|
        invariant ledgerEntries + LedgerFrom(rows[i..], runningBalance, parse) == LedgerFrom(rows, 0, parse)
      {
        var row := rows[i];
        LedgerFromStep(rows, i, runningBalance, parse);
        if HasAllColumns(row) {
          var amount := AmountOrZero(row, parse);
          runningBalance := runningBalance + amount;
          ledgerEntries := ledgerEntries + [LedgerEntry(row["Date"], row["Description"], row["Debit"], row["Credit"], amount, runningBalance)];
        }
        i := i + 1;
      }
      assert rows[|rows|..] == [];
    }

    /** An empty term returns every entry; otherwise the entries matching the
        lower-cased term. */
    method SearchEntries(term: string) returns (found: seq<LedgerEntry>)
      ensures term == "" ==> found == ledgerEntries
      ensures term != "" ==> found == MatchingEntries(ledgerEntries, Lower(term))
    {
      if term == "" {
        return ledgerEntries;
      }
      var needle := Lower(term);
      var l := ledgerEntries;
      found := [];
      var i := 0;
      while i < |l|
        invariant 0 <= i <= |l|
        invariant found == MatchingEntries(l[..i], needle)
      {
        assert l[..i + 1][..i] == l[..i];
        if EntryMatches(l[i], needle) {
          found := found + [l[i]];
        }
        i := i + 1;
      }
      assert l[..|l|] == l;
    }

    /** The sum of the amounts and the balance after the last entry; an empty
        list stands for the whole ledger. */
    method GetTotals(entries: seq<LedgerEntry>) returns (totalAmount: int, lastBalance: int)
      ensures entries != [] ==> totalAmount == AmountTotal(entries) && lastBalance == LastBalance(entries)
      ensures entries == [] ==> totalAmount == AmountTotal(ledgerEntries) && lastBalance == LastBalance(ledgerEntries)
    {
      var l := if entries != [] then entries else ledgerEntries;
      totalAmount, lastBalance := 0, 0;
      var i := 0;
      while i < |l|
        invariant 0 <= i <= |l|
        invariant totalAmount == AmountTotal(l[..i])
        invariant lastBalance == LastBalance(l[..i])
      {
        assert l[..i + 1][..i] == l[..i];
        totalAmount := totalAmount + l[i].amount;
        lastBalance := l[i].balance;
        i := i + 1;
      }
      assert l[..|l|] == l;
    }
  }
}
