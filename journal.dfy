/** The general journal: every complete transaction row becomes a debit line
    followed by a credit line; the journal can be searched pair by pair,
    filtered by a date window, and totalled per side. */
module Journal {
  import opened Common

  /** One journal line.  All cells are text, as read from the store. */
  datatype JournalEntry = JournalEntry(date: string, description: string, account: string, debit: string, credit: string)

  /** The first line of a transaction: dated, on the debit account, amount in the Debit cell. */
  function DebitLine(row: Row): (e: JournalEntry)
    requires HasAllColumns(row)
    ensures e.date == row["Date"] && e.description == row["Description"]
    ensures e.account == row["Debit"] && e.debit == row["Amount"] && e.credit == ""
  {
    JournalEntry(row["Date"], row["Description"], row["Debit"], row["Amount"], "")
  }

  /** The second line: undated, on the credit account, amount in the Credit cell. */
  function CreditLine(row: Row): (e: JournalEntry)
    requires HasAllColumns(row)
    ensures e.date == "" && e.description == ""
    ensures e.account == row["Credit"] && e.debit == "" && e.credit == row["Amount"]
  {
    JournalEntry("", "", row["Credit"], "", row["Amount"])
  }

  /** The journal the store's rows yield: two lines per complete row, in row
      order; rows lacking a column contribute nothing. */
  function JournalOf(rows: seq<Row>): seq<JournalEntry> {
    if rows == [] then []
    else if HasAllColumns(rows[0]) then [DebitLine(rows[0]), CreditLine(rows[0])] + JournalOf(rows[1..])
    else JournalOf(rows[1..])
  }

  /** Line 2k of the journal is the debit line of the k-th complete row and
      line 2k+1 its credit line. */
  lemma {:induction false} JournalShape(rows: seq<Row>)
    ensures |JournalOf(rows)| == 2 * |CompleteRows(rows)|
    ensures forall k :: 0 <= k < |CompleteRows(rows)| ==>
              JournalOf(rows)[2 * k] == DebitLine(CompleteRows(rows)[k])
              && JournalOf(rows)[2 * k + 1] == CreditLine(CompleteRows(rows)[k])
  {
    if rows != [] {
      JournalShape(rows[1..]);
      if HasAllColumns(rows[0]) {
        var cs, tail := CompleteRows(rows), CompleteRows(rows[1..]);
        var j, rest := JournalOf(rows), JournalOf(rows[1..]);
        assert cs == [rows[0]] + tail;
        assert j == [DebitLine(rows[0]), CreditLine(rows[0])] + rest;
        forall k | 0 <= k < |cs|
          ensures j[2 * k] == DebitLine(cs[k]) && j[2 * k + 1] == CreditLine(cs[k])
        {
          if k > 0 {
            assert cs[k] == tail[k - 1];
            assert j[2 * k] == rest[2 * (k - 1)];
            assert j[2 * k + 1] == rest[2 * (k - 1) + 1];
          }
        }
      }
    }
  }

  lemma {:induction false} JournalOfAppend(a: seq<Row>, b: seq<Row>)
    ensures JournalOf(a + b) == JournalOf(a) + JournalOf(b)
  {
    if a == [] {
      assert a + b == b;
    } else {
      assert (a + b)[0] == a[0];
      assert (a + b)[1..] == a[1..] + b;
      JournalOfAppend(a[1..], b);
    }
  }

  // ---------------------------------------------------------------------
  // Pair-aware search

  /** A transaction matches when the (already lower-cased) term occurs in the
      first line's date, description or account, or in the second line's
      account when there is a second line. */
  predicate PairMatches(first: JournalEntry, second: Option<JournalEntry>, term: string) {
    Contains(term, Lower(first.date))
    || Contains(term, Lower(first.description))
    || Contains(term, Lower(first.account))
    || (second.Some? && Contains(term, Lower(second.value.account)))
  }

  /** A line that opens a transaction: its date and description are both non-empty. */
  predicate Opens(e: JournalEntry) {
    e.date != "" && e.description != ""
  }

  /** The line after the first one, if any. */
  function Second(es: seq<JournalEntry>): (r: Option<JournalEntry>)
    ensures r.Some? <==> |es| >= 2
    ensures r.Some? ==> r.value == es[1]
  {
    if |es| >= 2 then Some(es[1]) else None
  }

  /** What follows the transaction that opens `es`: everything after its two lines. */
  function AfterPair(es: seq<JournalEntry>): (r: seq<JournalEntry>)
    ensures |es| >= 2 ==> r == es[2..]
    ensures |es| < 2 ==> r == []
  {
    if |es| >= 2 then es[2..] else []
  }

  /** The search as the cursor walks the lines: a line that opens a
      transaction is taken with the line after it, both or neither, and the
      cursor moves past both; any other line is passed over alone. */
  function PairSearch(es: seq<JournalEntry>, term: string): seq<JournalEntry>
    decreases |es|
  {
    if es == [] then []
    else if Opens(es[0]) then
      var second := Second(es);
      var taken := if PairMatches(es[0], second, term) then [es[0]] + (if second.Some? then [second.value] else []) else [];
      taken + PairSearch(AfterPair(es), term)
    else PairSearch(es[1..], term)
  }

  /** The search keeps lines in journal order and invents none. */
  lemma {:induction false} PairSearchSubseq(es: seq<JournalEntry>, term: string)
    ensures Subseq(PairSearch(es, term), es)
    decreases |es|
  {
    if es != [] {
      if Opens(es[0]) {
        PairSearchSubseq(AfterPair(es), term);
        var rest := PairSearch(AfterPair(es), term);
        if |es| >= 2 {
          SubseqCons(rest, es[2..], es[1]);
          assert [es[1]] + es[2..] == es[1..];
          if PairMatches(es[0], Second(es), term) {
            assert ([es[0], es[1]] + rest)[1..] == [es[1]] + rest;
            assert ([es[1]] + rest)[1..] == rest;
          } else {
            assert PairSearch(es, term) == [] + rest == rest;
            SubseqCons(rest, es[1..], es[0]);
            assert [es[0]] + es[1..] == es;
          }
        } else {
          assert rest == [];
          assert es[1..] == [];
          if PairMatches(es[0], Second(es), term) {
            assert PairSearch(es, term) == [es[0]];
            assert [es[0]][1..] == [];
          }
        }
      } else {
        PairSearchSubseq(es[1..], term);
        SubseqCons(PairSearch(es[1..], term), es[1..], es[0]);
        assert [es[0]] + es[1..] == es;
      }
    }
  }

  /** A row whose transaction a search for `term` returns: a complete row
      with a date and a description, whose date, description, debit account
      or credit account contains the term. */
  predicate RowSelected(row: Row, term: string) {
    HasAllColumns(row) && row["Date"] != "" && row["Description"] != ""
    && (Contains(term, Lower(row["Date"])) || Contains(term, Lower(row["Description"]))
        || Contains(term, Lower(row["Debit"])) || Contains(term, Lower(row["Credit"])))
  }

  /** The selected rows, in store order. */
  function SearchedRows(rows: seq<Row>, term: string): (r: seq<Row>)
    ensures Subseq(r, rows)
    ensures forall row :: row in r <==>
              row in rows && RowSelected(row, term)
  {
    if rows == [] then []
    else
      var row := rows[0];
      var rest := SearchedRows(rows[1..], term);
      SubseqCons(rest, rows[1..], row);
      assert [row] + rows[1..] == rows;
      if RowSelected(row, term) then
        assert ([row] + rest)[1..] == rest;
        [row] + rest
      else rest
  }

  /** Every copy of a selected row is kept: a row selected k times over in
      the store is returned k times, and an unselected row never. */
  lemma {:induction false} SearchedRowsCount(rows: seq<Row>, term: string)
    ensures forall row :: multiset(SearchedRows(rows, term))[row]
                          == if RowSelected(row, term) then multiset(rows)[row] else 0
  {
    if rows != [] {
      SearchedRowsCount(rows[1..], term);
      assert rows == [rows[0]] + rows[1..];
    }
  }

  /** On a loaded journal the search returns whole transactions: exactly the
      two lines of every row whose date, description, debit or credit account
      contains the term, in store order.  A row with an empty date or
      description is never returned. */
  lemma {:induction false} SearchOfLoadedJournal(rows: seq<Row>, term: string)
    ensures PairSearch(JournalOf(rows), term) == JournalOf(SearchedRows(rows, term))
  {
    if rows != [] {
      SearchOfLoadedJournal(rows[1..], term);
      var row := rows[0];
      if HasAllColumns(row) {
        var es := JournalOf(rows);
        assert es[0] == DebitLine(row) && es[1] == CreditLine(row);
        assert AfterPair(es) == JournalOf(rows[1..]);
        if !Opens(es[0]) {
          assert es[1..] == [CreditLine(row)] + JournalOf(rows[1..]);
          assert es[1..][1..] == JournalOf(rows[1..]);
        }
      }
    }
  }

  /** Where the cursor stands: the lines not yet looked at. */
  function Remaining(es: seq<JournalEntry>, i: nat): seq<JournalEntry> {
    if i <= |es| then es[i..] else []
  }

  // ---------------------------------------------------------------------
  // Date window

  /** Every dated line's date parses. */
  predicate DatesParse(es: seq<JournalEntry>, parseDate: DateParser) {
    forall i :: 0 <= i < |es| && es[i].date != "" ==> parseDate(es[i].date).Some?
  }

  predicate Within(e: JournalEntry, start: Date, end: Date, parseDate: DateParser) {
    e.date != "" && parseDate(e.date).Some? && DateLe(start, parseDate(e.date).value) && DateLe(parseDate(e.date).value, end)
  }

  /** The dated lines whose date lies in [start, end], in journal order. */
  function DatedWithin(es: seq<JournalEntry>, start: Date, end: Date, parseDate: DateParser): (r: seq<JournalEntry>)
    ensures Subseq(r, es)
    ensures forall e :: e in r <==> e in es && Within(e, start, end, parseDate)
  {
    if es == [] then []
    else
      var rest := DatedWithin(es[1..], start, end, parseDate);
      SubseqCons(rest, es[1..], es[0]);
      assert [es[0]] + es[1..] == es;
      if Within(es[0], start, end, parseDate) then
        assert ([es[0]] + rest)[1..] == rest;
        [es[0]] + rest
      else rest
  }

  lemma {:induction false} DatedWithinAppend(a: seq<JournalEntry>, e: JournalEntry, start: Date, end: Date, parseDate: DateParser)
    ensures DatedWithin(a + [e], start, end, parseDate)
            == DatedWithin(a, start, end, parseDate) + (if Within(e, start, end, parseDate) then [e] else [])
  {
    if a == [] {
      assert a + [e] == [e];
      assert [e][1..] == [];
    } else {
      assert (a + [e])[0] == a[0];
      assert (a + [e])[1..] == a[1..] + [e];
      DatedWithinAppend(a[1..], e, start, end, parseDate);
    }
  }

  /** On a loaded journal the date window holds debit lines only: a credit
      line carries no date. */
  lemma {:induction false} WindowHoldsDebitLines(rows: seq<Row>, start: Date, end: Date, parseDate: DateParser)
    ensures forall e :: e in DatedWithin(JournalOf(rows), start, end, parseDate) ==>
              exists row :: row in rows && HasAllColumns(row) && e == DebitLine(row)
  {
    if rows != [] {
      WindowHoldsDebitLines(rows[1..], start, end, parseDate);
      var j := JournalOf(rows);
      forall e | e in DatedWithin(j, start, end, parseDate)
        ensures exists row :: row in rows && HasAllColumns(row) && e == DebitLine(row)
      {
        if HasAllColumns(rows[0]) && e in [DebitLine(rows[0]), CreditLine(rows[0])] {
          assert e == DebitLine(rows[0]);
        } else {
          assert e in JournalOf(rows[1..]);
          assert e in DatedWithin(JournalOf(rows[1..]), start, end, parseDate);
          var row :| row in rows[1..] && HasAllColumns(row) && e == DebitLine(row);
          assert row in rows;
        }
      }
    }
  }

  // ---------------------------------------------------------------------
  // Totals

  /** What a cell adds to a total: its amount when it is non-empty and
      parses, otherwise nothing. */
  function CellValue(cell: string, parse: AmountParser): (v: int)
    ensures cell == "" ==> v == 0
    ensures cell != "" && parse(cell).Some? ==> v == parse(cell).value
    ensures cell != "" && parse(cell).None? ==> v == 0
  {
    if cell == "" then 0
    else match parse(cell)
      case Some(amount) => amount
      case None => 0
  }

  function DebitTotal(es: seq<JournalEntry>, parse: AmountParser): int {
    if es == [] then 0 else DebitTotal(es[..|es| - 1], parse) + CellValue(es[|es| - 1].debit, parse)
  }

  function CreditTotal(es: seq<JournalEntry>, parse: AmountParser): int {
    if es == [] then 0 else CreditTotal(es[..|es| - 1], parse) + CellValue(es[|es| - 1].credit, parse)
  }

  lemma {:induction false} TotalsAppend(a: seq<JournalEntry>, b: seq<JournalEntry>, parse: AmountParser)
    ensures DebitTotal(a + b, parse) == DebitTotal(a, parse) + DebitTotal(b, parse)
    ensures CreditTotal(a + b, parse) == CreditTotal(a, parse) + CreditTotal(b, parse)
    decreases |b|
  {
    if b == [] {
      assert a + b == a;
    } else {
      assert (a + b)[..|a + b| - 1] == a + b[..|b| - 1];
      TotalsAppend(a, b[..|b| - 1], parse);
    }
  }

  /** The journal balances: on the lines a store yields, the debit total
      equals the credit total, because each row's amount lands once in a
      Debit cell and once in a Credit cell. */
  lemma {:induction false} JournalBalances(rows: seq<Row>, parse: AmountParser)
    ensures DebitTotal(JournalOf(rows), parse) == CreditTotal(JournalOf(rows), parse)
  {
    if rows != [] {
      JournalBalances(rows[1..], parse);
      if HasAllColumns(rows[0]) {
        var pair := [DebitLine(rows[0]), CreditLine(rows[0])];
        var amount := CellValue(rows[0]["Amount"], parse);
        TotalsAppend(pair, JournalOf(rows[1..]), parse);
        assert pair[..1] == [DebitLine(rows[0])];
        assert [DebitLine(rows[0])][..0] == [];
        assert DebitTotal([DebitLine(rows[0])], parse) == amount;
        assert CreditTotal([DebitLine(rows[0])], parse) == 0;
        assert DebitTotal(pair, parse) == amount;
        assert CreditTotal(pair, parse) == amount;
      }
    }
  }

  // ---------------------------------------------------------------------
  // The journal object

  class GeneralJournal {
    var journalEntries: seq<JournalEntry>

    /** A new journal is loaded from the store straight away. */
    constructor (store: Store)
      ensures journalEntries == JournalOf(RowsOf(store))
    {
      journalEntries := [];
      new;
      LoadJournalEntries(store);
    }

    /** Rebuilds the lines from the store; a missing store leaves none. */
    method LoadJournalEntries(store: Store)
      modifies this
      ensures journalEntries == JournalOf(RowsOf(store))
    {
      journalEntries := [];
      if store.Absent? {
        return;
      }
      var rows := store.rows;
      var i := 0;
      while i < |rows|
        invariant 0 <= i <= |rows|
        invariant journalEntries == JournalOf(rows[..i])
      {
        JournalOfAppend(rows[..i], [rows[i]]);
        assert rows[..i + 1] == rows[..i] + [rows[i]];
        assert [rows[i]][1..] == [];
        var row := rows[i];
        if HasAllColumns(row) {
          journalEntries := journalEntries + [DebitLine(row)];
          journalEntries := journalEntries + [CreditLine(row)];
        }
        i := i + 1;
      }
      assert rows[..|rows|] == rows;
    }

    /** An empty term returns the journal as it is; otherwise the lower-cased
        term is looked for transaction by transaction. */
    method SearchJournalEntries(term: string) returns (found: seq<JournalEntry>)
      ensures term == "" ==> found == journalEntries
      ensures term != "" ==> found == PairSearch(journalEntries, Lower(term))
    {
      if term == "" {
        return journalEntries;
      }
      var needle := Lower(term);
      var es := journalEntries;
      found := [];
      var i := 0;
      while i < |es|
        invariant 0 <= i <= |es| + 1
        invariant found + PairSearch(Remaining(es, i), needle) == PairSearch(es, needle)
        decreases |es| - i
      {
        var first := es[i];
        var rest := es[i..];
        assert rest[0] == first;
        if Opens(first) {
          var second: Option<JournalEntry> := if i + 1 < |es| then Some(es[i + 1]) else None;
          assert second == Second(rest);
          if PairMatches(first, second, needle) {
            found := found + [first];
            if second.Some? {
              found := found + [second.value];
            }
          }
          assert AfterPair(rest) == Remaining(es, i + 2);
          i := i + 2;
        } else {
          assert rest[1..] == Remaining(es, i + 1);
          i := i + 1;
        }
      }
    }

    /** Dated lines inside [start, end]; nothing at all when a bound or any
        line's date fails to parse. */
    method GetJournalEntriesByDateRange(start: string, end: string, parseDate: DateParser)
      returns (found: seq<JournalEntry>)
      ensures parseDate(start).None? || parseDate(end).None? ==> found == []
      ensures parseDate(start).Some? && parseDate(end).Some? && !DatesParse(journalEntries, parseDate) ==> found == []
      ensures parseDate(start).Some? && parseDate(end).Some? && DatesParse(journalEntries, parseDate) ==>
                found == DatedWithin(journalEntries, parseDate(start).value, parseDate(end).value, parseDate)
    {
      var lo := parseDate(start);
      var hi := parseDate(end);
      if lo.None? || hi.None? {
        return [];
      }
      var es := journalEntries;
      found := [];
      var i := 0;
      while i < |es|
        invariant 0 <= i <= |es|
        invariant DatesParse(es[..i], parseDate)
        invariant found == DatedWithin(es[..i], lo.value, hi.value, parseDate)
      {
        var e := es[i];
        DatedWithinAppend(es[..i], e, lo.value, hi.value, parseDate);
        assert es[..i + 1] == es[..i] + [e];
        if e.date != "" {
          var d := parseDate(e.date);
          if d.None? {
            assert !DatesParse(es, parseDate);
            return [];
          }
          if DateLe(lo.value, d.value) && DateLe(d.value, hi.value) {
            found := found + [e];
          }
        }
        i := i + 1;
      }
      assert es[..|es|] == es;
    }

    /** Debit and credit totals, each over the non-empty cells that parse;
        with no lines given, over the whole journal. */
    method GetTotals(entries: Option<seq<JournalEntry>>, parse: AmountParser)
      returns (totalDebits: int, totalCredits: int)
      ensures entries.None? ==> totalDebits == DebitTotal(journalEntries, parse) && totalCredits == CreditTotal(journalEntries, parse)
      ensures entries.Some? ==> totalDebits == DebitTotal(entries.value, parse) && totalCredits == CreditTotal(entries.value, parse)
    {
      var es := if entries.None? then journalEntries else entries.value;
      totalDebits, totalCredits := 0, 0;
      var i := 0;
      while i < |es|
        invariant 0 <= i <= |es|
        invariant totalDebits == DebitTotal(es[..i], parse)
        invariant totalCredits == CreditTotal(es[..i], parse)
      {
        assert es[..i + 1][..i] == es[..i];
        var e := es[i];
        if e.debit != "" {
          match parse(e.debit)
          case Some(amount) => totalDebits := totalDebits + amount;
          case None =>
        }
        if e.credit != "" {
          match parse(e.credit)
          case Some(amount) => totalCredits := totalCredits + amount;
          case None =>
        }
        i := i + 1;
      }
      assert es[..|es|] == es;
    }
  }
}
