/** The transaction store: a CSV file of a header line and record lines.
    Adding a transaction validates it and then appends one record line;
    reading back turns each record line into a row keyed by the header and
    keeps the complete rows. */
module Records {
  import opened Common

  /** The five values a user enters for one transaction, as text. */
  datatype Transaction = Transaction(date: string, description: string, debit: string, credit: string, amount: string)

  /** Why a transaction was refused. */
  datatype AddError = MissingField | BadDate | BadAmount

  datatype Outcome = Saved | Rejected(reason: AddError)

  /** The record line written for a transaction, in column order. */
  function Fields(t: Transaction): (f: seq<string>)
    ensures |f| == |Columns|
  {
    [t.date, t.description, t.debit, t.credit, t.amount]
  }

  /** The row a transaction reads back as under the standard header. */
  function RecordRow(t: Transaction): (row: Row)
    ensures HasAllColumns(row)
    ensures row["Date"] == t.date && row["Description"] == t.description
    ensures row["Debit"] == t.debit && row["Credit"] == t.credit && row["Amount"] == t.amount
  {
    map["Date" := t.date, "Description" := t.description, "Debit" := t.debit, "Credit" := t.credit, "Amount" := t.amount]
  }

  /** Every one of the five values is non-empty. */
  predicate Filled(t: Transaction) {
    t.date != "" && t.description != "" && t.debit != "" && t.credit != "" && t.amount != ""
  }

  /** The checks run in order: every field non-empty, then the date, then the
      amount; the first that fails names the refusal.  Nothing else is
      checked: a negative amount, or a debit account equal to the credit
      account, passes. */
  function Validate(t: Transaction, parseDate: DateParser, parseAmount: AmountParser): (r: Option<AddError>)
    ensures r == Some(MissingField) <==> !Filled(t)
    ensures r == Some(BadDate) <==> Filled(t) && parseDate(t.date).None?
    ensures r == Some(BadAmount) <==> Filled(t) && parseDate(t.date).Some? && parseAmount(t.amount).None?
    ensures r == None <==> Filled(t) && parseDate(t.date).Some? && parseAmount(t.amount).Some?
  {
    if t.date == "" || t.description == "" || t.debit == "" || t.credit == "" || t.amount == "" then Some(MissingField)
    else if parseDate(t.date).None? then Some(BadDate)
    else if parseAmount(t.amount).None? then Some(BadAmount)
    else None
  }

  /** The row a record line reads as: each header name keyed to the value in
      the same position; surplus values are dropped, and a name repeated in
      the header keeps its last value. */
  function ZipRow(header: seq<string>, line: seq<string>): (row: Row)
    ensures forall k :: k in row <==> exists i :: 0 <= i < |header| && i < |line| && header[i] == k
    decreases |header|
  {
    if |header| == 0 || |line| == 0 then map[]
    else
      var n := if |header| < |line| then |header| else |line|;
      var init := ZipRow(header[..n - 1], line[..n - 1]);
      assert forall i :: 0 <= i < n - 1 ==> header[..n - 1][i] == header[i];
      init[header[n - 1] := line[n - 1]]
  }

  /** The value under each header name is the one in its position; when the
      name is repeated, the value of its last position with a value. */
  lemma {:induction false} ZipRowValues(header: seq<string>, line: seq<string>)
    ensures forall i :: 0 <= i < |header| && i < |line|
                        && (forall j :: i < j < |header| && j < |line| ==> header[j] != header[i]) ==>
              header[i] in ZipRow(header, line) && ZipRow(header, line)[header[i]] == line[i]
    decreases |header|
  {
    if |header| != 0 && |line| != 0 {
      var n := if |header| < |line| then |header| else |line|;
      var h, v := header[..n - 1], line[..n - 1];
      var init := ZipRow(h, v);
      assert ZipRow(header, line) == init[header[n - 1] := line[n - 1]];
      ZipRowValues(h, v);
      forall i | 0 <= i < n - 1 && (forall j :: i < j < |header| && j < |line| ==> header[j] != header[i])
        ensures header[i] in init && init[header[i]] == line[i]
      {
        LastFreeInPrefix(header, line, h, v, n, i);
      }
    }
  }

  /** A position free of later repeats stays so in the prefix `h` of length n - 1. */
  lemma LastFreeInPrefix(header: seq<string>, line: seq<string>, h: seq<string>, v: seq<string>, n: nat, i: nat)
    requires 0 < n <= |header| && n <= |line| && i < n - 1
    requires h == header[..n - 1] && v == line[..n - 1]
    requires forall j :: i < j < |header| && j < |line| ==> header[j] != header[i]
    ensures forall j :: i < j < |h| && j < |v| ==> h[j] != h[i]
    ensures h[i] == header[i] && v[i] == line[i]
  {
  }

  /** Under the standard header a five-value line reads back as the row of
      those five values. */
  lemma StandardRow(t: Transaction)
    ensures ZipRow(Columns, Fields(t)) == RecordRow(t)
  {
    var f := Fields(t);
    assert Columns[..4] == ["Date", "Description", "Debit", "Credit"] && f[..4] == f[..5][..4];
    assert Columns[..4][..3] == ["Date", "Description", "Debit"];
    assert Columns[..4][..3][..2] == ["Date", "Description"];
    assert Columns[..4][..3][..2][..1] == ["Date"];
    assert Columns[..4][..3][..2][..1][..0] == [];
    var r1 := ZipRow(["Date"], [t.date]);
    assert r1 == map["Date" := t.date];
    var r2 := ZipRow(["Date", "Description"], [t.date, t.description]);
    assert [t.date, t.description][..1] == [t.date];
    assert r2 == r1["Description" := t.description];
    var r3 := ZipRow(["Date", "Description", "Debit"], [t.date, t.description, t.debit]);
    assert [t.date, t.description, t.debit][..2] == [t.date, t.description];
    assert r3 == r2["Debit" := t.debit];
    var r4 := ZipRow(["Date", "Description", "Debit", "Credit"], [t.date, t.description, t.debit, t.credit]);
    assert [t.date, t.description, t.debit, t.credit][..3] == [t.date, t.description, t.debit];
    assert r4 == r3["Credit" := t.credit];
    assert f[..4] == [t.date, t.description, t.debit, t.credit];
    assert ZipRow(Columns, f) == r4["Amount" := t.amount];
  }

  /** All record lines, read as rows under the header, in file order. */
  function RowsFrom(header: seq<string>, records: seq<seq<string>>): (rows: seq<Row>)
    ensures |rows| == |records|
    ensures forall i :: 0 <= i < |records| ==> rows[i] == ZipRow(header, records[i])
  {
    seq(|records|, i requires 0 <= i < |records| => ZipRow(header, records[i]))
  }

  /** What is on disk: whether the file exists, its header line and its record lines. */
  datatype FileState = FileState(present: bool, header: seq<string>, records: seq<seq<string>>)

  /** The file as the other views read it. */
  function StoreOf(f: FileState): (s: Store)
    ensures s.Absent? <==> !f.present
  {
    if f.present then Present(RowsFrom(f.header, f.records)) else Absent
  }

  /** What reading back yields: nothing for a missing file, else the rows
      that carry all five columns. */
  function Transactions(f: FileState): (rows: seq<Row>)
    ensures !f.present ==> rows == []
  {
    CompleteRows(RowsOf(StoreOf(f)))
  }

  /** The start-up step: a missing file is created holding only the
      standard header line; an existing one is left alone. */
  function Initialised(f: FileState): (r: FileState)
    ensures f.present ==> r == f
    ensures !f.present ==> r.present && r.header == Columns && r.records == []
    ensures Transactions(r) == Transactions(f)
  {
    if f.present then f else FileState(true, Columns, [])
  }

  /** The file after an add.  A refused transaction leaves it as it was.  An
      accepted one appends exactly one record line; when the file was
      missing, appending creates it and that line becomes its header. */
  function AfterAdd(f: FileState, t: Transaction, parseDate: DateParser, parseAmount: AmountParser): (r: FileState)
    ensures Validate(t, parseDate, parseAmount).Some? ==> r == f
    ensures Validate(t, parseDate, parseAmount).None? && f.present ==>
              r.present && r.header == f.header && r.records == f.records + [Fields(t)]
    ensures Validate(t, parseDate, parseAmount).None? && !f.present ==>
              r.present && r.header == Fields(t) && r.records == []
  {
    if Validate(t, parseDate, parseAmount).Some? then f
    else if f.present then FileState(true, f.header, f.records + [Fields(t)])
    else FileState(true, Fields(t), [])
  }

  /** Under the standard header, one more record line reads back as one
      more transaction at the end. */
  lemma ReadBackAppend(records: seq<seq<string>>, t: Transaction)
    ensures CompleteRows(RowsFrom(Columns, records + [Fields(t)])) == CompleteRows(RowsFrom(Columns, records)) + [RecordRow(t)]
  {
    var before := RowsFrom(Columns, records);
    StandardRow(t);
    assert RowsFrom(Columns, records + [Fields(t)]) == before + [RecordRow(t)];
    CompleteRowsAppend(before, [RecordRow(t)]);
    assert CompleteRows([RecordRow(t)]) == [RecordRow(t)] by {
      assert [RecordRow(t)][1..] == [];
    }
  }

  /** Reading back after an accepted add under the standard header gives
      the earlier transactions followed by the new one. */
  lemma ReadBackAfterAdd(f: FileState, t: Transaction, parseDate: DateParser, parseAmount: AmountParser)
    requires f.present && f.header == Columns
    requires Validate(t, parseDate, parseAmount).None?
    ensures Transactions(AfterAdd(f, t, parseDate, parseAmount)) == Transactions(f) + [RecordRow(t)]
  {
    ReadBackAppend(f.records, t);
  }

  /** Adding is not idempotent: the same transaction added twice reads back twice. */
  lemma AddTwiceReadsBackTwice(f: FileState, t: Transaction, parseDate: DateParser, parseAmount: AmountParser)
    requires f.present && f.header == Columns
    requires Validate(t, parseDate, parseAmount).None?
    ensures Transactions(AfterAdd(AfterAdd(f, t, parseDate, parseAmount), t, parseDate, parseAmount))
            == Transactions(f) + [RecordRow(t), RecordRow(t)]
  {
    var once := f.records + [Fields(t)];
    assert AfterAdd(AfterAdd(f, t, parseDate, parseAmount), t, parseDate, parseAmount) == FileState(true, Columns, once + [Fields(t)]);
    ReadBackAppend(f.records, t);
    ReadBackAppend(once, t);
  }

  /** The first transaction added to a missing file becomes its header and
      so is not read back. */
  lemma AddToMissingFile(f: FileState, t: Transaction, parseDate: DateParser, parseAmount: AmountParser)
    requires !f.present
    ensures Transactions(AfterAdd(f, t, parseDate, parseAmount)) == []
  {
    var r := AfterAdd(f, t, parseDate, parseAmount);
    if Validate(t, parseDate, parseAmount).None? {
      assert RowsFrom(r.header, r.records) == [];
    }
  }

  // ---------------------------------------------------------------------
  // The file object

  class TransactionFile {
    var present: bool
    var header: seq<string>
    var records: seq<seq<string>>

    function State(): FileState
      reads this
    {
      FileState(present, header, records)
    }

    /** The file as found on disk. */
    constructor Open(onDisk: FileState)
      ensures State() == onDisk
    {
      present, header, records := onDisk.present, onDisk.header, onDisk.records;
    }

    /** Creates a missing file with the header line only. */
    method InitialiseIfAbsent()
      modifies this
      ensures State() == Initialised(old(State()))
    {
      if !present {
        present := true;
        header := Columns;
        records := [];
      }
    }

    /** Validates, then appends one record line; a refusal changes nothing
        and is handed back to the caller. */
    method AddTransaction(t: Transaction, parseDate: DateParser, parseAmount: AmountParser)
      returns (outcome: Outcome)
      modifies this
      ensures outcome == (if Validate(t, parseDate, parseAmount).Some? then Rejected(Validate(t, parseDate, parseAmount).value) else Saved)
      ensures State() == AfterAdd(old(State()), t, parseDate, parseAmount)
    {
      if t.date == "" || t.description == "" || t.debit == "" || t.credit == "" || t.amount == "" {
        return Rejected(MissingField);
      }
      if parseDate(t.date).None? {
        return Rejected(BadDate);
      }
      if parseAmount(t.amount).None? {
        return Rejected(BadAmount);
      }
      if present {
        records := records + [Fields(t)];
      } else {
        present := true;
        header := Fields(t);
        records := [];
      }
      return Saved;
    }

    /** The complete rows in file order; nothing when the file is missing. */
    method GetAllTransactions() returns (rows: seq<Row>)
      ensures rows == Transactions(State())
    {
      rows := [];
      if !present {
        return;
      }
      var all := RowsFrom(header, records);
      var i := 0;
      while i < |records|
        invariant 0 <= i <= |records|
        invariant rows == CompleteRows(all[..i])
      {
        var row := ZipRow(header, records[i]);
        CompleteRowsAppend(all[..i], [row]);
        assert all[..i + 1] == all[..i] + [row];
        assert [row][1..] == [];
        if HasAllColumns(row) {
          rows := rows + [row];
        }
        i := i + 1;
      }
      assert all[..|records|] == all;
    }
  }
}
