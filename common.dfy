/** Shared vocabulary of the bookkeeping engine: the rows read from the
    transaction store, the store itself, text matching as the views use it,
    calendar dates, and the parsers the engine calls but does not define. */
module Common {

  datatype Option<T> = None | Some(value: T)

  /** One data row of the transaction store, read by column name.  A column
      the row lacks is a key the map does not hold. */
  type Row = map<string, string>

  /** The store is either missing or holds its data rows in file order
      (the header row is not a data row). */
  datatype Store = Absent | Present(rows: seq<Row>)

  /** What every read path sees: a missing store reads as no rows. */
  function RowsOf(store: Store): (rows: seq<Row>)
    ensures store.Absent? ==> rows == []
  {
    if store.Present? then store.rows else []
  }

  /** The column names of the store, in file order. */
  const Columns: seq<string> := ["Date", "Description", "Debit", "Credit", "Amount"]

  /** A row that carries all five columns. */
  predicate HasAllColumns(row: Row) {
    "Date" in row && "Description" in row && "Debit" in row && "Credit" in row && "Amount" in row
  }

  /** `a` is `b` with some elements removed, the rest kept in order. */
  predicate Subseq<T(==)>(a: seq<T>, b: seq<T>)
    decreases |b|
  {
    a == [] || (b != [] && ((a[0] == b[0] && Subseq(a[1..], b[1..])) || Subseq(a, b[1..])))
  }

  /** The rows that carry all five columns, in their original order. */
  function CompleteRows(rows: seq<Row>): (r: seq<Row>)
    ensures forall i :: 0 <= i < |r| ==> HasAllColumns(r[i])
  {
    if rows == [] then []
    else if HasAllColumns(rows[0]) then [rows[0]] + CompleteRows(rows[1..])
    else CompleteRows(rows[1..])
  }

  /** The complete rows are the rows that carry all five columns, kept in
      their original order and nothing else. */
  lemma {:induction false} CompleteRowsShape(rows: seq<Row>)
    ensures |CompleteRows(rows)| <= |rows|
    ensures Subseq(CompleteRows(rows), rows)
    ensures forall row :: row in CompleteRows(rows) <==> row in rows && HasAllColumns(row)
  {
    if rows != [] {
      var rest := CompleteRows(rows[1..]);
      CompleteRowsShape(rows[1..]);
      assert [rows[0]] + rows[1..] == rows;
      SubseqCons(rest, rows[1..], rows[0]);
      if HasAllColumns(rows[0]) {
        assert ([rows[0]] + rest)[1..] == rest;
      }
    }
  }

  /** A subsequence of `b` stays one after putting `x` in front of `b`. */
  lemma SubseqCons<T>(a: seq<T>, b: seq<T>, x: T)
    requires Subseq(a, b)
    ensures Subseq(a, [x] + b)
  {
    assert ([x] + b)[1..] == b;
  }

  lemma {:induction false} CompleteRowsAppend(a: seq<Row>, b: seq<Row>)
    ensures CompleteRows(a + b) == CompleteRows(a) + CompleteRows(b)
  {
    if a == [] {
      assert a + b == b;
    } else {
      assert (a + b)[0] == a[0];
      assert (a + b)[1..] == a[1..] + b;
      CompleteRowsAppend(a[1..], b);
    }
  }

  /** A subsequence of `b` stays one of `b + [x]`, with or without `x` added at its end. */
  lemma {:induction false} SubseqExtend<T>(a: seq<T>, b: seq<T>, x: T, take: bool)
    requires Subseq(a, b)
    ensures Subseq(if take then a + [x] else a, b + [x])
    decreases |b|
  {
    if a == [] {
      if take {
        SubseqSingle(b, x);
        assert a + [x] == [x];
      }
    } else if a[0] == b[0] && Subseq(a[1..], b[1..]) {
      SubseqExtend(a[1..], b[1..], x, take);
      assert (b + [x])[1..] == b[1..] + [x];
      if take {
        assert (a + [x])[1..] == a[1..] + [x];
      }
    } else {
      SubseqExtend(a, b[1..], x, take);
      assert (b + [x])[1..] == b[1..] + [x];
    }
  }

  lemma {:induction false} SubseqSingle<T>(b: seq<T>, x: T)
    ensures Subseq([x], b + [x])
    decreases |b|
  {
    if b == [] {
      assert [x][1..] == [];
    } else {
      SubseqSingle(b[1..], x);
      assert (b + [x])[1..] == b[1..] + [x];
    }
  }

  /** Lower-case of one character; only the ASCII letters change. */
  function LowerChar(c: char): (l: char)
    ensures 'A' <= c <= 'Z' ==> 'a' <= l <= 'z' && l as int - c as int == 'a' as int - 'A' as int
    ensures !('A' <= c <= 'Z') ==> l == c
  {
    if 'A' <= c <= 'Z' then (c as int - 'A' as int + 'a' as int) as char else c
  }

  function Lower(s: string): (l: string)
    ensures |l| == |s|
    ensures forall i :: 0 <= i < |s| ==> l[i] == LowerChar(s[i])
  {
    seq(|s|, i requires 0 <= i < |s| => LowerChar(s[i]))
  }

  /** `needle` occurs somewhere in `hay` as a contiguous piece (the empty
      string occurs in every string). */
  predicate Contains(needle: string, hay: string)
    decreases |hay|
  {
    needle <= hay || (hay != [] && Contains(needle, hay[1..]))
  }

  /** `needle` sits in `hay` starting at position `i`. */
  predicate OccursAt(needle: string, hay: string, i: int) {
    0 <= i && i + |needle| <= |hay| && hay[i..i + |needle|] == needle
  }

  /** Contains is the usual substring test: some position holds the needle. */
  lemma {:induction false} ContainsAt(needle: string, hay: string)
    ensures Contains(needle, hay) <==> exists i :: OccursAt(needle, hay, i)
    decreases |hay|
  {
    if needle <= hay {
      assert OccursAt(needle, hay, 0);
    } else if hay == [] {
      assert forall i :: !OccursAt(needle, hay, i);
    } else {
      ContainsAt(needle, hay[1..]);
      if exists i :: OccursAt(needle, hay, i) {
        var i :| OccursAt(needle, hay, i);
        assert i != 0;
        assert OccursAt(needle, hay[1..], i - 1);
      }
      if Contains(needle, hay[1..]) {
        var j :| OccursAt(needle, hay[1..], j);
        assert hay[j + 1..j + 1 + |needle|] == hay[1..][j..j + |needle|];
        assert OccursAt(needle, hay, j + 1);
      }
    }
  }

  /** A calendar date, as the YYYY-MM-DD parser returns it. */
  datatype Date = Date(year: int, month: int, day: int)

  /** Chronological order on dates: by year, then month, then day. */
  predicate DateLe(a: Date, b: Date) {
    a.year < b.year
    || (a.year == b.year && (a.month < b.month || (a.month == b.month && a.day <= b.day)))
  }

  /** Reads an amount of money, in cents; None where the text is not a number. */
  type AmountParser = string -> Option<int>

  /** Reads a date written YYYY-MM-DD; None where the text is not one. */
  type DateParser = string -> Option<Date>
}
