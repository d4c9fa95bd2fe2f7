/** The CSV export of transactions and a reader for it: `backend/src/listEndpoints.ts`,
    lines 547-570. The reader follows the grammar in section 2 of RFC 4180, with
    every character but the four special ones taken as text.
 */
module Csv {
  import opened Checked

  /** Attributes by name; None is null, and a missing name is undefined. */
  type Transaction = map<string, Option<string>>

  const COLUMNS: seq<string> :=
    ["id", "type", "status", "amount", "asset", "timestamp", "transactionHash", "walletAddress"]

  const CRLF := "\r\n"

  // ---- The printer ----

  function Doubled(s: string): string {
    if s == "" then ""
    else if s[0] == '"' then "\"\"" + Doubled(s[1..])
    else [s[0]] + Doubled(s[1..])
  }

  function Quote(s: string): string {
    "\"" + Doubled(s) + "\""
  }

  function Serialized(t: Transaction, column: string): string {
    if column in t && t[column].Some? then t[column].value else ""
  }

  function Join(parts: seq<string>): string {
    if parts == [] then ""
    else if |parts| == 1 then parts[0]
    else parts[0] + "," + Join(parts[1..])
  }

  function Row(t: Transaction): string {
    Join(seq(|COLUMNS|, i requires 0 <= i < |COLUMNS| => Quote(Serialized(t, COLUMNS[i]))))
  }

  function Rows(transactions: seq<Transaction>): string {
    if transactions == [] then "" else Row(transactions[0]) + CRLF + Rows(transactions[1..])
  }

  function Body(transactions: seq<Transaction>): string {
    Join(COLUMNS) + CRLF + Rows(transactions)
  }

  // ---- The reader ----

  type Parsed<T> = Option<(T, string)>

  predicate IsText(c: char) {
    c !in {'"', ',', '\r', '\n'}
  }

  /** The rest of a quoted field. */
  function ReadQuoted(t: string): (r: Parsed<string>)
    ensures r.Some? ==> |r.value.1| < |t|
  {
    if t == "" then None
    else if t[0] != '"' then
      var more := ReadQuoted(t[1..]);
      if more.None? then None else Some(([t[0]] + more.value.0, more.value.1))
    else if |t| > 1 && t[1] == '"' then
      var more := ReadQuoted(t[2..]);
      if more.None? then None else Some((['"'] + more.value.0, more.value.1))
    else Some(("", t[1..]))
  }

  function ReadBare(t: string): (r: (string, string))
    ensures |r.1| <= |t|
  {
    if t == "" || !IsText(t[0]) then ("", t)
    else
      var (s, rest) := ReadBare(t[1..]);
      ([t[0]] + s, rest)
  }

  function ReadField(t: string): (r: Parsed<string>)
    ensures r.Some? ==> |r.value.1| <= |t|
  {
    if t != "" && t[0] == '"' then ReadQuoted(t[1..]) else Some(ReadBare(t))
  }

  function ReadRecord(t: string): (r: Parsed<seq<string>>)
    ensures r.Some? ==> |r.value.1| <= |t|
    decreases |t|
  {
    var first := ReadField(t);
    if first.None? then None
    else
      var (field, rest) := first.value;
      if rest != "" && rest[0] == ',' then
        var more := ReadRecord(rest[1..]);
        if more.None? then None else Some(([field] + more.value.0, more.value.1))
      else Some(([field], rest))
  }

  /** Records separated by CRLF; the last one may end in CRLF too. */
  function ReadFile(t: string): Option<seq<seq<string>>>
    decreases |t|
  {
    var first := ReadRecord(t);
    if first.None? then None
    else
      var (record, rest) := first.value;
      if rest == "" || rest == CRLF then Some([record])
      else if |rest| > 2 && rest[..2] == CRLF then
        var more := ReadFile(rest[2..]);
        if more.None? then None else Some([record] + more.value)
      else None
  }

  // ---- Reading back ----

  /** What follows a field: a comma or the end of the line. */
  predicate EndsField(rest: string) {
    rest != "" && rest[0] in {',', '\r'}
  }

  lemma {:induction false} QuotedReadsBack(s: string, rest: string)
    requires EndsField(rest)
    ensures ReadQuoted(Doubled(s) + "\"" + rest) == Some((s, rest))
  {
    var t := Doubled(s) + "\"" + rest;
    if s == "" {
      assert t[1..] == rest;
    } else {
      QuotedReadsBack(s[1..], rest);
      var more := Doubled(s[1..]) + "\"" + rest;
      if s[0] == '"' {
        assert t == "\"\"" + more && t[2..] == more;
      } else {
        assert t == [s[0]] + more && t[1..] == more;
      }
      assert s == [s[0]] + s[1..];
    }
  }

  ghost predicate Plain(s: string) {
    forall c <- s :: IsText(c)
  }

  lemma {:induction false} BareReadsBack(s: string, rest: string)
    requires EndsField(rest) && Plain(s)
    ensures ReadBare(s + rest) == (s, rest)
  {
    if s == "" {
      assert s + rest == rest;
    } else {
      BareReadsBack(s[1..], rest);
      assert (s + rest)[1..] == s[1..] + rest && s == [s[0]] + s[1..];
    }
  }

  /** The cell is the value in quotes, or bare if nothing in it is special. */
  ghost predicate Writes(cell: string, value: string) {
    cell == Quote(value) || (cell == value && Plain(value))
  }

  lemma FieldReadsBack(cell: string, value: string, rest: string)
    requires EndsField(rest) && Writes(cell, value)
    ensures ReadField(cell + rest) == Some((value, rest))
  {
    if cell == Quote(value) {
      QuotedReadsBack(value, rest);
      assert cell + rest == "\"" + (Doubled(value) + "\"" + rest);
      assert (cell + rest)[1..] == Doubled(value) + "\"" + rest;
    } else {
      BareReadsBack(value, rest);
      if value == "" {
        assert cell + rest == rest;
      } else {
        assert value[0] in value && (cell + rest)[0] == value[0];
      }
    }
  }

  lemma {:induction false} RecordReadsBack(cells: seq<string>, values: seq<string>, rest: string)
    requires cells != [] && |cells| == |values| && CRLF <= rest
    requires forall i :: 0 <= i < |cells| ==> Writes(cells[i], values[i])
    ensures ReadRecord(Join(cells) + rest) == Some((values, rest))
  {
    hide ReadField, ReadRecord, Writes;
    if |cells| == 1 {
      FieldReadsBack(cells[0], values[0], rest);
      LastCell(cells[0] + rest, values[0], rest);
      assert values == [values[0]];
    } else {
      var more := Join(cells[1..]) + rest;
      FieldReadsBack(cells[0], values[0], "," + more);
      RecordReadsBack(cells[1..], values[1..], rest);
      NextCell(cells[0] + ("," + more), values[0], more, values[1..], rest);
      assert Join(cells) + rest == cells[0] + ("," + more) && values == [values[0]] + values[1..];
    }
  }

  lemma LastCell(t: string, value: string, rest: string)
    requires ReadField(t) == Some((value, rest)) && CRLF <= rest
    ensures ReadRecord(t) == Some(([value], rest))
  {
    hide ReadField;
  }

  lemma NextCell(t: string, value: string, more: string, values: seq<string>, rest: string)
    requires ReadField(t) == Some((value, "," + more)) && ReadRecord(more) == Some((values, rest))
    ensures ReadRecord(t) == Some(([value] + values, rest))
  {
    hide ReadField;
    assert ("," + more)[1..] == more;
  }

  /** The values of a row, in column order. */
  function Values(t: Transaction): seq<string> {
    seq(|COLUMNS|, i requires 0 <= i < |COLUMNS| => Serialized(t, COLUMNS[i]))
  }

  lemma RowReadsBack(t: Transaction, rest: string)
    requires CRLF <= rest
    ensures ReadRecord(Row(t) + rest) == Some((Values(t), rest))
  {
    hide ReadRecord, Quote;
    RecordReadsBack(
      seq(|COLUMNS|, i requires 0 <= i < |COLUMNS| => Quote(Serialized(t, COLUMNS[i]))), Values(t), rest);
  }

  lemma ColumnIsPlain(i: nat)
    requires i < |COLUMNS|
    ensures Plain(COLUMNS[i])
  {
  }

  lemma HeaderReadsBack(rest: string)
    requires CRLF <= rest
    ensures ReadRecord(Join(COLUMNS) + rest) == Some((COLUMNS, rest))
  {
    hide ReadRecord, Join, Quote, Plain;
    forall i | 0 <= i < |COLUMNS|
      ensures Writes(COLUMNS[i], COLUMNS[i])
    {
      ColumnIsPlain(i);
    }
    hide Writes;
    RecordReadsBack(COLUMNS, COLUMNS, rest);
  }

  function Table(transactions: seq<Transaction>): seq<seq<string>> {
    if transactions == [] then [] else [Values(transactions[0])] + Table(transactions[1..])
  }

  lemma {:induction false} TableAt(transactions: seq<Transaction>)
    ensures |Table(transactions)| == |transactions|
    ensures forall r :: 0 <= r < |transactions| ==> Table(transactions)[r] == Values(transactions[r])
  {
    if transactions != [] {
      TableAt(transactions[1..]);
    }
  }

  /** A line that reads back, and the lines after it. */
  lemma LineReadsBack(line: string, record: seq<string>, transactions: seq<Transaction>)
    requires ReadRecord(line + (CRLF + Rows(transactions))) == Some((record, CRLF + Rows(transactions)))
    requires transactions != [] ==> ReadFile(Rows(transactions)) == Some(Table(transactions))
    ensures ReadFile(line + CRLF + Rows(transactions)) == Some([record] + Table(transactions))
  {
    hide ReadRecord, Row;
    var rest := CRLF + Rows(transactions);
    assert line + CRLF + Rows(transactions) == line + rest;
    if transactions != [] {
      assert rest[..2] == CRLF && rest[2..] == Rows(transactions);
    } else {
      assert rest == CRLF && [record] + Table(transactions) == [record];
    }
  }

  lemma {:induction false} RowsReadBack(transactions: seq<Transaction>)
    requires transactions != []
    ensures ReadFile(Rows(transactions)) == Some(Table(transactions))
  {
    var more := transactions[1..];
    if more != [] {
      RowsReadBack(more);
    }
    RowReadsBack(transactions[0], CRLF + Rows(more));
    hide ReadFile, ReadRecord, Row;
    LineReadsBack(Row(transactions[0]), Values(transactions[0]), more);
  }

  /** The export determines what was exported: read by the RFC's grammar, it is the
      header and one record a transaction, and the cell under a column's name is
      that attribute, whatever commas, quotes and line breaks it holds. */
  lemma BodyReadsBack(transactions: seq<Transaction>)
    ensures var file := ReadFile(Body(transactions));
            && file.Some? && |file.value| == 1 + |transactions|
            && file.value[0] == COLUMNS
            && forall r, c :: 0 <= r < |transactions| && 0 <= c < |COLUMNS| ==>
                 |file.value[r + 1]| == |COLUMNS|
                 && file.value[r + 1][c] == Serialized(transactions[r], file.value[0][c])
  {
    if transactions != [] {
      RowsReadBack(transactions);
    }
    HeaderReadsBack(CRLF + Rows(transactions));
    TableAt(transactions);
    hide ReadFile, ReadRecord, Rows, Join, Table, Serialized;
    LineReadsBack(Join(COLUMNS), COLUMNS, transactions);
  }
}
