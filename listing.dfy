/** The listing parser: turns the rows of an exported call-recordings page into
    call records, in document order, skipping rows without an identifier.
    A row is an abstract value (the page's DOM is not modelled): each field holds
    what the DOM query yields, with the text already stripped of surrounding
    whitespace. */
module Listing {
  import opened Wrappers

  /** A cell that should carry a phone-number span: missing from the row, present
      without the span (the attribute access on the missing span raises), or
      present with the span's stripped text. */
  datatype Cell = Absent | NoNumberSpan | Number(text: string)

  /** One recording row: its `data-id` attribute, the date cell's text, the
      recording-extension cell, the "from" cell, and the fifth cell of the row
      (the callee). */
  datatype Row = Row(dataId: Option<string>, date: Option<string>, rec: Cell, from: Cell, fifth: Cell)

  /** One parsed call, with the fields the rest of the pipeline reads. */
  datatype CallRecord = CallRecord(
    dataId: string, dateTime: string, fromNumber: string, toNumber: string, userTag: string)

  const VIKKI_EXTENSION := "*200"
  const ASSISTANT_EXTENSION := "*201"

  /** The fixed extension-to-owner table, with an explicit default label. */
  function OwnerTag(recNumber: string): (tag: string)
    ensures tag == "Vikki" <==> recNumber == VIKKI_EXTENSION
    ensures tag == "Assistant" <==> recNumber == ASSISTANT_EXTENSION
    ensures tag == "UnknownUser" <==> recNumber != VIKKI_EXTENSION && recNumber != ASSISTANT_EXTENSION
  {
    if recNumber == VIKKI_EXTENSION then "Vikki"
    else if recNumber == ASSISTANT_EXTENSION then "Assistant"
    else "UnknownUser"
  }

  /** Python's `s.replace(" ", "")`. */
  function RemoveSpaces(s: string): (r: string)
    ensures ' ' !in r
    ensures |r| <= |s|
  {
    if s == [] then []
    else (if s[0] == ' ' then [] else [s[0]]) + RemoveSpaces(s[1..])
  }

  /** Removing spaces works character by character, so it distributes over concatenation. */
  lemma {:induction false} RemoveSpacesConcat(a: string, b: string)
    ensures RemoveSpaces(a + b) == RemoveSpaces(a) + RemoveSpaces(b)
  {
    if a == [] {
      assert a + b == b;
    } else {
      assert (a + b)[0] == a[0];
      assert (a + b)[1..] == a[1..] + b;
      RemoveSpacesConcat(a[1..], b);
    }
  }

  /** A number without spaces is left as it is, so removing spaces is idempotent. */
  lemma {:induction false} RemoveSpacesKeepsSpaceFree(s: string)
    requires ' ' !in s
    ensures RemoveSpaces(s) == s
  {
    if s != [] {
      assert ' ' !in s[1..] by {
        forall i | 0 <= i < |s[1..]| ensures s[1..][i] != ' ' {
          assert s[1..][i] == s[i + 1];
        }
      }
      RemoveSpacesKeepsSpaceFree(s[1..]);
    }
  }

  /** Every non-space character is kept: the result has exactly the input's
      characters other than ' ', with the same number of occurrences. */
  lemma {:induction false} RemoveSpacesKeepsOthers(s: string)
    ensures multiset(RemoveSpaces(s)) == multiset(s)[' ' := 0]
  {
    if s == [] {
    } else {
      RemoveSpacesKeepsOthers(s[1..]);
      assert s == [s[0]] + s[1..];
      assert multiset(s) == multiset([s[0]]) + multiset(s[1..]);
    }
  }

  /** The row carries a truthy `data-id` (present and non-empty). */
  predicate HasId(row: Row) {
    row.dataId.Some? && row.dataId.value != ""
  }

  /** Reading the row raises: a cell is present but has no phone-number span. */
  predicate Raises(row: Row) {
    row.rec.NoNumberSpan? || row.from.NoNumberSpan? || row.fifth.NoNumberSpan?
  }

  /** The number a cell yields, with "" for a missing cell. */
  function CellNumber(c: Cell): string
    requires !c.NoNumberSpan?
  {
    if c.Number? then c.text else ""
  }

  /** The record built from a row that has an identifier and does not raise. */
  function BuildRecord(row: Row): (r: CallRecord)
    requires HasId(row) && !Raises(row)
    ensures r.dataId == row.dataId.value && r.dataId != ""
    ensures r.dateTime == (if row.date.Some? then row.date.value else "")
    ensures row.from.Absent? ==> r.fromNumber == ""
    ensures row.fifth.Absent? ==> r.toNumber == ""
    ensures multiset(r.fromNumber) == multiset(CellNumber(row.from))[' ' := 0]
    ensures multiset(r.toNumber) == multiset(CellNumber(row.fifth))[' ' := 0]
    ensures ' ' !in r.fromNumber && ' ' !in r.toNumber
    ensures r.fromNumber == RemoveSpaces(CellNumber(row.from))
    ensures r.toNumber == RemoveSpaces(CellNumber(row.fifth))
    ensures row.rec.Absent? ==> r.userTag == "UnknownUser"
    ensures r.userTag == OwnerTag(CellNumber(row.rec))
  {
    RemoveSpacesKeepsOthers(CellNumber(row.from));
    RemoveSpacesKeepsOthers(CellNumber(row.fifth));
    CallRecord(
      row.dataId.value,
      row.date.GetOr(""),
      RemoveSpaces(CellNumber(row.from)),
      RemoveSpaces(CellNumber(row.fifth)),
      OwnerTag(CellNumber(row.rec)))
  }

  /** No row of the listing raises. */
  predicate NoneRaise(rows: seq<Row>) {
    forall k :: 0 <= k < |rows| ==> !Raises(rows[k])
  }

  /** The records of a listing none of whose rows raises: one per row with an
      identifier, in row order. */
  function Records(rows: seq<Row>): seq<CallRecord>
    requires NoneRaise(rows)
  {
    if rows == [] then []
    else
      var last := rows[|rows| - 1];
      Records(rows[..|rows| - 1]) + if HasId(last) then [BuildRecord(last)] else []
  }

  /** The number of rows with an identifier. */
  function CountWithId(rows: seq<Row>): nat {
    if rows == [] then 0
    else CountWithId(rows[..|rows| - 1]) + if HasId(rows[|rows| - 1]) then 1 else 0
  }

  /** Parsing a listing is parsing its two halves and concatenating the results:
      rows are never reordered and each row contributes on its own. */
  lemma {:induction false} RecordsConcat(a: seq<Row>, b: seq<Row>)
    requires NoneRaise(a) && NoneRaise(b)
    ensures NoneRaise(a + b)
    ensures Records(a + b) == Records(a) + Records(b)
  {
    assert NoneRaise(a + b) by {
      forall k | 0 <= k < |a + b| ensures !Raises((a + b)[k]) {
        if k < |a| { assert (a + b)[k] == a[k]; } else { assert (a + b)[k] == b[k - |a|]; }
      }
    }
    if b == [] {
      assert a + b == a;
    } else {
      var b' := b[..|b| - 1];
      assert (a + b)[..|a + b| - 1] == a + b';
      assert (a + b)[|a + b| - 1] == b[|b| - 1];
      RecordsConcat(a, b');
    }
  }

  /** A single row contributes exactly its record when it has an identifier, and nothing otherwise. */
  lemma RecordsOfOneRow(row: Row)
    requires !Raises(row)
    ensures Records([row]) == if HasId(row) then [BuildRecord(row)] else []
  {
    assert [row][..0] == [];
  }

  /** Exactly one record per row with an identifier. */
  lemma {:induction false} RecordsCount(rows: seq<Row>)
    requires NoneRaise(rows)
    ensures |Records(rows)| == CountWithId(rows)
  {
    if rows != [] {
      RecordsCount(rows[..|rows| - 1]);
    }
  }

  /** Every record comes from a row of the listing that has an identifier, so
      no record has an empty identifier and none has a space in its numbers. */
  lemma {:induction false} RecordsComeFromRows(rows: seq<Row>, i: nat)
    requires NoneRaise(rows)
    requires i < |Records(rows)|
    ensures exists k :: 0 <= k < |rows| && HasId(rows[k]) && Records(rows)[i] == BuildRecord(rows[k])
  {
    var n := |rows| - 1;
    var front := rows[..n];
    if i < |Records(front)| {
      RecordsComeFromRows(front, i);
      var k :| 0 <= k < |front| && HasId(front[k]) && Records(front)[i] == BuildRecord(front[k]);
      assert rows[k] == front[k];
    } else {
      assert HasId(rows[n]) && Records(rows)[i] == BuildRecord(rows[n]);
    }
  }

  /** Extending a prefix of the listing by one more row that does not raise. */
  lemma RecordsExtend(rows: seq<Row>, i: nat)
    requires i < |rows| && NoneRaise(rows[..i]) && !Raises(rows[i])
    ensures NoneRaise(rows[..i + 1])
    ensures Records(rows[..i + 1]) ==
      Records(rows[..i]) + if HasId(rows[i]) then [BuildRecord(rows[i])] else []
  {
    var p := rows[..i + 1];
    assert p[..i] == rows[..i];
    assert p[i] == rows[i];
    assert NoneRaise(p) by {
      forall k | 0 <= k < |p| ensures !Raises(p[k]) {
        if k < i { assert p[k] == rows[..i][k]; }
      }
    }
  }

  /** The parser: walks the rows in order, defaults each missing cell to "",
      strips spaces from both numbers, maps the extension to an owner tag and
      keeps the rows with an identifier. A present cell without its number
      span raises; the error carries the index of that row. */
  method ParseHtmlCalls(rows: seq<Row>) returns (result: Result<seq<CallRecord>, nat>)
    ensures result.Err? <==> !NoneRaise(rows)
    ensures result.Err? ==> result.error < |rows| && Raises(rows[result.error]) && NoneRaise(rows[..result.error])
    ensures result.Ok? ==> NoneRaise(rows) && result.value == Records(rows)
  {
    var calls: seq<CallRecord> := [];
    var i := 0;
    while i < |rows|
      invariant 0 <= i <= |rows|
      invariant NoneRaise(rows[..i])
      invariant calls == Records(rows[..i])
    {
      var row := rows[i];
      if Raises(row) {
        return Err(i);
      }
      var fullDate := row.date.GetOr("");
      var recNumber := if row.rec.Number? then row.rec.text else "";
      var fromNumber := if row.from.Number? then RemoveSpaces(row.from.text) else "";
      var toNumber := if row.fifth.Number? then RemoveSpaces(row.fifth.text) else "";
      var userTag := OwnerTag(recNumber);
      RecordsExtend(rows, i);
      if row.dataId.Some? && row.dataId.value != "" {
        var call := CallRecord(row.dataId.value, fullDate, fromNumber, toNumber, userTag);
        assert call == BuildRecord(row);
        calls := calls + [call];
      }
      i := i + 1;
    }
    assert rows[..i] == rows;
    return Ok(calls);
  }
}
