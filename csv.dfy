/** `parseCSV` (app.js:12-21): a comma-separated table with a header line.
    Cells are not quoted; every cell and header is trimmed. */
module Csv {
  import opened Text

  /** The cell at position `i`, or "" past the end of a short row. */
  function Cell(cols: seq<string>, i: nat): string {
    if i < |cols| then cols[i] else ""
  }

  /** The trimmed cells of one line. */
  function Cells(line: string): seq<string> {
    TrimAll(Split(line, ','))
  }

  /** The lines of the trimmed text; the first is the header line. */
  function Lines(text: string): (lines: seq<string>)
    ensures |lines| >= 1
  {
    Split(Trim(text), '\n')
  }

  function Headers(text: string): seq<string> {
    Cells(Lines(text)[0])
  }

  /** No later header has the same name as the one at position `i`, so its
      cell is the one the record keeps. */
  predicate LastOfName(headers: seq<string>, i: nat)
    requires i < |headers|
  {
    forall j :: i < j < |headers| ==> headers[j] != headers[i]
  }

  /** `obj` is the record of the row `cols` under `headers`: its keys are
      exactly the headers, and each header maps to the cell below its last
      occurrence ("" if the row is too short). */
  predicate IsRecord(obj: map<string, string>, headers: seq<string>, cols: seq<string>) {
    (forall i :: 0 <= i < |headers| ==> headers[i] in obj) &&
    (forall h :: h in obj ==> h in headers) &&
    (forall i :: 0 <= i < |headers| && LastOfName(headers, i) ==> obj[headers[i]] == Cell(cols, i))
  }

  /** Fills the record header by header: each header gets the cell in its
      column, or "" past the end of the row, and a later header with the
      same name overwrites an earlier one. */
  method FillRecord(headers: seq<string>, cols: seq<string>) returns (obj: map<string, string>)
    ensures IsRecord(obj, headers, cols)
  {
    obj := map[];
    for i := 0 to |headers|
      invariant forall k :: 0 <= k < i ==> headers[k] in obj
      invariant forall h :: h in obj ==> h in headers[..i]
      invariant forall k :: 0 <= k < i && (forall j :: k < j < i ==> headers[j] != headers[k]) ==>
                  obj[headers[k]] == Cell(cols, k)
    {
      obj := obj[headers[i] := Cell(cols, i)];
    }
    assert headers[..|headers|] == headers;
  }

  /** `parseCSV`: one record per line after the header line, that is, one
      per line break of the trimmed text. */
  method ParseCsv(text: string) returns (rows: seq<map<string, string>>)
    ensures |rows| == |Lines(text)| - 1 == Count(Trim(text), '\n')
    ensures forall k :: 0 <= k < |rows| ==> IsRecord(rows[k], Headers(text), Cells(Lines(text)[k + 1]))
  {
    var lines := Lines(text);
    var headers := Headers(text);
    rows := [];
    for k := 1 to |lines|
      invariant |rows| == k - 1
      invariant forall m :: 0 <= m < |rows| ==> IsRecord(rows[m], headers, Cells(lines[m + 1]))
    {
      var obj := FillRecord(headers, Cells(lines[k]));
      rows := rows + [obj];
    }
  }
}
