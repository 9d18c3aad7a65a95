/** Model of plugins/live-delphi-data-export/queryscale2dentry.js: one
    participant's latest answer in a 2D scale query, as an immutable record. */
module QueryScale2dEntry {
  import opened Base

  datatype Entry = Entry(userHash: string, x: real, y: real) {

    function GetUserHash(): string { userHash }

    function GetX(): real { x }

    function GetY(): real { y }

    /** `getRow`: the entry as a spreadsheet row `[userHash, x, y]`. */
    function GetRow(): (row: seq<Cell>)
      ensures |row| == 3
      ensures row[0] == Text(GetUserHash()) && row[1] == Number(GetX()) && row[2] == Number(GetY())
    {
      [Text(GetUserHash()), Number(GetX()), Number(GetY())]
    }
  }

  /** Reads an entry back from a row; the partner of `GetRow`. */
  function EntryOfRow(row: seq<Cell>): (e: Option<Entry>)
    ensures e.Some? ==> e.value.GetRow() == row
  {
    if |row| == 3 && row[0].Text? && row[1].Number? && row[2].Number?
    then Some(Entry(row[0].text, row[1].number, row[2].number))
    else None
  }

  /** The getters return what the record was built from, and the row reads
      back as the same entry. */
  lemma EntryRoundTrip(userHash: string, x: real, y: real)
    ensures Entry(userHash, x, y).GetUserHash() == userHash
    ensures Entry(userHash, x, y).GetX() == x && Entry(userHash, x, y).GetY() == y
    ensures EntryOfRow(Entry(userHash, x, y).GetRow()) == Some(Entry(userHash, x, y))
  {
  }
}

/** Model of plugins/live-delphi-data-export/queryscale2ddata.js: the list of
    entries of one query and its projection to spreadsheet rows. */
module QueryScale2dData {
  import opened Base
  import opened QueryScale2dEntry

  datatype Data = Data(entries: seq<Entry>) {

    function GetEntries(): seq<Entry> { entries }

    /** `getRows`: one row per entry, in entry order. */
    function GetRows(): (rows: seq<seq<Cell>>)
      ensures |rows| == |GetEntries()|
      ensures forall i :: 0 <= i < |rows| ==> rows[i] == GetEntries()[i].GetRow()
    {
      seq(|entries|, i requires 0 <= i < |entries| => entries[i].GetRow())
    }
  }

  /** The rows determine the entries: nothing is lost or reordered by `getRows`. */
  lemma {:induction false} RowsDetermineEntries(a: Data, b: Data)
    requires a.GetRows() == b.GetRows()
    ensures a.GetEntries() == b.GetEntries()
  {
    forall i | 0 <= i < |a.entries|
      ensures a.entries[i] == b.entries[i]
    {
      assert a.GetRows()[i] == b.GetRows()[i];
      assert EntryOfRow(a.entries[i].GetRow()) == Some(a.entries[i]);
      assert EntryOfRow(b.entries[i].GetRow()) == Some(b.entries[i]);
    }
  }
}

/** Model of plugins/live-delphi-analysis/queryscale2danalysis.js: the result
    of the quadrant analysis, as an immutable record. */
module QueryScale2dAnalysis {

  datatype Analysis = Analysis(answerCount: nat, answerGroupCounts: seq<nat>) {

    function GetAnswerCount(): nat { answerCount }

    function GetAnswerGroupCounts(): seq<nat> { answerGroupCounts }
  }

  /** Accessor check: the getters only read back the constructor arguments. */
  lemma AnalysisGetters(answerCount: nat, answerGroupCounts: seq<nat>)
    ensures Analysis(answerCount, answerGroupCounts).GetAnswerCount() == answerCount
    ensures Analysis(answerCount, answerGroupCounts).GetAnswerGroupCounts() == answerGroupCounts
  {
  }
}
