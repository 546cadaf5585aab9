/** The script's top-level pipeline: the quarter-labelling loop, the column
    it writes into the merged table, and the sequence of reassignments that
    lead from the two files to the tables the aggregations start from. */
module Script {
  import opened Results
  import opened Quarters
  import opened Tables
  import opened Schema
  import opened Reshape

  /** The ways the pipeline stops: `df[cols]` with a missing column raises
      a KeyError; assigning a column of the wrong length raises a
      ValueError. */
  datatype ScriptError = KeyError(missing: seq<string>) | LengthMismatch(values: nat, index: nat)

  /** A merged row with its `Complexity_Quarter` cell. */
  datatype LabelledRecord = LabelledRecord(row: JoinedRecord, quarter: Quarter)

  /** The tables the script's aggregations start from. */
  datatype ScriptOutput = ScriptOutput(
    snapshot: seq<CovidRecord>,
    timeSeries: seq<CovidRecord>,
    econ: seq<EconRecord>,
    labelled: seq<LabelledRecord>)

  /** The quarter list: one label per merged row, in row order, each row's
      label decided by its own rank and the number of merged rows. The
      branches are the source's, over the true quotient `numRows / 4`. */
  method AssignQuarters(joined: seq<JoinedRecord>) returns (quarterLst: seq<Quarter>)
    ensures |quarterLst| == |joined|
    ensures forall i :: 0 <= i < |joined| ==> quarterLst[i] == QuarterOf(joined[i].eciRank, |joined|)
  {
    var numRows := |joined|;
    quarterLst := [];
    for i := 0 to |joined|
      invariant |quarterLst| == i
      invariant forall k :: 0 <= k < i ==> quarterLst[k] == QuarterOf(joined[k].eciRank, numRows)
    {
      var rank := joined[i].eciRank as real;
      if rank < (numRows as real) / 4.0 {
        quarterLst := quarterLst + [Q1];
      } else if rank >= (numRows as real) / 4.0 && rank < 2.0 * ((numRows as real) / 4.0) {
        quarterLst := quarterLst + [Q2];
      } else if rank >= 2.0 * ((numRows as real) / 4.0) && rank < 3.0 * ((numRows as real) / 4.0) {
        quarterLst := quarterLst + [Q3];
      } else {
        quarterLst := quarterLst + [Q4];
      }
    }
  }

  /** `df['Complexity_Quarter'] = values`: each row gets the value at its
      position; a list of another length is refused with a ValueError. */
  function AddQuarterColumn(rows: seq<JoinedRecord>, values: seq<Quarter>): (r: Result<seq<LabelledRecord>, ScriptError>)
    ensures r.Err? <==> |values| != |rows|
    ensures r.Err? ==> r.error == LengthMismatch(|values|, |rows|)
    ensures r.Ok? ==> |r.value| == |rows|
    ensures r.Ok? ==> forall i :: 0 <= i < |rows| ==> r.value[i].row == rows[i] && r.value[i].quarter == values[i]
  {
    if |values| != |rows| then Err(LengthMismatch(|values|, |rows|))
    else Ok(seq(|rows|, i requires 0 <= i < |rows| => LabelledRecord(rows[i], values[i])))
  }

  /** The merged rows underneath a labelled table, in order. */
  function RowsOf(labelled: seq<LabelledRecord>): (r: seq<JoinedRecord>)
    ensures |r| == |labelled|
    ensures forall i :: 0 <= i < |labelled| ==> r[i] == labelled[i].row
  {
    seq(|labelled|, i requires 0 <= i < |labelled| => labelled[i].row)
  }

  /** Along a table sorted by rank, the quarter labels never go back. */
  lemma SortedRanksGiveOrderedQuarters(joined: seq<JoinedRecord>)
    requires forall i, j :: 0 <= i < j < |joined| ==> joined[i].eciRank <= joined[j].eciRank
    ensures forall i, j :: 0 <= i < j < |joined| ==>
      QuarterOf(joined[i].eciRank, |joined|).Ordinal() <= QuarterOf(joined[j].eciRank, |joined|).Ordinal()
  {
    forall i, j | 0 <= i < j < |joined|
      ensures QuarterOf(joined[i].eciRank, |joined|).Ordinal() <= QuarterOf(joined[j].eciRank, |joined|).Ordinal()
    {
      QuarterMonotone(joined[i].eciRank, joined[j].eciRank, |joined|);
    }
  }

  /** The whole pipeline, one reassignment per step of the script. It stops
      with a KeyError exactly when a file lacks a kept column; otherwise it
      yields the snapshot, the time-series slice, the sorted economic table
      and the sorted merge with one quarter per row. */
  method RunScript(pandemicHeader: seq<string>, pandemic: seq<PandemicRow>,
                   econHeader: seq<string>, econRows: seq<EconRow>)
    returns (out: Result<ScriptOutput, ScriptError>)
    ensures out.Err? <==>
      (exists c :: c in CountriesColumns + CovidColumns && c !in pandemicHeader)
      || (exists c :: c in EconColumns && c !in econHeader)
    ensures out.Err? ==> out.error.KeyError? && out.error.missing != []
    ensures out.Ok? ==>
      var o := out.value;
      && o.snapshot == Snapshot(ProjectPandemic(pandemic))
      && o.timeSeries == TimeSeriesSlice(ProjectPandemic(pandemic))
      && (forall i, j :: 0 <= i < j < |o.econ| ==> o.econ[i].eciRank <= o.econ[j].eciRank)
      && multiset(o.econ) == multiset(ProjectEcon(econRows))
      && (forall i, j :: 0 <= i < j < |o.labelled| ==> o.labelled[i].row.eciRank <= o.labelled[j].row.eciRank)
      && multiset(RowsOf(o.labelled)) == multiset(InnerJoin(o.snapshot, o.econ))
      && (forall i :: 0 <= i < |o.labelled| ==> o.labelled[i].quarter == QuarterOf(o.labelled[i].row.eciRank, |o.labelled|))
      && (forall i, j :: 0 <= i < j < |o.labelled| ==> o.labelled[i].quarter.Ordinal() <= o.labelled[j].quarter.Ordinal())
  {
    var covidSel := SelectColumns(pandemicHeader, CountriesColumns + CovidColumns);
    if covidSel.Err? {
      var c :| c in covidSel.error;
      assert c in CountriesColumns + CovidColumns && c !in pandemicHeader;
      return Err(KeyError(covidSel.error));
    }
    var dtCovid := ProjectPandemic(pandemic);
    var econSel := SelectColumns(econHeader, EconColumns);
    if econSel.Err? {
      var c :| c in econSel.error;
      assert c in EconColumns && c !in econHeader;
      return Err(KeyError(econSel.error));
    }
    var dtComplEcon := ProjectEcon(econRows);
    dtComplEcon := SortEconByRank(dtComplEcon);
    var accDtCovid := Snapshot(dtCovid);
    var timeSeries := TimeSeriesSlice(dtCovid);
    var joined := InnerJoin(accDtCovid, dtComplEcon);
    joined := SortJoinedByRank(joined);
    var quarterLst := AssignQuarters(joined);
    var labelled := AddQuarterColumn(joined, quarterLst).value;
    SortedRanksGiveOrderedQuarters(joined);
    assert RowsOf(labelled) == joined;
    out := Ok(ScriptOutput(accDtCovid, timeSeries, dtComplEcon, labelled));
  }
}
