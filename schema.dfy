/** Column lists of the script and the header-level effect of projecting,
    renaming and reindexing columns. */
module Schema {
  import opened Results
  import Tables

  /** Identifier columns kept from the pandemic table. */
  const CountriesColumns: seq<string> := ["iso_code", "continent", "location", "date"]

  /** Metric columns kept from the pandemic table. */
  const CovidColumns: seq<string> :=
    ["total_cases_per_million", "new_cases_per_million", "total_deaths_per_million", "new_deaths_per_million"]

  /** Columns kept from the economic-complexity table. */
  const EconColumns: seq<string> := ["Country", "ECI Rank 2018", "ECI 2018", "COI 2018", "COI Rank 2018"]

  /** Display order of the continents in the charts and the heat map. */
  const CategoryOrder: seq<string> := ["Oceania", "Asia", "Africa", "South America", "North America", "Europe"]

  /** The header of the pandemic table once projected and renamed. */
  const SnapshotHeader: seq<string> :=
    ["iso_code", "continent", "Country", "date"] + CovidColumns

  /** `df[wanted]`: the columns `wanted`, in that order, when every one of
      them is in `header`; otherwise the KeyError naming the missing ones. */
  function SelectColumns(header: seq<string>, wanted: seq<string>): (r: Result<seq<string>, seq<string>>)
    ensures r.Ok? <==> forall c :: c in wanted ==> c in header
    ensures r.Ok? ==> r.value == wanted
    ensures r.Err? ==> r.error != [] && forall c :: c in r.error <==> c in wanted && c !in header
  {
    var missing := Tables.Filter(wanted, c => c !in header);
    Tables.FilterMultiset(wanted, c => c !in header);
    if missing == [] then Ok(wanted) else Err(missing)
  }

  /** `rename(columns={from: to})`: every column called `from` is called
      `to`; a name that is not there is ignored, as pandas does. */
  function RenameColumn(header: seq<string>, from: string, to: string): (r: seq<string>)
    ensures |r| == |header|
    ensures forall i :: 0 <= i < |header| ==> r[i] == (if header[i] == from then to else header[i])
    ensures from !in header ==> r == header
    ensures from != to ==> from !in r
  {
    if header == [] then []
    else [if header[0] == from then to else header[0]] + RenameColumn(header[1..], from, to)
  }

  /** `reindex(order, axis="columns")` of one row of cells keyed by column
      name: exactly the columns of `order`, in that order, a column the row
      lacks filled with a missing value, and every other column dropped. */
  function Reindex<V>(cells: map<string, V>, order: seq<string>): (r: seq<Option<V>>)
    ensures |r| == |order|
    ensures forall i :: 0 <= i < |order| ==> r[i] == if order[i] in cells then Some(cells[order[i]]) else None
  {
    if order == [] then []
    else [if order[0] in cells then Some(cells[order[0]]) else None] + Reindex(cells, order[1..])
  }

  /** The cells of one cross-tabulation row put into the continents' display
      order: Oceania first and Europe last, a continent without a cell
      missing. */
  function ContinentOrder<V>(cells: map<string, V>): (r: seq<Option<V>>)
    ensures |r| == |CategoryOrder|
    ensures r[0] == if "Oceania" in cells then Some(cells["Oceania"]) else None
    ensures r[5] == if "Europe" in cells then Some(cells["Europe"]) else None
    ensures forall i :: 0 <= i < |r| ==> (r[i].Some? <==> CategoryOrder[i] in cells)
  {
    Reindex(cells, CategoryOrder)
  }

  /** A pandemic file that has every kept column yields exactly the
      snapshot header once the projection and the rename are applied; one
      that lacks any of them stops the script with a KeyError. */
  lemma {:induction false} PandemicHeader(header: seq<string>)
    ensures var sel := SelectColumns(header, CountriesColumns + CovidColumns);
            && (sel.Ok? <==> forall c :: c in CountriesColumns + CovidColumns ==> c in header)
            && (sel.Ok? ==> RenameColumn(sel.value, "location", "Country") == SnapshotHeader)
  {
    var sel := SelectColumns(header, CountriesColumns + CovidColumns);
    if sel.Ok? {
      var renamed := RenameColumn(sel.value, "location", "Country");
      assert |renamed| == |SnapshotHeader| == 8;
      forall i | 0 <= i < 8 ensures renamed[i] == SnapshotHeader[i] {
      }
    }
  }
}
