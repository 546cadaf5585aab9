/** The row-level reshaping of the two source tables: projection and
    rename, the snapshot and time-series selections, the inner merge on
    `Country` and the sorts by `ECI Rank 2018`. */
module Reshape {
  import opened Tables

  /** Stand-in for a floating-point cell of pandas; nothing here computes
      with it. */
  type Metric = real

  /** One row of the pandemic file as read: the columns the script keeps,
      and every other column of the file (dropped by the projection). */
  datatype PandemicRow = PandemicRow(
    isoCode: string, continent: string, location: string, date: string,
    totalCasesPerMillion: Metric, newCasesPerMillion: Metric,
    totalDeathsPerMillion: Metric, newDeathsPerMillion: Metric,
    others: map<string, Metric>)

  /** One row of the projected pandemic table, `location` renamed `Country`. */
  datatype CovidRecord = CovidRecord(
    isoCode: string, continent: string, country: string, date: string,
    totalCasesPerMillion: Metric, newCasesPerMillion: Metric,
    totalDeathsPerMillion: Metric, newDeathsPerMillion: Metric)

  /** One row of the economic-complexity file as read: the five columns the
      script keeps, and the other years' columns. */
  datatype EconRow = EconRow(
    country: string, eciRank: int, eci: Metric, coi: Metric, coiRank: int,
    others: map<string, Metric>)

  /** One row of the projected economic-complexity table. */
  datatype EconRecord = EconRecord(country: string, eciRank: int, eci: Metric, coi: Metric, coiRank: int)

  /** One row of the merge: the snapshot row followed by the economic
      table's `ECI Rank 2018` and `ECI 2018`. */
  datatype JoinedRecord = JoinedRecord(covid: CovidRecord, eciRank: int, eci: Metric)

  /** The date of the pandemic snapshot. */
  const LastDate: string := "2021-01-29"

  /** The countries of the time-series slice. */
  predicate IsTimeSeriesCountry(country: string)
  {
    country == "Greece" || country == "Ireland"
  }

  /** The kept columns of one pandemic row, `location` becoming `Country`. */
  function ProjectPandemicRow(p: PandemicRow): (c: CovidRecord)
  {
    CovidRecord(p.isoCode, p.continent, p.location, p.date,
                p.totalCasesPerMillion, p.newCasesPerMillion,
                p.totalDeathsPerMillion, p.newDeathsPerMillion)
  }

  /** Projection and rename of the pandemic table: one record per row, in
      row order, carrying the row's kept cells and no other. */
  function ProjectPandemic(rows: seq<PandemicRow>): (r: seq<CovidRecord>)
    ensures |r| == |rows|
    ensures forall i :: 0 <= i < |rows| ==>
      && r[i].country == rows[i].location && r[i].date == rows[i].date
      && r[i].isoCode == rows[i].isoCode && r[i].continent == rows[i].continent
      && r[i].totalCasesPerMillion == rows[i].totalCasesPerMillion
      && r[i].newCasesPerMillion == rows[i].newCasesPerMillion
      && r[i].totalDeathsPerMillion == rows[i].totalDeathsPerMillion
      && r[i].newDeathsPerMillion == rows[i].newDeathsPerMillion
  {
    if rows == [] then [] else [ProjectPandemicRow(rows[0])] + ProjectPandemic(rows[1..])
  }

  /** Projection of the economic table onto its five kept columns, row by row. */
  function ProjectEcon(rows: seq<EconRow>): (r: seq<EconRecord>)
    ensures |r| == |rows|
    ensures forall i :: 0 <= i < |rows| ==>
      r[i] == EconRecord(rows[i].country, rows[i].eciRank, rows[i].eci, rows[i].coi, rows[i].coiRank)
  {
    if rows == [] then []
    else [EconRecord(rows[0].country, rows[0].eciRank, rows[0].eci, rows[0].coi, rows[0].coiRank)]
         + ProjectEcon(rows[1..])
  }

  /** The snapshot table: exactly the rows dated `LastDate`, each as often
      as in the input. */
  function Snapshot(covid: seq<CovidRecord>): (r: seq<CovidRecord>)
    ensures forall x :: x in r ==> x.date == LastDate
    ensures forall x :: multiset(r)[x] == if x.date == LastDate then multiset(covid)[x] else 0
  {
    FilterMultiset(covid, (x: CovidRecord) => x.date == LastDate);
    Filter(covid, (x: CovidRecord) => x.date == LastDate)
  }

  /** The time-series slice: exactly the Greece and Ireland rows, on every
      date, each as often as in the input. */
  function TimeSeriesSlice(covid: seq<CovidRecord>): (r: seq<CovidRecord>)
    ensures forall x :: x in r ==> IsTimeSeriesCountry(x.country)
    ensures forall x :: multiset(r)[x] == if IsTimeSeriesCountry(x.country) then multiset(covid)[x] else 0
  {
    FilterMultiset(covid, (x: CovidRecord) => IsTimeSeriesCountry(x.country));
    Filter(covid, (x: CovidRecord) => IsTimeSeriesCountry(x.country))
  }

  /** The snapshot keeps the input's relative order. */
  lemma SnapshotKeepsOrder(a: seq<CovidRecord>, b: seq<CovidRecord>)
    ensures Snapshot(a + b) == Snapshot(a) + Snapshot(b)
  {
    FilterAppend(a, b, (x: CovidRecord) => x.date == LastDate);
  }

  /** The time-series slice keeps the input's relative order. */
  lemma TimeSeriesKeepsOrder(a: seq<CovidRecord>, b: seq<CovidRecord>)
    ensures TimeSeriesSlice(a + b) == TimeSeriesSlice(a) + TimeSeriesSlice(b)
  {
    FilterAppend(a, b, (x: CovidRecord) => IsTimeSeriesCountry(x.country));
  }

  /** Because of the rename, the slice on `Country` picks the very rows
      whose `location` is Greece or Ireland in the file as read. */
  lemma {:induction false} SliceFollowsLocation(rows: seq<PandemicRow>)
    ensures TimeSeriesSlice(ProjectPandemic(rows))
         == ProjectPandemic(Filter(rows, (p: PandemicRow) => IsTimeSeriesCountry(p.location)))
  {
    if rows != [] {
      SliceFollowsLocation(rows[1..]);
      assert ProjectPandemic(rows)[1..] == ProjectPandemic(rows[1..]);
    }
  }

  /** The economic table sorted ascending by `ECI Rank 2018`. */
  function SortEconByRank(econ: seq<EconRecord>): (r: seq<EconRecord>)
    ensures forall i, j :: 0 <= i < j < |r| ==> r[i].eciRank <= r[j].eciRank
    ensures multiset(r) == multiset(econ)
  {
    SortBy(econ, (e: EconRecord) => e.eciRank)
  }

  /** The merged row of snapshot row `c` and economic row `e`. */
  function Combine(c: CovidRecord, e: EconRecord): (j: JoinedRecord)
  {
    JoinedRecord(c, e.eciRank, e.eci)
  }

  /** The merged rows of one snapshot row: one per economic row of the same
      country, in the economic table's order. */
  function Matches(c: CovidRecord, econ: seq<EconRecord>): (r: seq<JoinedRecord>)
    ensures |r| <= |econ|
    ensures forall j :: j in r ==> j.covid == c
  {
    if econ == [] then []
    else if econ[0].country == c.country then [Combine(c, econ[0])] + Matches(c, econ[1..])
    else Matches(c, econ[1..])
  }

  /** The matches of `c` are exactly its combinations with the economic
      rows of its country. */
  lemma {:induction false} MatchesMembership(c: CovidRecord, econ: seq<EconRecord>)
    ensures forall j :: j in Matches(c, econ) <==> exists e :: e in econ && e.country == c.country && j == Combine(c, e)
  {
    if econ != [] {
      MatchesMembership(c, econ[1..]);
      assert forall e :: e in econ <==> e == econ[0] || e in econ[1..];
    }
  }

  /** `merge(on='Country')`, an inner join: the matches of each snapshot
      row in turn. This is the order pandas gives when no country repeats
      among the snapshot rows, as in a one-date snapshot; pandas before 2.2
      grouped repeated left keys together instead. */
  function InnerJoin(snapshot: seq<CovidRecord>, econ: seq<EconRecord>): (r: seq<JoinedRecord>)
    ensures forall j :: j in r ==> j.covid in snapshot
  {
    if snapshot == [] then [] else Matches(snapshot[0], econ) + InnerJoin(snapshot[1..], econ)
  }

  /** A row is in the merge exactly when it combines a snapshot row and an
      economic row of the same country. */
  lemma {:induction false} JoinMembership(snapshot: seq<CovidRecord>, econ: seq<EconRecord>)
    ensures forall j :: j in InnerJoin(snapshot, econ) <==>
      exists c, e :: c in snapshot && e in econ && c.country == e.country && j == Combine(c, e)
  {
    if snapshot != [] {
      JoinMembership(snapshot[1..], econ);
      MatchesMembership(snapshot[0], econ);
      assert forall c :: c in snapshot <==> c == snapshot[0] || c in snapshot[1..];
    }
  }

  /** Every merged row's country is in both tables, and its cells are those
      of a snapshot row and of an economic row. */
  lemma JoinedRowsComeFromBoth(snapshot: seq<CovidRecord>, econ: seq<EconRecord>, j: JoinedRecord)
    requires j in InnerJoin(snapshot, econ)
    ensures j.covid in snapshot
    ensures exists e :: e in econ && e.country == j.covid.country && e.eciRank == j.eciRank && e.eci == j.eci
  {
    JoinMembership(snapshot, econ);
  }

  /** A snapshot country that the economic table lacks gets no merged row. */
  lemma MissingCountryDropped(snapshot: seq<CovidRecord>, econ: seq<EconRecord>, country: string)
    requires forall e :: e in econ ==> e.country != country
    ensures forall j :: j in InnerJoin(snapshot, econ) ==> j.covid.country != country
  {
    JoinMembership(snapshot, econ);
  }

  /** The model's merge is taken row by row over the snapshot table (the
      pandas order whenever the snapshot's countries are distinct). */
  lemma {:induction false} JoinAppend(a: seq<CovidRecord>, b: seq<CovidRecord>, econ: seq<EconRecord>)
    ensures InnerJoin(a + b, econ) == InnerJoin(a, econ) + InnerJoin(b, econ)
  {
    if a == [] {
      assert a + b == b;
    } else {
      assert (a + b)[1..] == a[1..] + b;
      JoinAppend(a[1..], b, econ);
    }
  }

  /** Reordering the snapshot rows only reorders the merged rows: the
      result holds the same rows, each as often. */
  lemma {:induction false} JoinIgnoresSnapshotOrder(a: seq<CovidRecord>, b: seq<CovidRecord>, econ: seq<EconRecord>)
    requires multiset(a) == multiset(b)
    ensures multiset(InnerJoin(a, econ)) == multiset(InnerJoin(b, econ))
  {
    if a == [] {
      assert |b| == |multiset(b)| == 0;
    } else {
      var k := RemoveOccurrence(a, b);
      JoinIgnoresSnapshotOrder(a[1..], b[..k] + b[k + 1..], econ);
      JoinWithoutOne(b, k, econ);
    }
  }

  /** Taking row k out of the snapshot takes exactly its matches out of
      the merge. */
  lemma JoinWithoutOne(b: seq<CovidRecord>, k: nat, econ: seq<EconRecord>)
    requires k < |b|
    ensures multiset(InnerJoin(b, econ)) == multiset(Matches(b[k], econ)) + multiset(InnerJoin(b[..k] + b[k + 1..], econ))
  {
    var front, x, back := b[..k], b[k], b[k + 1..];
    var mx := Matches(x, econ);
    var jf, jb := InnerJoin(front, econ), InnerJoin(back, econ);
    assert InnerJoin(b, econ) == jf + (mx + jb) by {
      assert front + ([x] + back) == b;
      JoinAppend(front, [x] + back, econ);
      JoinAppend([x], back, econ);
      assert InnerJoin([x], econ) == mx + InnerJoin([], econ);
    }
    JoinAppend(front, back, econ);
    assert multiset(jf + (mx + jb)) == multiset(jf) + multiset(mx) + multiset(jb);
    assert multiset(jf + jb) == multiset(jf) + multiset(jb);
  }

  /** Where the first row of `a` sits in its permutation `b`, and that the
      remaining rows of the two still match. */
  lemma RemoveOccurrence<T>(a: seq<T>, b: seq<T>) returns (k: nat)
    requires a != [] && multiset(a) == multiset(b)
    ensures k < |b| && b[k] == a[0]
    ensures multiset(a[1..]) == multiset(b[..k] + b[k + 1..])
  {
    var x := a[0];
    assert x in multiset(b);
    k :| 0 <= k < |b| && b[k] == x;
    var front, back := b[..k], b[k + 1..];
    assert b == front + [x] + back;
    assert a == [x] + a[1..];
    assert multiset(front + back) == multiset(front) + multiset(back);
    assert multiset(a[1..]) == multiset(a) - multiset{x};
    assert multiset(front + back) == multiset(b) - multiset{x};
  }

  /** The set of merged rows depends only on which rows the two tables
      hold, not on their order or repetition. */
  lemma JoinDependsOnRowSets(a: seq<CovidRecord>, b: seq<CovidRecord>, ea: seq<EconRecord>, eb: seq<EconRecord>)
    requires forall c :: c in a <==> c in b
    requires forall e :: e in ea <==> e in eb
    ensures forall j :: j in InnerJoin(a, ea) <==> j in InnerJoin(b, eb)
  {
    JoinMembership(a, ea);
    JoinMembership(b, eb);
  }

  /** Whether the economic table has a row for `country`. */
  predicate HasCountry(econ: seq<EconRecord>, country: string)
  {
    exists e :: e in econ && e.country == country
  }

  /** No country occurs twice in the economic table. */
  predicate UniqueCountries(econ: seq<EconRecord>)
  {
    forall i, j :: 0 <= i < j < |econ| ==> econ[i].country != econ[j].country
  }

  lemma {:induction false} MatchesOfUniqueTable(c: CovidRecord, econ: seq<EconRecord>)
    requires UniqueCountries(econ)
    ensures |Matches(c, econ)| == if HasCountry(econ, c.country) then 1 else 0
  {
    if econ != [] {
      assert UniqueCountries(econ[1..]) by {
        forall i, j | 0 <= i < j < |econ| - 1 ensures econ[1..][i].country != econ[1..][j].country {
          assert econ[1..][i] == econ[i + 1] && econ[1..][j] == econ[j + 1];
        }
      }
      MatchesOfUniqueTable(c, econ[1..]);
      if econ[0].country == c.country {
        assert !HasCountry(econ[1..], c.country) by {
          forall e | e in econ[1..] ensures e.country != c.country {
            var k :| 0 <= k < |econ[1..]| && econ[1..][k] == e;
            assert econ[k + 1] == e;
          }
        }
      } else {
        assert HasCountry(econ, c.country) <==> HasCountry(econ[1..], c.country) by {
          assert forall e :: e in econ <==> e == econ[0] || e in econ[1..];
        }
      }
    }
  }

  /** With one economic row per country, the merge has exactly one row per
      snapshot row whose country the economic table knows. */
  lemma {:induction false} JoinSizeWithUniqueCountries(snapshot: seq<CovidRecord>, econ: seq<EconRecord>)
    requires UniqueCountries(econ)
    ensures |InnerJoin(snapshot, econ)| == |Filter(snapshot, (c: CovidRecord) => HasCountry(econ, c.country))|
  {
    if snapshot != [] {
      MatchesOfUniqueTable(snapshot[0], econ);
      JoinSizeWithUniqueCountries(snapshot[1..], econ);
    }
  }

  /** The merged table sorted ascending by `ECI Rank 2018`: ordered, and
      a permutation of the merge. */
  function SortJoinedByRank(joined: seq<JoinedRecord>): (r: seq<JoinedRecord>)
    ensures |r| == |joined|
    ensures forall i, j :: 0 <= i < j < |r| ==> r[i].eciRank <= r[j].eciRank
    ensures multiset(r) == multiset(joined)
  {
    SortBy(joined, (j: JoinedRecord) => j.eciRank)
  }
}
