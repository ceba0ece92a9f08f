/**
 * The list screen's table data source: one section per raw altitude value,
 * each listing, in catalog order, the clouds whose range contains that altitude.
 * The functions take the screen's `model` list as a parameter; the screen
 * itself always uses `Catalog()`.
 */
module ListScreen {
  import opened Wrappers
  import opened CloudModel

  /** `model.filter { $0.altitudeRange.contains(altitude) }`. */
  function FilterByAltitude(model: seq<CloudRecord>, altitude: CloudAltitude): (r: seq<CloudRecord>)
    ensures |r| <= |model|
  {
    if model == [] then []
    else (if altitude in model[0].altitudeRange then [model[0]] else [])
         + FilterByAltitude(model[1..], altitude)
  }

  /** Soundness and completeness: the filter keeps exactly the records listing the altitude. */
  lemma {:induction false} FilterMembership(model: seq<CloudRecord>, altitude: CloudAltitude)
    ensures forall c :: c in FilterByAltitude(model, altitude) <==> c in model && altitude in c.altitudeRange
  {
    if model != [] {
      FilterMembership(model[1..], altitude);
      assert model == [model[0]] + model[1..];
    }
  }

  /** Filtering distributes over concatenation, so it keeps catalog order. */
  lemma {:induction false} FilterAppend(xs: seq<CloudRecord>, ys: seq<CloudRecord>, altitude: CloudAltitude)
    ensures FilterByAltitude(xs + ys, altitude) == FilterByAltitude(xs, altitude) + FilterByAltitude(ys, altitude)
  {
    if xs == [] {
      assert xs + ys == ys;
    } else {
      var keep := if altitude in xs[0].altitudeRange then [xs[0]] else [];
      assert (xs + ys)[0] == xs[0];
      assert (xs + ys)[1..] == xs[1..] + ys;
      FilterAppend(xs[1..], ys, altitude);
      calc {
        FilterByAltitude(xs + ys, altitude);
        keep + FilterByAltitude(xs[1..] + ys, altitude);
        keep + (FilterByAltitude(xs[1..], altitude) + FilterByAltitude(ys, altitude));
        (keep + FilterByAltitude(xs[1..], altitude)) + FilterByAltitude(ys, altitude);
      }
    }
  }

  /** A single record is kept exactly when its range contains the altitude. */
  lemma FilterSingle(c: CloudRecord, altitude: CloudAltitude)
    ensures FilterByAltitude([c], altitude) == if altitude in c.altitudeRange then [c] else []
  {
  }

  /** `sectionData(for:)`: `nil` unless the section is a raw altitude value. */
  function SectionData(model: seq<CloudRecord>, section: int): (r: Option<seq<CloudRecord>>)
    ensures r.None? <==> section < 0 || section > 3
    ensures r.Some? ==> forall c :: c in r.value <==> c in model && FromRaw(section).value in c.altitudeRange
  {
    match FromRaw(section)
    case Some(altitude) =>
      FilterMembership(model, altitude);
      Some(FilterByAltitude(model, altitude))
    case None => None
  }

  /** `numberOfSections(in:)`: the raw value of the sentinel, one section per real band. */
  function NumberOfSections(): (n: int)
    ensures n == 3
    ensures forall a :: 0 <= RawValue(a) < n <==> a != Count
  {
    RawValue(Count)
  }

  /** `tableView(_:numberOfRowsInSection:)`: the section's length, or 0 when it is `nil`. */
  function NumberOfRows(model: seq<CloudRecord>, section: int): (n: int)
    ensures 0 <= n <= |model|
    ensures n > 0 <==> (0 <= section <= 3 && exists c :: c in model && FromRaw(section).value in c.altitudeRange)
  {
    var cloudData := SectionData(model, section);
    if cloudData.Some? then
      var rows := cloudData.value;
      assert rows != [] ==> rows[0] in rows;
      |rows|
    else 0
  }

  /**
   * `rowData(for:)`: `nil` for a section that is not a raw value; otherwise the
   * row-th cloud of the section, which must exist since a subscript past the end traps.
   */
  function RowData(model: seq<CloudRecord>, section: int, row: int): (r: Option<CloudRecord>)
    requires 0 <= section <= 3 ==> 0 <= row < NumberOfRows(model, section)
    ensures r.None? <==> section < 0 || section > 3
    ensures r.Some? ==> r.value in model && FromRaw(section).value in r.value.altitudeRange
  {
    match SectionData(model, section)
    case Some(cloudData) => Some(cloudData[row])
    case None => None
  }

  /** Every cloud that lists a section's band is shown in some row of that section. */
  lemma EveryMatchingCloudHasARow(model: seq<CloudRecord>, section: int, c: CloudRecord)
    requires 0 <= section <= 3
    requires c in model && FromRaw(section).value in c.altitudeRange
    ensures exists row :: 0 <= row < NumberOfRows(model, section) && RowData(model, section, row) == Some(c)
  {
    var rows := SectionData(model, section).value;
    var row :| 0 <= row < |rows| && rows[row] == c;
    assert RowData(model, section, row) == Some(c);
  }

  /** The number of real bands a record lists (ignoring repeats and the sentinel). */
  function BandCount(c: CloudRecord): nat
  {
    (if Low in c.altitudeRange then 1 else 0)
    + (if Mid in c.altitudeRange then 1 else 0)
    + (if High in c.altitudeRange then 1 else 0)
  }

  /** The sum of `BandCount` over a list of records. */
  function TotalBands(model: seq<CloudRecord>): nat
  {
    if model == [] then 0 else BandCount(model[0]) + TotalBands(model[1..])
  }

  /** The rows of the three band sections, together, count each record once per band it lists. */
  lemma {:induction false} SectionRowsTotal(model: seq<CloudRecord>)
    ensures NumberOfRows(model, 0) + NumberOfRows(model, 1) + NumberOfRows(model, 2) == TotalBands(model)
  {
    if model != [] {
      SectionRowsTotal(model[1..]);
    }
  }

  /** In a well-formed catalog every record shows up in at least one section. */
  lemma {:induction false} ValidCatalogRowsCoverModel(model: seq<CloudRecord>)
    requires ValidCatalog(model)
    ensures NumberOfRows(model, 0) + NumberOfRows(model, 1) + NumberOfRows(model, 2) >= |model|
  {
    SectionRowsTotal(model);
    TotalBandsAtLeastLength(model);
  }

  /** A well-formed record lists at least one real band. */
  lemma {:induction false} TotalBandsAtLeastLength(model: seq<CloudRecord>)
    requires ValidCatalog(model)
    ensures TotalBands(model) >= |model|
  {
    if model != [] {
      var c := model[0];
      var first := c.altitudeRange[0];
      assert first in c.altitudeRange && first != Count;
      assert BandCount(c) >= 1;
      assert ValidCatalog(model[1..]) by {
        forall i | 0 <= i < |model[1..]|
          ensures model[1..][i].altitudeRange != [] && Count !in model[1..][i].altitudeRange
        {
          assert model[1..][i] == model[i + 1];
        }
      }
      TotalBandsAtLeastLength(model[1..]);
    }
  }

  /** One step of the filter over a suffix of the list. */
  lemma FilterStep(model: seq<CloudRecord>, k: nat, altitude: CloudAltitude)
    requires k < |model|
    ensures |FilterByAltitude(model[k..], altitude)|
            == (if altitude in model[k].altitudeRange then 1 else 0) + |FilterByAltitude(model[k + 1..], altitude)|
  {
    assert model[k..][1..] == model[k + 1..];
  }

  /** The number of rows a section of a list with the fixture's ranges gets. */
  lemma {:induction false} SampleSectionSize(model: seq<CloudRecord>, altitude: CloudAltitude)
    requires HasSampleRanges(model)
    ensures |FilterByAltitude(model, altitude)| == match altitude
                                                 case Low => 5
                                                 case Mid => 4
                                                 case High => 4
                                                 case Count => 0
  {
    assert model[10..] == [];
    FilterStep(model, 9, altitude);
    FilterStep(model, 8, altitude);
    FilterStep(model, 7, altitude);
    FilterStep(model, 6, altitude);
    FilterStep(model, 5, altitude);
    FilterStep(model, 4, altitude);
    FilterStep(model, 3, altitude);
    FilterStep(model, 2, altitude);
    FilterStep(model, 1, altitude);
    FilterStep(model, 0, altitude);
    assert model[0..] == model;
  }

  /** The sample catalog gives 5, 4 and 4 rows to the three bands and none to the sentinel's section. */
  lemma SampleRowCounts()
    ensures NumberOfSections() == 3
    ensures NumberOfRows(Catalog(), 0) == 5
    ensures NumberOfRows(Catalog(), 1) == 4
    ensures NumberOfRows(Catalog(), 2) == 4
    ensures NumberOfRows(Catalog(), 3) == 0
    ensures SectionData(Catalog(), 3) == Some([])
  {
    CatalogRanges();
    SampleSectionSize(Catalog(), Low);
    SampleSectionSize(Catalog(), Mid);
    SampleSectionSize(Catalog(), High);
    SampleSectionSize(Catalog(), Count);
  }

  /** 13 rows for 10 records: the two multi-band clouds appear in more than one section. */
  lemma SampleRowsTotal()
    ensures NumberOfRows(Catalog(), 0) + NumberOfRows(Catalog(), 1) + NumberOfRows(Catalog(), 2) == 13
    ensures |Catalog()| == 10
  {
    SampleRowCounts();
  }

  /** The first sample cloud is the first row of each of the three band sections. */
  lemma FirstCloudHeadsEverySection(section: int)
    requires 0 <= section < NumberOfSections()
    ensures 0 < NumberOfRows(Catalog(), section)
    ensures RowData(Catalog(), section, 0) == Some(Catalog()[0])
  {
  }
}
