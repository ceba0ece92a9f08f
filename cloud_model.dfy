/**
 * The cloud catalog: the altitude enumeration with its display tables, the
 * `Cloud` record, its factory `cloudMaker` and the fixture list `sampleData`.
 */
module CloudModel {
  import opened Wrappers

  /** `enum CloudAltitude: Int` with the cases low, mid, high and the sentinel count. */
  datatype CloudAltitude = Low | Mid | High | Count

  /** The Int raw value of a case: low = 0, and each later case one more. */
  function RawValue(a: CloudAltitude): (r: int)
    ensures 0 <= r <= 3
    ensures r == 3 <==> a == Count
  {
    match a
    case Low => 0
    case Mid => 1
    case High => 2
    case Count => 3
  }

  /** `CloudAltitude(rawValue:)`: defined exactly on the raw values 0 through 3. */
  function FromRaw(i: int): (r: Option<CloudAltitude>)
    ensures r.Some? <==> 0 <= i <= 3
    ensures r.Some? ==> RawValue(r.value) == i
  {
    if i == 0 then Some(Low)
    else if i == 1 then Some(Mid)
    else if i == 2 then Some(High)
    else if i == 3 then Some(Count)
    else None
  }

  /** Every case is recovered from its raw value. */
  lemma RawValueRoundTrip(a: CloudAltitude)
    ensures FromRaw(RawValue(a)) == Some(a)
  {
  }

  /** The raw values of distinct cases are distinct. */
  lemma RawValueInjective(a: CloudAltitude, b: CloudAltitude)
    requires RawValue(a) == RawValue(b)
    ensures a == b
  {
  }

  /** `longName`: a title ending in " Clouds" for each real band, empty for the sentinel. */
  function LongName(a: CloudAltitude): (s: string)
    ensures s == "" <==> a == Count
    ensures a != Count ==> |s| > 7 && s[|s| - 7..] == " Clouds"
  {
    match a
    case Low => "Low-Level Clouds"
    case Mid => "Mid-level Clouds"
    case High => "High-Level Clouds"
    case Count => ""
  }

  /** `feet`: a height ending in " feet" for each real band, empty for the sentinel. */
  function Feet(a: CloudAltitude): (s: string)
    ensures s == "" <==> a == Count
    ensures a != Count ==> |s| > 5 && s[|s| - 5..] == " feet"
  {
    match a
    case Low => "6,500 feet"
    case Mid => "23,000 feet"
    case High => "40,000 feet"
    case Count => ""
  }

  /** Both display tables tell the three real bands apart. */
  lemma DisplayTablesDistinguishBands(a: CloudAltitude, b: CloudAltitude)
    requires a != b && a != Count && b != Count
    ensures LongName(a) != LongName(b)
    ensures Feet(a) != Feet(b)
  {
  }

  /** The immutable value held by a `Cloud` object: its five fields. */
  datatype CloudRecord = CloudRecord(
    name: string,
    abbreviation: string,
    altitudeRange: seq<CloudAltitude>,
    precipitationFlag: bool,
    description: string)

  /** `class Cloud`: five stored properties with their default values. */
  class Cloud {
    var name: string
    var abbreviation: string
    var altitudeRange: seq<CloudAltitude>
    var precipitationFlag: bool
    var description: string

    /** `Cloud()`: every field at its declared default. */
    constructor ()
      ensures Record() == CloudRecord("", "", [], false, "")
    {
      name := "";
      abbreviation := "";
      altitudeRange := [];
      precipitationFlag := false;
      description := "";
    }

    /** The current value of the five fields. */
    function Record(): CloudRecord
      reads this
    {
      CloudRecord(name, abbreviation, altitudeRange, precipitationFlag, description)
    }

    /** `cloudMaker`: a fresh object whose five fields are the five arguments. */
    static method CloudMaker(name: string, abbreviation: string, altitudeRange: seq<CloudAltitude>,
                             precipitationFlag: bool, description: string)
      returns (cloud: Cloud)
      ensures fresh(cloud)
      ensures cloud.name == name && cloud.abbreviation == abbreviation
      ensures cloud.altitudeRange == altitudeRange
      ensures cloud.precipitationFlag == precipitationFlag && cloud.description == description
    {
      cloud := new Cloud();
      cloud.name := name;
      cloud.abbreviation := abbreviation;
      cloud.altitudeRange := altitudeRange;
      cloud.precipitationFlag := precipitationFlag;
      cloud.description := description;
    }

    /**
     * `sampleData`: ten new, distinct objects appended in a fixed order,
     * whose values are the fixture `Catalog()`.
     */
    static method SampleData() returns (clouds: seq<Cloud>)
      ensures |clouds| == |Catalog()|
      ensures Distinct(clouds)
      ensures Records(clouds) == Catalog()
    {
      clouds := [];

      var cloud1 := CloudMaker("Cumulonibmbus", "Cb", [Low, Mid, High], true,
                               "Vertical sack of fluffy cotton balls with a dark bottom.");
      clouds := clouds + [cloud1];

      var cloud2 := CloudMaker("Cumulus", "Cu", [Low], false,
                               "Basket of fluffy cotton balls.");
      clouds := clouds + [cloud2];

      var cloud3 := CloudMaker("Stratocumulus", "Sc", [Low], false,
                               "Mountain range of fluffy cotton balls.");
      clouds := clouds + [cloud3];

      var cloud4 := CloudMaker("Stratus", "St", [Low], false,
                               "Tattered smears of thin cotton gauze.");
      clouds := clouds + [cloud4];

      var cloud5 := CloudMaker("Nimbostratus", "Ns", [Low, Mid], true,
                               "Dark and stormy wall of thunder.");
      clouds := clouds + [cloud5];

      var cloud6 := CloudMaker("Altocumulus", "Ac", [Mid], false,
                               "Dumplings of white fluffy cotton.");
      clouds := clouds + [cloud6];

      var cloud7 := CloudMaker("Altostratus", "As", [Mid], false,
                               "Long smear of thick cotton gauze.");
      clouds := clouds + [cloud7];

      var cloud8 := CloudMaker("Cirrocumulus", "Cc", [High], false,
                               "Little dots of white fluffy cotton.");
      clouds := clouds + [cloud8];

      var cloud9 := CloudMaker("Cirrostratus", "Cs", [High], false,
                               "Long ribbons of thin cotton gauze.");
      clouds := clouds + [cloud9];

      var cloud0 := CloudMaker("Cirrus", "Ci", [High], false,
                               "Ripped shreads of thin cotton gauze.");
      clouds := clouds + [cloud0];

      assert clouds == [cloud1, cloud2, cloud3, cloud4, cloud5, cloud6, cloud7, cloud8, cloud9, cloud0];
      var catalog := Catalog();
      assert cloud1.Record() == catalog[0] && cloud2.Record() == catalog[1];
      assert cloud3.Record() == catalog[2] && cloud4.Record() == catalog[3];
      assert cloud5.Record() == catalog[4] && cloud6.Record() == catalog[5];
      assert cloud7.Record() == catalog[6] && cloud8.Record() == catalog[7];
      assert cloud9.Record() == catalog[8] && cloud0.Record() == catalog[9];
      RecordsPointwise(clouds, catalog);
      CatalogObjectsDistinct(clouds);
    }
  }

  /** No object appears twice. */
  predicate Distinct(clouds: seq<Cloud>)
  {
    forall i, j :: 0 <= i < j < |clouds| ==> clouds[i] != clouds[j]
  }

  /** Objects holding the fixture values are pairwise distinct, since no two fixture names agree. */
  lemma CatalogObjectsDistinct(clouds: seq<Cloud>)
    requires Records(clouds) == Catalog()
    ensures Distinct(clouds)
  {
    forall i, j | 0 <= i < j < |clouds|
      ensures clouds[i] != clouds[j]
    {
      CatalogNamesDistinct();
      assert clouds[i].Record().name == Catalog()[i].name;
      assert clouds[j].Record().name == Catalog()[j].name;
    }
  }

  /** The values of a sequence of `Cloud` objects, in order. */
  function Records(clouds: seq<Cloud>): (rs: seq<CloudRecord>)
    reads clouds
    ensures |rs| == |clouds|
    ensures forall i :: 0 <= i < |clouds| ==> rs[i] == clouds[i].Record()
  {
    if clouds == [] then [] else [clouds[0].Record()] + Records(clouds[1..])
  }

  /** Two record sequences are equal when the objects' values match index by index. */
  lemma RecordsPointwise(clouds: seq<Cloud>, rs: seq<CloudRecord>)
    requires |clouds| == |rs|
    requires forall i :: 0 <= i < |clouds| ==> clouds[i].Record() == rs[i]
    ensures Records(clouds) == rs
  {
  }

  /** The fixture values that `sampleData` appends, in append order. */
  function Catalog(): (rs: seq<CloudRecord>)
    ensures |rs| == 10
  {
    [ CloudRecord("Cumulonibmbus", "Cb", [Low, Mid, High], true,
                  "Vertical sack of fluffy cotton balls with a dark bottom."),
      CloudRecord("Cumulus", "Cu", [Low], false,
                  "Basket of fluffy cotton balls."),
      CloudRecord("Stratocumulus", "Sc", [Low], false,
                  "Mountain range of fluffy cotton balls."),
      CloudRecord("Stratus", "St", [Low], false,
                  "Tattered smears of thin cotton gauze."),
      CloudRecord("Nimbostratus", "Ns", [Low, Mid], true,
                  "Dark and stormy wall of thunder."),
      CloudRecord("Altocumulus", "Ac", [Mid], false,
                  "Dumplings of white fluffy cotton."),
      CloudRecord("Altostratus", "As", [Mid], false,
                  "Long smear of thick cotton gauze."),
      CloudRecord("Cirrocumulus", "Cc", [High], false,
                  "Little dots of white fluffy cotton."),
      CloudRecord("Cirrostratus", "Cs", [High], false,
                  "Long ribbons of thin cotton gauze."),
      CloudRecord("Cirrus", "Ci", [High], false,
                  "Ripped shreads of thin cotton gauze.") ]
  }

  /** The names of a list of records, in order. */
  function Names(rs: seq<CloudRecord>): (ns: seq<string>)
    ensures |ns| == |rs|
    ensures forall i :: 0 <= i < |rs| ==> ns[i] == rs[i].name
  {
    if rs == [] then [] else [rs[0].name] + Names(rs[1..])
  }

  /** A well-formed catalog: every record has at least one band and never the sentinel. */
  predicate ValidCatalog(rs: seq<CloudRecord>)
  {
    forall i :: 0 <= i < |rs| ==> rs[i].altitudeRange != [] && Count !in rs[i].altitudeRange
  }

  /** The fixture holds ten records, named in append order (with the source's own spelling). */
  lemma CatalogNames()
    ensures |Catalog()| == 10
    ensures Names(Catalog()) == ["Cumulonibmbus", "Cumulus", "Stratocumulus", "Stratus", "Nimbostratus",
                                 "Altocumulus", "Altostratus", "Cirrocumulus", "Cirrostratus", "Cirrus"]
  {
    var ns := Names(Catalog());
    assert ns[0] == "Cumulonibmbus" && ns[1] == "Cumulus" && ns[2] == "Stratocumulus";
    assert ns[3] == "Stratus" && ns[4] == "Nimbostratus" && ns[5] == "Altocumulus";
    assert ns[6] == "Altostratus" && ns[7] == "Cirrocumulus" && ns[8] == "Cirrostratus";
    assert ns[9] == "Cirrus";
  }

  /** No two fixture records share a name. */
  lemma CatalogNamesDistinct()
    ensures forall i, j :: 0 <= i < j < |Catalog()| ==> Catalog()[i].name != Catalog()[j].name
  {
  }

  /** The altitude ranges of the fixture, record by record. */
  predicate HasSampleRanges(rs: seq<CloudRecord>)
  {
    && |rs| == 10
    && rs[0].altitudeRange == [Low, Mid, High]
    && rs[1].altitudeRange == [Low]
    && rs[2].altitudeRange == [Low]
    && rs[3].altitudeRange == [Low]
    && rs[4].altitudeRange == [Low, Mid]
    && rs[5].altitudeRange == [Mid]
    && rs[6].altitudeRange == [Mid]
    && rs[7].altitudeRange == [High]
    && rs[8].altitudeRange == [High]
    && rs[9].altitudeRange == [High]
  }

  lemma CatalogRanges()
    ensures HasSampleRanges(Catalog())
  {
  }

  /** Every fixture record has a non-empty range without the sentinel. */
  lemma CatalogValid()
    ensures ValidCatalog(Catalog())
  {
  }

  /**
   * Only records 0 and 4 span more than one band, and they are exactly the
   * records that bring precipitation.
   */
  lemma CatalogMultiBandRecords()
    ensures Catalog()[0].altitudeRange == [Low, Mid, High]
    ensures Catalog()[4].altitudeRange == [Low, Mid]
    ensures forall i :: 0 <= i < |Catalog()| ==> (|Catalog()[i].altitudeRange| > 1 <==> i == 0 || i == 4)
    ensures forall i :: 0 <= i < |Catalog()| ==> (Catalog()[i].precipitationFlag <==> i == 0 || i == 4)
  {
  }
}
