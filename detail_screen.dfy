/**
 * The detail screen: the text shown for one cloud's altitude bands and
 * precipitation flag, and the label update that shows a cloud's fields.
 */
module DetailScreen {
  import opened CloudModel

  /** The word `textFor(altitudeRange:)` appends for one band, always followed by a space. */
  function Token(a: CloudAltitude): (t: string)
    ensures |t| >= 4 && t[|t| - 1] == ' '
  {
    match a
    case Low => "Low "
    case Mid => "Mid "
    case High => "High "
    case Count => "Count "
  }

  /** The text for a list of bands: their tokens, one per band, in list order. */
  function AltitudeText(range: seq<CloudAltitude>): (t: string)
    ensures 4 * |range| <= |t| <= 6 * |range|
  {
    if range == [] then "" else Token(range[0]) + AltitudeText(range[1..])
  }

  /** The text of a concatenation is the concatenation of the texts. */
  lemma {:induction false} AltitudeTextAppend(a: seq<CloudAltitude>, b: seq<CloudAltitude>)
    ensures AltitudeText(a + b) == AltitudeText(a) + AltitudeText(b)
  {
    if a == [] {
      assert a + b == b;
    } else {
      assert (a + b)[1..] == a[1..] + b;
      AltitudeTextAppend(a[1..], b);
    }
  }

  /** Non-empty text always ends in the space after the last token. */
  lemma {:induction false} AltitudeTextEndsInSpace(range: seq<CloudAltitude>)
    ensures AltitudeText(range) == "" <==> range == []
    ensures range != [] ==> AltitudeText(range)[|AltitudeText(range)| - 1] == ' '
  {
    if range != [] {
      var tail := range[1..];
      if tail == [] {
        assert AltitudeText(range) == Token(range[0]);
      } else {
        AltitudeTextEndsInSpace(tail);
        var t := AltitudeText(range);
        assert t == Token(range[0]) + AltitudeText(tail);
        assert t[|t| - 1] == AltitudeText(tail)[|AltitudeText(tail)| - 1];
      }
    }
  }

  /** The length of the text is 4 per low or mid band, 5 per high band and 6 per sentinel. */
  lemma {:induction false} AltitudeTextLength(range: seq<CloudAltitude>)
    ensures |AltitudeText(range)| == 4 * multiset(range)[Low] + 4 * multiset(range)[Mid]
                                     + 5 * multiset(range)[High] + 6 * multiset(range)[Count]
  {
    if range != [] {
      var head, tail := range[0], range[1..];
      AltitudeTextLength(tail);
      assert range == [head] + tail;
      var m, mt := multiset(range), multiset(tail);
      assert m == multiset{head} + mt;
      assert |AltitudeText(range)| == |Token(head)| + |AltitudeText(tail)|;
      match head
      case Low => assert m[Low] == mt[Low] + 1 && m[Mid] == mt[Mid] && m[High] == mt[High] && m[Count] == mt[Count];
      case Mid => assert m[Low] == mt[Low] && m[Mid] == mt[Mid] + 1 && m[High] == mt[High] && m[Count] == mt[Count];
      case High => assert m[Low] == mt[Low] && m[Mid] == mt[Mid] && m[High] == mt[High] + 1 && m[Count] == mt[Count];
      case Count => assert m[Low] == mt[Low] && m[Mid] == mt[Mid] && m[High] == mt[High] && m[Count] == mt[Count] + 1;
    }
  }

  /** Different band lists never give the same text: each token starts with its own letter. */
  lemma {:induction false} AltitudeTextInjective(a: seq<CloudAltitude>, b: seq<CloudAltitude>)
    requires AltitudeText(a) == AltitudeText(b)
    ensures a == b
  {
    if a != [] && b != [] {
      var ta, tb := Token(a[0]), Token(b[0]);
      assert ta[0] == AltitudeText(a)[0] && tb[0] == AltitudeText(b)[0];
      assert a[0] == b[0];
      assert AltitudeText(a)[|ta|..] == AltitudeText(a[1..]);
      assert AltitudeText(b)[|tb|..] == AltitudeText(b[1..]);
      AltitudeTextInjective(a[1..], b[1..]);
      assert a == [a[0]] + a[1..] && b == [b[0]] + b[1..];
    }
  }

  /** `textFor(altitudeRange:)`: appends each band's token to an initially empty string. */
  method TextFor(altitudeRange: seq<CloudAltitude>) returns (result: string)
    ensures result == AltitudeText(altitudeRange)
  {
    result := "";
    for i := 0 to |altitudeRange|
      invariant result == AltitudeText(altitudeRange[..i])
    {
      var altitude := altitudeRange[i];
      AltitudeTextAppend(altitudeRange[..i], [altitude]);
      assert altitudeRange[..i + 1] == altitudeRange[..i] + [altitude];
      assert [altitude][1..] == [];
      match altitude
      case Low => result := result + "Low ";
      case Mid => result := result + "Mid ";
      case High => result := result + "High ";
      case Count => result := result + "Count ";
    }
    assert altitudeRange[..|altitudeRange|] == altitudeRange;
  }

  /** The precipitation label: "True" exactly when the flag is set, "False" otherwise. */
  function PrecipitationText(flag: bool): (t: string)
    ensures t == "True" <==> flag
    ensures t == "False" <==> !flag
  {
    if flag then "True" else "False"
  }

  /** The first sample cloud reads "Low Mid High " and "True" on the detail screen. */
  lemma FirstCloudDetail()
    ensures AltitudeText(Catalog()[0].altitudeRange) == "Low Mid High "
    ensures PrecipitationText(Catalog()[0].precipitationFlag) == "True"
  {
  }

  /** `CloudDetailViewController`: the cloud it shows and the text of its five outlets. */
  class CloudDetailView {
    var model: Cloud?
    var nameText: string
    var abbreviationText: string
    var altitudeText: string
    var precipitationText: string
    var descriptionText: string

    /** A screen about to show `model`, with its labels still empty. */
    constructor (model: Cloud?)
      ensures this.model == model
      ensures nameText == "" && abbreviationText == "" && altitudeText == ""
      ensures precipitationText == "" && descriptionText == ""
    {
      this.model := model;
      nameText, abbreviationText, altitudeText := "", "", "";
      precipitationText, descriptionText := "", "";
    }

    /**
     * `updateView()`: name, abbreviation and description pass through unchanged,
     * the bands become their text and the flag becomes "True" or "False".
     * `model` is implicitly unwrapped, so it must be set.
     */
    method UpdateView()
      requires model != null
      modifies this
      ensures model == old(model) && model.Record() == old(model.Record())
      ensures nameText == model.name
      ensures abbreviationText == model.abbreviation
      ensures descriptionText == model.description
      ensures altitudeText == AltitudeText(model.altitudeRange)
      ensures precipitationText == PrecipitationText(model.precipitationFlag)
    {
      nameText := model.name;
      abbreviationText := model.abbreviation;
      descriptionText := model.description;
      altitudeText := TextFor(model.altitudeRange);
      precipitationText := if model.precipitationFlag then "True" else "False";
    }
  }
}
