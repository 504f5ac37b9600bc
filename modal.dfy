/** The spot detail dialog of the surf site: the page keeps at most one
    dialog, and the dialog's content is assembled from the optional sections
    a spot has data for. */
module Modal {
  import opened Wrappers
  import opened Text
  import opened Spots

  const ImageDir := "images/surf-spots/"

  /** One `info-section`: its heading and its paragraphs, in order. */
  datatype InfoSection = InfoSection(heading: string, paragraphs: seq<string>)

  /** What the dialog shows: the spot's name, its picture and its sections. */
  datatype ModalView = ModalView(title: string, imageUrl: string, sections: seq<InfoSection>)

  /** `spot.image || images/surf-spots/${spot.imgUrl}`. */
  function ModalImage(spot: Spot): (url: string)
    ensures Truthy(spot.image) ==> url == spot.image.value
    ensures !Truthy(spot.image) ==> url == ImageDir + Interp(spot.imgUrl)
  {
    if Truthy(spot.image) then spot.image.value else ImageDir + Interp(spot.imgUrl)
  }

  /** A paragraph with a label, present only when the value is truthy. */
  function Labelled(caption: string, o: Option<string>, suffix: string): (r: seq<string>)
    ensures Truthy(o) ==> r == [caption + o.value + suffix]
    ensures !Truthy(o) ==> r == []
  {
    if Truthy(o) then [caption + o.value + suffix] else []
  }

  /** The Location section, present whenever the spot has a location record. */
  function LocationSection(spot: Spot): (r: Option<InfoSection>)
    ensures r.Some? <==> spot.location.Some?
    ensures r.Some? ==> r.value.heading == "Location"
    ensures r.Some? ==> (|r.value.paragraphs| ==
      (if LocationParts(spot.location.value) != [] then 1 else 0) + (if spot.location.value.coordinates.Some? then 1 else 0))
    ensures r.Some? && LocationParts(spot.location.value) != [] ==> r.value.paragraphs[0] == LocationText(spot.location.value)
    ensures r.Some? && spot.location.value.coordinates.Some? ==>
      var c := spot.location.value.coordinates.value;
      r.value.paragraphs[|r.value.paragraphs| - 1] == "Coordinates: " + c.latitude + ", " + c.longitude
  {
    match spot.location
    case None => None
    case Some(loc) =>
      var parts := LocationParts(loc);
      var text := if parts != [] then [Join(parts, ", ")] else [];
      var coords :=
        match loc.coordinates
        case Some(c) => ["Coordinates: " + c.latitude + ", " + c.longitude]
        case None => [];
      Some(InfoSection("Location", text + coords))
  }

  /** The Wave Information section: opened by a wave type, a difficulty or an
      average height; the maximum height is listed only inside it. */
  function WaveSection(spot: Spot): (r: Option<InfoSection>)
    ensures r.Some? <==> Truthy(spot.waveType) || Truthy(spot.difficulty) || Truthy(spot.avgWaveHeight)
    ensures r.Some? ==> r.value.heading == "Wave Information"
    ensures r.Some? ==> (|r.value.paragraphs| ==
      (if Truthy(spot.waveType) then 1 else 0) + (if Truthy(spot.difficulty) then 1 else 0)
      + (if Truthy(spot.avgWaveHeight) then 1 else 0) + (if Truthy(spot.maxWaveHeight) then 1 else 0))
  {
    if Truthy(spot.waveType) || Truthy(spot.difficulty) || Truthy(spot.avgWaveHeight) then
      Some(InfoSection("Wave Information",
        Labelled("Type: ", spot.waveType, "")
        + Labelled("Difficulty: ", spot.difficulty, "")
        + Labelled("Average Wave Height: ", spot.avgWaveHeight, "")
        + Labelled("Maximum Wave Height: ", spot.maxWaveHeight, "")))
    else None
  }

  /** The Season & Conditions section: opened by a best season, a consistency or a crowd level. */
  function SeasonSection(spot: Spot): (r: Option<InfoSection>)
    ensures r.Some? <==> Truthy(spot.bestSeason) || Truthy(spot.surfConsistency) || Truthy(spot.crowdLevel)
    ensures r.Some? ==> r.value.heading == "Season & Conditions" && 1 <= |r.value.paragraphs| <= 3
  {
    if Truthy(spot.bestSeason) || Truthy(spot.surfConsistency) || Truthy(spot.crowdLevel) then
      Some(InfoSection("Season & Conditions",
        Labelled("Best Season: ", spot.bestSeason, "")
        + Labelled("Surf Consistency: ", spot.surfConsistency, "/5")
        + Labelled("Crowd Level: ", spot.crowdLevel, "/5")))
    else None
  }

  /** The Description section: the description, else the conditions text. */
  function DescriptionSection(spot: Spot): (r: Option<InfoSection>)
    ensures r.Some? <==> Truthy(spot.description) || Truthy(spot.conditions)
    ensures Truthy(spot.description) ==> r == Some(InfoSection("Description", [spot.description.value]))
    ensures !Truthy(spot.description) && Truthy(spot.conditions) ==>
      r == Some(InfoSection("Description", [spot.conditions.value]))
  {
    if Truthy(spot.description) then Some(InfoSection("Description", [spot.description.value]))
    else if Truthy(spot.conditions) then Some(InfoSection("Description", [spot.conditions.value]))
    else None
  }

  function Present(o: Option<InfoSection>): seq<InfoSection> {
    if o.Some? then [o.value] else []
  }

  function Headings(sections: seq<InfoSection>): (h: seq<string>)
    ensures |h| == |sections|
  {
    if sections == [] then [] else [sections[0].heading] + Headings(sections[1..])
  }

  /** The content `showSpotDetails` assembles for a spot. */
  function ModalContent(spot: Spot): (v: ModalView)
    ensures v.title == Interp(spot.name) && v.imageUrl == ModalImage(spot)
    ensures |v.sections| <= 4
    ensures "Wave Information" in Headings(v.sections) <==>
      Truthy(spot.waveType) || Truthy(spot.difficulty) || Truthy(spot.avgWaveHeight)
    ensures "Location" in Headings(v.sections) <==> spot.location.Some?
  {
    var sections := Present(LocationSection(spot)) + Present(WaveSection(spot))
                    + Present(SeasonSection(spot)) + Present(DescriptionSection(spot));
    HeadingsAppend(Present(LocationSection(spot)), Present(WaveSection(spot)));
    HeadingsAppend(Present(LocationSection(spot)) + Present(WaveSection(spot)), Present(SeasonSection(spot)));
    HeadingsAppend(Present(LocationSection(spot)) + Present(WaveSection(spot)) + Present(SeasonSection(spot)),
                   Present(DescriptionSection(spot)));
    ModalView(Interp(spot.name), ModalImage(spot), sections)
  }

  lemma {:induction false} HeadingsAppend(a: seq<InfoSection>, b: seq<InfoSection>)
    ensures Headings(a + b) == Headings(a) + Headings(b)
  {
    if a == [] {
      assert a + b == b;
    } else {
      assert (a + b)[1..] == a[1..] + b;
      assert (a + b)[0] == a[0];
      assert Headings(a + b) == [a[0].heading] + Headings(a[1..] + b);
      HeadingsAppend(a[1..], b);
      assert Headings(a) == [a[0].heading] + Headings(a[1..]);
    }
  }

  /** A maximum wave height alone does not open the Wave Information section. */
  lemma MaxHeightAloneHidden(spot: Spot)
    requires !Truthy(spot.waveType) && !Truthy(spot.difficulty) && !Truthy(spot.avgWaveHeight)
    ensures "Wave Information" !in Headings(ModalContent(spot).sections)
  {
  }

  // ------------------------------------------------------------------------
  // The dialog element

  class ModalDialog {
    var content: ModalView
    var isOpen: bool

    constructor ()
      ensures !isOpen && content == ModalView("", "", [])
    {
      content := ModalView("", "", []);
      isOpen := false;
    }

    /** The close button's handler: `modalDialog.close()`; the content stays. */
    method Close()
      modifies this
      ensures !isOpen && content == old(content)
    {
      isOpen := false;
    }

    /** The dialog's click handler: a click on the dialog element itself (its
        backdrop) closes it; a click inside its content changes nothing. */
    method OnClick(targetIsDialog: bool)
      modifies this
      ensures isOpen == (old(isOpen) && !targetIsDialog)
      ensures content == old(content)
    {
      if targetIsDialog {
        Close();
      }
    }
  }

  /** The page body, as far as the dialog goes: the dialogs appended to it,
      the first of which `getElementById('spot-modal-dialog')` finds. */
  class Page {
    var dialogs: seq<ModalDialog>

    constructor ()
      ensures dialogs == []
    {
      dialogs := [];
    }

    /** `createModalContainer`: the dialog already on the page, or a new one appended to it. */
    method CreateModalContainer() returns (d: ModalDialog)
      modifies this
      ensures old(dialogs) != [] ==> d == old(dialogs)[0] && dialogs == old(dialogs)
      ensures old(dialogs) == [] ==> fresh(d) && dialogs == [d] && !d.isOpen
    {
      if dialogs != [] {
        return dialogs[0];
      }
      d := new ModalDialog();
      dialogs := dialogs + [d];
    }

    /** `showSpotDetails`: fills the page's dialog with the spot's content and opens it. */
    method ShowSpotDetails(spot: Spot) returns (d: ModalDialog)
      modifies this, if dialogs != [] then {dialogs[0]} else {}
      ensures |dialogs| == (if |old(dialogs)| == 0 then 1 else |old(dialogs)|)
      ensures d == dialogs[0] && d.isOpen && d.content == ModalContent(spot)
      ensures old(dialogs) != [] ==> dialogs == old(dialogs)
      ensures old(dialogs) == [] ==> fresh(d)
    {
      d := CreateModalContainer();
      d.content := ModalContent(spot);
      d.isOpen := true;
    }
  }

  /** However many times spot details are shown, the page holds a single dialog. */
  method ShowTwice(page: Page, first: Spot, second: Spot) returns (d: ModalDialog)
    requires |page.dialogs| <= 1
    modifies page, page.dialogs
    ensures |page.dialogs| == 1
    ensures d == page.dialogs[0] && d.content == ModalContent(second)
  {
    var d1 := page.ShowSpotDetails(first);
    d := page.ShowSpotDetails(second);
  }
}
