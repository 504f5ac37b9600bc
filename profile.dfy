/** The surf site's profile page: the form, the saved profile kept in browser
    storage, and the profile card built from it. The text formatters turn
    stored keys into labels; the handlers save the form, clear it, and fill
    it back in from storage when the page loads. */
module Profile {
  import opened Wrappers
  import opened Text

  // ------------------------------------------------------------------------
  // Formatters

  const NotSpecified := "Not specified"
  const NoneSelected := "None selected"

  const ExperienceLabels: map<string, string> := map[
    "beginner" := "Beginner", "intermediate" := "Intermediate",
    "advanced" := "Advanced", "pro" := "Professional"]

  const BoardLabels: map<string, string> := map[
    "shortboard" := "Shortboard", "longboard" := "Longboard", "fish" := "Fish",
    "funboard" := "Funboard", "gun" := "Gun"]

  const SizeLabels: map<string, string> := map[
    "small" := "Small (1-3 ft)", "medium" := "Medium (3-5 ft)",
    "large" := "Large (5-8 ft)", "xl" := "Extra Large (8+ ft)"]

  const NotificationLabels: map<string, string> := map[
    "wave-alerts" := "Wave Alerts", "weather-updates" := "Weather Updates", "events" := "Surf Events"]

  /** `labels[key] || key`: the label of a known key, else the key itself. */
  function Label(key: string, labels: map<string, string>): (r: string)
    ensures key in labels && labels[key] != "" ==> r == labels[key]
    ensures key !in labels ==> r == key
  {
    if key in labels && labels[key] != "" then labels[key] else key
  }

  /** The shape of `formatExperience` and `formatBoardType`: an empty or
      missing value is "Not specified", a known key its label, and anything
      else is shown as it is. */
  function FormatChoice(value: Option<string>, labels: map<string, string>): (r: string)
    ensures !Truthy(value) ==> r == NotSpecified
    ensures Truthy(value) ==> r == Label(value.value, labels)
  {
    if !Truthy(value) then NotSpecified else Label(value.value, labels)
  }

  /** `formatExperience`: the four levels by name. */
  function FormatExperience(experience: Option<string>): (r: string)
    ensures !Truthy(experience) ==> r == NotSpecified
    ensures Truthy(experience) && experience.value in ExperienceLabels ==> r == ExperienceLabels[experience.value]
    ensures Truthy(experience) && experience.value !in ExperienceLabels ==> r == experience.value
  {
    FormatChoice(experience, ExperienceLabels)
  }

  /** `formatBoardType`: the five boards by name. */
  function FormatBoardType(boardType: Option<string>): (r: string)
    ensures !Truthy(boardType) ==> r == NotSpecified
    ensures Truthy(boardType) && boardType.value in BoardLabels ==> r == BoardLabels[boardType.value]
    ensures Truthy(boardType) && boardType.value !in BoardLabels ==> r == boardType.value
  {
    FormatChoice(boardType, BoardLabels)
  }

  /** `items.map(item => labels[item] || item)`. */
  function MapLabels(items: seq<string>, labels: map<string, string>): (r: seq<string>)
    ensures |r| == |items|
    ensures forall i :: 0 <= i < |items| ==> r[i] == Label(items[i], labels)
  {
    if items == [] then [] else [Label(items[0], labels)] + MapLabels(items[1..], labels)
  }

  /** The shape of `formatWaveSizes` and `formatNotifications`: an empty list
      is "None selected", else the labels joined with ", " in list order. */
  function FormatList(items: seq<string>, labels: map<string, string>): (r: string)
    ensures items == [] ==> r == NoneSelected
    ensures items != [] ==> r == Join(MapLabels(items, labels), ", ")
  {
    if |items| == 0 then NoneSelected else Join(MapLabels(items, labels), ", ")
  }

  /** `formatWaveSizes`: the size ranges, in the order the boxes were ticked. */
  function FormatWaveSizes(sizes: seq<string>): (r: string)
    ensures sizes == [] ==> r == NoneSelected
    ensures |sizes| == 1 && sizes[0] in SizeLabels ==> r == SizeLabels[sizes[0]]
  {
    FormatList(sizes, SizeLabels)
  }

  /** `formatNotifications`: the notification kinds by name. */
  function FormatNotifications(notifications: seq<string>): (r: string)
    ensures notifications == [] ==> r == NoneSelected
    ensures |notifications| == 1 && notifications[0] in NotificationLabels ==> r == NotificationLabels[notifications[0]]
  {
    FormatList(notifications, NotificationLabels)
  }

  /** The formatters' fixed points: no label is itself a key, so a label
      formats to itself. */
  lemma FormatChoiceIdempotent(value: Option<string>)
    ensures FormatExperience(Some(FormatExperience(value))) == FormatExperience(value)
    ensures FormatBoardType(Some(FormatBoardType(value))) == FormatBoardType(value)
  {
  }

  /** A single known wave size shows as its label; two are joined with a comma. */
  lemma WaveSizesJoined(a: string, b: string)
    ensures FormatWaveSizes([a]) == Label(a, SizeLabels)
    ensures FormatWaveSizes([a, b]) == Label(a, SizeLabels) + ", " + Label(b, SizeLabels)
  {
    assert MapLabels([a, b], SizeLabels)[1..] == [Label(b, SizeLabels)];
  }

  // ------------------------------------------------------------------------
  // The stored profile and the card built from it

  /** A list field as it comes out of storage: missing, an array, or some
      other value (only whether it is truthy matters). */
  datatype ListField = Absent | Items(items: seq<string>) | Scalar(truthy: bool)

  /** The parsed profile record. Text fields may be missing. */
  datatype ProfileData = ProfileData(
    name: Option<string>, email: Option<string>, experience: Option<string>,
    homeSpot: Option<string>, boardType: Option<string>, bio: Option<string>,
    waveSize: ListField, notifications: ListField, lastUpdated: Option<string>)

  /** One `profile-detail` line of the card. */
  datatype Detail = Detail(heading: string, value: string)

  /** Why `displayProfileData` stops: `.map` on a truthy list field that is not an array. */
  datatype DisplayError = ListNotArray

  /** The text of a list line: `field ? format(field) : 'None selected'`. */
  function ListText(field: ListField, labels: map<string, string>): (r: Result<string, DisplayError>)
    ensures r.Err? <==> field == Scalar(true)
    ensures field.Absent? || field == Scalar(false) || field == Items([]) ==> r == Ok(NoneSelected)
    ensures field.Items? ==> r == Ok(FormatList(field.items, labels))
  {
    match field
    case Absent => Ok(NoneSelected)
    case Scalar(truthy) => if truthy then Err(ListNotArray) else Ok(NoneSelected)
    case Items(items) => Ok(FormatList(items, labels))
  }

  /** The card lines of `displayProfileData`, in order: seven fixed lines,
      "About Me" only for a non-empty bio, and "Last Updated" always last. */
  function ProfileDetails(p: ProfileData): (r: Result<seq<Detail>, DisplayError>)
    ensures r.Err? <==> p.waveSize == Scalar(true) || p.notifications == Scalar(true)
    ensures r.Ok? ==> |r.value| == (if Truthy(p.bio) then 9 else 8)
    ensures r.Ok? ==> r.value[0] == Detail("Name", Interp(p.name))
    ensures r.Ok? ==> r.value[1] == Detail("Email", Interp(p.email))
    ensures r.Ok? ==> r.value[2] == Detail("Experience Level", FormatExperience(p.experience))
    ensures r.Ok? ==> r.value[3] == Detail("Home Spot", if Truthy(p.homeSpot) then p.homeSpot.value else NotSpecified)
    ensures r.Ok? ==> r.value[4] == Detail("Preferred Wave Sizes", ListText(p.waveSize, SizeLabels).value)
    ensures r.Ok? ==> r.value[5] == Detail("Board Type", FormatBoardType(p.boardType))
    ensures r.Ok? ==> r.value[6] == Detail("Notifications", ListText(p.notifications, NotificationLabels).value)
    ensures r.Ok? && Truthy(p.bio) ==> r.value[7] == Detail("About Me", p.bio.value)
    ensures r.Ok? ==> r.value[|r.value| - 1] == Detail("Last Updated", Interp(p.lastUpdated))
  {
    match ListText(p.waveSize, SizeLabels)
    case Err(e) => Err(e)
    case Ok(waveSizes) =>
      match ListText(p.notifications, NotificationLabels)
      case Err(e) => Err(e)
      case Ok(notifications) =>
        var fixed := [
          Detail("Name", Interp(p.name)),
          Detail("Email", Interp(p.email)),
          Detail("Experience Level", FormatExperience(p.experience)),
          Detail("Home Spot", if Truthy(p.homeSpot) then p.homeSpot.value else NotSpecified),
          Detail("Preferred Wave Sizes", waveSizes),
          Detail("Board Type", FormatBoardType(p.boardType)),
          Detail("Notifications", notifications)];
        var about := if Truthy(p.bio) then [Detail("About Me", p.bio.value)] else [];
        Ok(fixed + about + [Detail("Last Updated", Interp(p.lastUpdated))])
  }

  // ------------------------------------------------------------------------
  // The form

  datatype Checkbox = Checkbox(value: string, checked: bool)

  datatype FormState = FormState(
    name: string, email: string, experience: string, homeSpot: string,
    boardType: string, bio: string, waveSize: seq<Checkbox>, notifications: seq<Checkbox>)

  ghost predicate DistinctValues(boxes: seq<Checkbox>) {
    forall i, j :: 0 <= i < j < |boxes| ==> boxes[i].value != boxes[j].value
  }

  /** `getSelectedCheckboxValues`: the values of the checked boxes, in page order. */
  function SelectedValues(boxes: seq<Checkbox>): (r: seq<string>)
    ensures |r| <= |boxes|
    ensures forall v :: v in r <==> exists k :: 0 <= k < |boxes| && boxes[k].checked && boxes[k].value == v
  {
    if boxes == [] then []
    else
      var rest := SelectedValues(boxes[1..]);
      assert forall k :: 1 <= k < |boxes| ==> boxes[k] == boxes[1..][k - 1];
      if boxes[0].checked then [boxes[0].value] + rest else rest
  }

  /** One box contributes its value exactly when it is checked. */
  lemma SelectedValuesOne(box: Checkbox)
    ensures SelectedValues([box]) == if box.checked then [box.value] else []
  {
  }

  /** Selection keeps page order and duplicates: the values of a page split
      in two are the values of the first part followed by those of the second. */
  lemma {:induction false} SelectedValuesAppend(a: seq<Checkbox>, b: seq<Checkbox>)
    ensures SelectedValues(a + b) == SelectedValues(a) + SelectedValues(b)
  {
    if a == [] {
      assert a + b == b;
    } else {
      assert (a + b)[0] == a[0];
      assert (a + b)[1..] == a[1..] + b;
      SelectedValuesAppend(a[1..], b);
    }
  }

  /** The record the submit handler saves. */
  function ProfileFromForm(form: FormState, lastUpdated: string): (p: ProfileData)
    ensures p.waveSize == Items(SelectedValues(form.waveSize))
    ensures p.notifications == Items(SelectedValues(form.notifications))
    ensures p.lastUpdated == Some(lastUpdated)
  {
    ProfileData(Some(form.name), Some(form.email), Some(form.experience), Some(form.homeSpot),
      Some(form.boardType), Some(form.bio), Items(SelectedValues(form.waveSize)),
      Items(SelectedValues(form.notifications)), Some(lastUpdated))
  }

  /** A profile saved from the form always yields a card. */
  lemma SavedProfileDisplays(form: FormState, lastUpdated: string)
    ensures ProfileDetails(ProfileFromForm(form, lastUpdated)).Ok?
  {
  }

  function Uncheck(boxes: seq<Checkbox>): (r: seq<Checkbox>)
    ensures |r| == |boxes|
    ensures forall k :: 0 <= k < |boxes| ==> r[k] == Checkbox(boxes[k].value, false)
  {
    seq(|boxes|, k requires 0 <= k < |boxes| => Checkbox(boxes[k].value, false))
  }

  /** `form.reset()`: every text field empty and every box unchecked. */
  function Reset(form: FormState): (r: FormState)
    ensures r.name == "" && r.email == "" && r.experience == "" && r.homeSpot == "" && r.boardType == "" && r.bio == ""
    ensures r.waveSize == Uncheck(form.waveSize) && r.notifications == Uncheck(form.notifications)
  {
    FormState("", "", "", "", "", "", Uncheck(form.waveSize), Uncheck(form.notifications))
  }

  /** `document.querySelector(input[value="v"])`: the first box with value v. */
  function FirstWithValue(boxes: seq<Checkbox>, v: string): (r: Option<nat>)
    ensures r.Some? ==> r.value < |boxes| && boxes[r.value].value == v
    ensures r.Some? ==> forall k :: 0 <= k < r.value ==> boxes[k].value != v
    ensures r.None? ==> forall k :: 0 <= k < |boxes| ==> boxes[k].value != v
  {
    if boxes == [] then None
    else if boxes[0].value == v then Some(0)
    else match FirstWithValue(boxes[1..], v)
      case None => None
      case Some(k) => Some(k + 1)
  }

  /** `if (checkbox) checkbox.checked = true` for the box found for v. */
  function MarkValue(boxes: seq<Checkbox>, v: string): (r: seq<Checkbox>)
    ensures |r| == |boxes|
    ensures forall k :: 0 <= k < |boxes| ==> r[k].value == boxes[k].value
    ensures forall k :: 0 <= k < |boxes| ==>
      r[k].checked == (boxes[k].checked || FirstWithValue(boxes, v) == Some(k))
  {
    match FirstWithValue(boxes, v)
    case None => boxes
    case Some(k) => boxes[k := Checkbox(v, true)]
  }

  /** The stored values marked one after the other. */
  function MarkAll(boxes: seq<Checkbox>, values: seq<string>): (r: seq<Checkbox>)
    ensures |r| == |boxes|
    ensures forall k :: 0 <= k < |boxes| ==> r[k].value == boxes[k].value
  {
    if values == [] then boxes else MarkValue(MarkAll(boxes, values[..|values| - 1]), values[|values| - 1])
  }

  /** With distinct box values, a box ends up checked iff it was checked or
      its value was stored. */
  lemma {:induction false} MarkAllChecks(boxes: seq<Checkbox>, values: seq<string>, k: nat)
    requires DistinctValues(boxes) && k < |boxes|
    ensures MarkAll(boxes, values)[k].checked == (boxes[k].checked || boxes[k].value in values)
    decreases |values|
  {
    if values != [] {
      var init := values[..|values| - 1];
      var v := values[|values| - 1];
      var before := MarkAll(boxes, init);
      MarkAllChecks(boxes, init, k);
      assert values == init + [v];
      assert before[k].value == boxes[k].value;
      var found := FirstWithValue(before, v);
      if before[k].value == v {
        assert found == Some(k) by {
          var f := found.value;
          assert before[f].value == v;
          assert boxes[f].value == boxes[k].value;
        }
      } else {
        assert found != Some(k);
      }
    }
  }

  /** `profileData.x || ''`. */
  function TextOrEmpty(o: Option<string>): (r: string)
    ensures Truthy(o) ==> r == o.value
    ensures !Truthy(o) ==> r == ""
  {
    if Truthy(o) then o.value else ""
  }

  /** What `loadProfileData` writes into the form for a stored profile: each
      text field, and a tick on every box whose value is in a stored array. */
  function RestoreForm(form: FormState, p: ProfileData): (r: FormState)
    ensures r.name == TextOrEmpty(p.name) && r.bio == TextOrEmpty(p.bio)
    ensures r.email == TextOrEmpty(p.email) && r.experience == TextOrEmpty(p.experience)
    ensures r.homeSpot == TextOrEmpty(p.homeSpot) && r.boardType == TextOrEmpty(p.boardType)
    ensures p.waveSize.Items? ==> r.waveSize == MarkAll(form.waveSize, p.waveSize.items)
    ensures !p.waveSize.Items? ==> r.waveSize == form.waveSize
    ensures p.notifications.Items? ==> r.notifications == MarkAll(form.notifications, p.notifications.items)
    ensures !p.notifications.Items? ==> r.notifications == form.notifications
  {
    FormState(TextOrEmpty(p.name), TextOrEmpty(p.email), TextOrEmpty(p.experience),
      TextOrEmpty(p.homeSpot), TextOrEmpty(p.boardType), TextOrEmpty(p.bio),
      if p.waveSize.Items? then MarkAll(form.waveSize, p.waveSize.items) else form.waveSize,
      if p.notifications.Items? then MarkAll(form.notifications, p.notifications.items) else form.notifications)
  }

  lemma RestoreBoxes(boxes: seq<Checkbox>)
    requires DistinctValues(boxes)
    ensures MarkAll(Uncheck(boxes), SelectedValues(boxes)) == boxes
  {
    var u := Uncheck(boxes);
    assert DistinctValues(u);
    forall k | 0 <= k < |boxes|
      ensures MarkAll(u, SelectedValues(boxes))[k] == boxes[k]
    {
      MarkAllChecks(u, SelectedValues(boxes), k);
    }
  }

  /** Saving and reloading round-trips: a blank form filled in from the
      profile saved from a form is that form again (box values distinct). */
  lemma ReloadRestoresForm(form: FormState, lastUpdated: string)
    requires DistinctValues(form.waveSize) && DistinctValues(form.notifications)
    ensures RestoreForm(Reset(form), ProfileFromForm(form, lastUpdated)) == form
  {
    RestoreBoxes(form.waveSize);
    RestoreBoxes(form.notifications);
  }

  // ------------------------------------------------------------------------
  // The page

  /** What storage holds under 'surfBuddyProfile': a record `JSON.parse`
      reads back, or text it rejects. */
  datatype Stored = Parsed(data: ProfileData) | Malformed

  class ProfilePage {
    var form: FormState
    var cardVisible: bool
    var display: seq<Detail>
    var stored: Option<Stored>
    var message: string

    constructor (form: FormState, stored: Option<Stored>)
      ensures this.form == form && this.stored == stored
      ensures !cardVisible && display == [] && message == ""
    {
      this.form := form;
      this.stored := stored;
      cardVisible := false;
      display := [];
      message := "";
    }

    /** `displayProfileData`: the card becomes visible first, then its lines
        are replaced; a list field that is not an array stops it in between. */
    method DisplayProfileData(p: ProfileData) returns (r: Result<(), DisplayError>)
      modifies this
      ensures cardVisible
      ensures ProfileDetails(p).Ok? ==> display == ProfileDetails(p).value && r.Ok?
      ensures ProfileDetails(p).Err? ==> display == old(display) && r.Err?
      ensures form == old(form) && stored == old(stored) && message == old(message)
    {
      cardVisible := true;
      var details := ProfileDetails(p);
      if details.Err? {
        return Err(details.error);
      }
      display := details.value;
      return Ok(());
    }

    /** The submit handler: the form is saved with the time of saving, the
        success message is shown, and the card shows the saved profile. */
    method Submit(lastUpdated: string)
      modifies this
      ensures stored == Some(Parsed(ProfileFromForm(old(form), lastUpdated)))
      ensures message == "Profile saved successfully!"
      ensures cardVisible && display == ProfileDetails(ProfileFromForm(old(form), lastUpdated)).value
      ensures form == old(form)
    {
      var profileData := ProfileFromForm(form, lastUpdated);
      stored := Some(Parsed(profileData));
      message := "Profile saved successfully!";
      SavedProfileDisplays(form, lastUpdated);
      var _ := DisplayProfileData(profileData);
    }

    /** The clear handler: only once confirmed, storage is emptied, the form
        reset and the card hidden; the card's old lines stay behind it. */
    method Clear(confirmed: bool)
      modifies this
      ensures !confirmed ==> form == old(form) && stored == old(stored) && cardVisible == old(cardVisible) && message == old(message)
      ensures confirmed ==> stored == None && form == Reset(old(form)) && !cardVisible
      ensures confirmed ==> message == "Profile data cleared successfully!"
      ensures display == old(display)
    {
      if confirmed {
        stored := None;
        form := Reset(form);
        cardVisible := false;
        message := "Profile data cleared successfully!";
      }
    }

    /** `loadProfileData`: a stored profile is written into the form and shown
        on the card; with nothing stored, or text that does not parse,
        nothing changes. */
    method LoadProfileData()
      modifies this
      ensures stored == old(stored) && message == old(message)
      ensures old(stored).None? || old(stored) == Some(Malformed) ==>
        form == old(form) && cardVisible == old(cardVisible) && display == old(display)
      ensures old(stored).Some? && old(stored).value.Parsed? ==>
        var p := old(stored).value.data;
        && form == RestoreForm(old(form), p)
        && cardVisible
        && display == (if ProfileDetails(p).Ok? then ProfileDetails(p).value else old(display))
    {
      if stored.None? || stored.value.Malformed? {
        return;
      }
      var profileData := stored.value.data;
      var waveBoxes := form.waveSize;
      if profileData.waveSize.Items? {
        var sizes := profileData.waveSize.items;
        for i := 0 to |sizes|
          invariant waveBoxes == MarkAll(form.waveSize, sizes[..i])
        {
          assert sizes[..i + 1][..i] == sizes[..i];
          waveBoxes := MarkValue(waveBoxes, sizes[i]);
        }
        assert sizes[..|sizes|] == sizes;
      }
      var notificationBoxes := form.notifications;
      if profileData.notifications.Items? {
        var notifications := profileData.notifications.items;
        for i := 0 to |notifications|
          invariant notificationBoxes == MarkAll(form.notifications, notifications[..i])
        {
          assert notifications[..i + 1][..i] == notifications[..i];
          notificationBoxes := MarkValue(notificationBoxes, notifications[i]);
        }
        assert notifications[..|notifications|] == notifications;
      }
      form := FormState(
        TextOrEmpty(profileData.name), TextOrEmpty(profileData.email),
        TextOrEmpty(profileData.experience), TextOrEmpty(profileData.homeSpot),
        TextOrEmpty(profileData.boardType), TextOrEmpty(profileData.bio),
        waveBoxes, notificationBoxes);
      var _ := DisplayProfileData(profileData);
    }
  }

  /** Saving, then loading the page again with a blank form, brings back the
      same form and the same card. */
  method SaveAndReload(page: ProfilePage, lastUpdated: string)
    requires DistinctValues(page.form.waveSize) && DistinctValues(page.form.notifications)
    modifies page
    ensures page.form == old(page.form)
    ensures page.cardVisible
    ensures page.display == ProfileDetails(ProfileFromForm(old(page.form), lastUpdated)).value
  {
    page.Submit(lastUpdated);
    var saved := page.display;
    page.form := Reset(page.form);
    page.cardVisible := false;
    page.LoadProfileData();
    ReloadRestoresForm(old(page.form), lastUpdated);
    SavedProfileDisplays(old(page.form), lastUpdated);
  }
}
