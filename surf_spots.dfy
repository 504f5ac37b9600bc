/** The surf spots page: the card built for each spot, the difficulty filter
    buttons, and the two filters that show or hide cards by setting each
    card's `display` in place. */
module SurfSpots {
  import opened Wrappers
  import opened Text
  import opened Spots

  const ImageDir := "images/surf-spots/"
  const PlaceholderImage := "url(images/surf-spots/placeholder.jpg)"
  const Shown := "flex"
  const Hidden := "none"

  /** The card's background image: the spot's own picture, or the placeholder. */
  function CardImage(spot: Spot): (r: string)
    ensures Truthy(spot.imgUrl) ==> r == "url(" + ImageDir + spot.imgUrl.value + ")"
    ensures !Truthy(spot.imgUrl) ==> r == PlaceholderImage
  {
    if Truthy(spot.imgUrl) then "url(" + ImageDir + spot.imgUrl.value + ")" else PlaceholderImage
  }

  /** A spot card: what the filters read (its `data-difficulty`, its name and
      location text) never changes once built; only its `display` does. */
  class SpotCard {
    const difficulty: Option<string>
    const image: string
    const name: string
    const location: string
    var display: string

    constructor (difficulty: Option<string>, image: string, name: string, location: string)
      ensures this.difficulty == difficulty && this.image == image
      ensures this.name == name && this.location == location
      ensures display == ""
    {
      this.difficulty := difficulty;
      this.image := image;
      this.name := name;
      this.location := location;
      display := "";
    }
  }

  /** Why `createSpotCard` fails: it reads the parts of a location the spot does not have. */
  datatype CardError = MissingLocation

  /** `createSpotCard`: `data-difficulty` only for a truthy difficulty, the
      image with its fallback, the name, and the joined location parts. */
  method CreateSpotCard(spot: Spot) returns (r: Result<SpotCard, CardError>)
    ensures r.Err? <==> spot.location.None?
    ensures r.Ok? ==>
      && fresh(r.value)
      && r.value.difficulty == (if Truthy(spot.difficulty) then spot.difficulty else None)
      && r.value.image == CardImage(spot)
      && r.value.name == spot.name.GetOr("")
      && r.value.location == LocationText(spot.location.value)
      && r.value.display == ""
  {
    if spot.location.None? {
      return Err(MissingLocation);
    }
    var difficulty := if Truthy(spot.difficulty) then spot.difficulty else None;
    var image := if Truthy(spot.imgUrl) then "url(" + ImageDir + spot.imgUrl.value + ")" else PlaceholderImage;
    var locationParts: seq<string> := [];
    var loc := spot.location.value;
    if Truthy(loc.beach) { locationParts := locationParts + [loc.beach.value]; }
    if Truthy(loc.city) { locationParts := locationParts + [loc.city.value]; }
    if Truthy(loc.state) { locationParts := locationParts + [loc.state.value]; }
    if Truthy(loc.country) { locationParts := locationParts + [loc.country.value]; }
    assert locationParts == LocationParts(loc);
    var card := new SpotCard(difficulty, image, spot.name.GetOr(""), Join(locationParts, ", "));
    return Ok(card);
  }

  // ------------------------------------------------------------------------
  // Difficulty filter

  /** Whether `applyFilter(filter)` shows a card with this `data-difficulty`. */
  predicate PassesFilter(filter: string, difficulty: Option<string>): (shown: bool)
    ensures filter == "all" ==> shown
    ensures filter != "all" && filter != "" && difficulty.None? ==> !shown
    ensures filter != "all" ==> (shown <==> Contains(Lower(difficulty.GetOr("")), Lower(filter)))
  {
    filter == "all" || Contains(Lower(difficulty.GetOr("")), Lower(filter))
  }

  /** `applyFilter`: every card is shown or hidden by its own difficulty;
      nothing but `display` changes. */
  method ApplyFilter(cards: seq<SpotCard>, filter: string)
    modifies set c | c in cards
    ensures forall c :: c in cards ==> c.display == (if PassesFilter(filter, c.difficulty) then Shown else Hidden)
  {
    for i := 0 to |cards|
      invariant forall j :: 0 <= j < i ==>
        cards[j].display == (if PassesFilter(filter, cards[j].difficulty) then Shown else Hidden)
    {
      var spot := cards[i];
      if filter == "all" {
        spot.display := Shown;
      } else {
        var difficulty := Lower(spot.difficulty.GetOr(""));
        spot.display := if Contains(difficulty, Lower(filter)) then Shown else Hidden;
      }
    }
  }

  /** "all" shows every card. */
  lemma AllShowsEverything(difficulty: Option<string>)
    ensures PassesFilter("all", difficulty)
  {
  }

  /** A card whose difficulty is the filter, in any letter case, is shown. */
  lemma MatchingDifficultyShown(filter: string, difficulty: string)
    requires Lower(difficulty) == Lower(filter)
    ensures PassesFilter(filter, Some(difficulty))
  {
    assert OccursAt(Lower(difficulty), Lower(filter), 0);
  }

  /** A card without a difficulty is hidden by every filter button but "all". */
  lemma NoDifficultyHidden(filter: string)
    requires filter != "all" && filter != ""
    ensures !PassesFilter(filter, None)
  {
    assert |Lower(filter)| > 0;
  }

  // ------------------------------------------------------------------------
  // Search

  /** The search term: the input lowercased, then trimmed. */
  function SearchTerm(raw: string): (term: string)
    ensures |term| <= |raw|
    ensures term == [] || (!IsSpace(term[0]) && !IsSpace(term[|term| - 1]))
    ensures forall c :: c in term ==> !('A' <= c <= 'Z')
    ensures (forall k :: 0 <= k < |raw| ==> IsSpace(raw[k])) ==> term == []
  {
    TrimKeepsCharacters(Lower(raw));
    Trim(Lower(raw))
  }

  /** Whether `filterBySearchTerm(term)` shows a card with this name and location text. */
  predicate MatchesSearch(term: string, name: string, location: string): (shown: bool)
    ensures term == "" ==> shown
    ensures term != "" ==> (shown <==> Contains(Lower(name), term) || Contains(Lower(location), term))
  {
    Contains(Lower(name), term) || Contains(Lower(location), term) || term == ""
  }

  /** `filterBySearchTerm`: a card is shown iff its lowercased name or
      location contains the term; nothing but `display` changes. */
  method FilterBySearchTerm(cards: seq<SpotCard>, searchTerm: string)
    modifies set c | c in cards
    ensures forall c :: c in cards ==> c.display == (if MatchesSearch(searchTerm, c.name, c.location) then Shown else Hidden)
  {
    for i := 0 to |cards|
      invariant forall j :: 0 <= j < i ==>
        cards[j].display == (if MatchesSearch(searchTerm, cards[j].name, cards[j].location) then Shown else Hidden)
    {
      var spot := cards[i];
      var spotName := Lower(spot.name);
      var spotLocation := Lower(spot.location);
      if Contains(spotName, searchTerm) || Contains(spotLocation, searchTerm) || searchTerm == "" {
        spot.display := Shown;
      } else {
        spot.display := Hidden;
      }
    }
  }

  /** The search box's input handler: the typed text, lowercased and
      trimmed, filters the cards. */
  method OnSearchInput(cards: seq<SpotCard>, raw: string)
    modifies set c | c in cards
    ensures forall c :: c in cards ==>
      c.display == (if MatchesSearch(SearchTerm(raw), c.name, c.location) then Shown else Hidden)
  {
    var searchTerm := Trim(Lower(raw));
    FilterBySearchTerm(cards, searchTerm);
  }

  /** Typing only white space shows every card. */
  lemma BlankSearchShowsEverything(raw: string, name: string, location: string)
    requires forall i :: 0 <= i < |raw| ==> IsSpace(raw[i])
    ensures SearchTerm(raw) == ""
    ensures MatchesSearch(SearchTerm(raw), name, location)
  {
    var s := Lower(raw);
    assert forall k :: 0 <= k < |s| ==> IsSpace(s[k]);
  }

  /** A term found in the card's name shows the card. */
  lemma NameMatchShown(term: string, name: string, location: string, at: nat)
    requires OccursAt(Lower(name), term, at)
    ensures MatchesSearch(term, name, location)
  {
  }

  // ------------------------------------------------------------------------
  // Filter buttons

  class FilterButton {
    const filter: string
    var active: bool

    constructor (filter: string, active: bool)
      ensures this.filter == filter && this.active == active
    {
      this.filter := filter;
      this.active := active;
    }
  }

  /** The click handler of a filter button: every button loses 'active', the
      clicked one gets it back, and the cards are filtered by its value. */
  method OnFilterClick(buttons: seq<FilterButton>, clicked: nat, cards: seq<SpotCard>)
    requires clicked < |buttons|
    modifies set b | b in buttons, set c | c in cards
    ensures forall b :: b in buttons ==> (b.active <==> b == buttons[clicked])
    ensures forall c :: c in cards ==>
      c.display == (if PassesFilter(buttons[clicked].filter, c.difficulty) then Shown else Hidden)
  {
    var button := buttons[clicked];
    var filter := button.filter;
    for i := 0 to |buttons|
      invariant forall j :: 0 <= j < i ==> !buttons[j].active
    {
      buttons[i].active := false;
    }
    button.active := true;
    ApplyFilter(cards, filter);
  }
}
