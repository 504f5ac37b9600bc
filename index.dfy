/** The home page of the surf site: three spots picked at random from the
    fetched spot list (a Fisher–Yates shuffle of a copy, cut to a prefix),
    the card records built for them, the built-in sample cards shown when the
    list is empty, and the "Weather for: …" line. `Math.random` is replaced by
    a supplied sequence of choices: `choices[i]` is the index drawn when the
    loop variable is `i`. */
module Home {
  import opened Wrappers
  import opened Text
  import opened Spots
  import Weather
  import Modal

  const ImageDir := "images/surf-spots/"
  const LinkPrefix := "surf-spots.html#"
  const DefaultCount := 3

  function Min(a: nat, b: nat): nat {
    if a <= b then a else b
  }

  /** Every draw the loop makes with loop variable `i` (from n - 1 down to 1)
      lies in 0..i, as `Math.floor(Math.random() * (i + 1))` does. */
  predicate ValidChoices(choices: seq<nat>, n: nat) {
    |choices| >= n && forall i :: 0 < i < n ==> choices[i] <= i
  }

  /** `[spots[i], spots[j]] = [spots[j], spots[i]]`. */
  function Swap<T>(s: seq<T>, i: nat, j: nat): (r: seq<T>)
    requires i < |s| && j < |s|
    ensures |r| == |s| && r[i] == s[j] && r[j] == s[i]
    ensures forall k :: 0 <= k < |s| && k != i && k != j ==> r[k] == s[k]
  {
    s[i := s[j]][j := s[i]]
  }

  /** A swap neither adds nor loses an element. */
  lemma SwapPermutes<T>(s: seq<T>, i: nat, j: nat)
    requires i < |s| && j < |s|
    ensures multiset(Swap(s, i, j)) == multiset(s)
  {
  }

  /** The working array once the loop has run with loop variable i, i - 1, …, 1. */
  function ShuffleFrom<T>(s: seq<T>, choices: seq<nat>, i: nat): (r: seq<T>)
    requires i < |s| && ValidChoices(choices, |s|)
    ensures |r| == |s|
    decreases i
  {
    if i == 0 then s else ShuffleFrom(Swap(s, i, choices[i]), choices, i - 1)
  }

  /** However the choices fall, the working array stays a permutation of the copy. */
  lemma {:induction false} ShuffleFromPermutes<T>(s: seq<T>, choices: seq<nat>, i: nat)
    requires i < |s| && ValidChoices(choices, |s|)
    ensures multiset(ShuffleFrom(s, choices, i)) == multiset(s)
    decreases i
  {
    if i > 0 {
      SwapPermutes(s, i, choices[i]);
      ShuffleFromPermutes(Swap(s, i, choices[i]), choices, i - 1);
    }
  }

  /** The whole shuffled copy. */
  function Shuffled<T>(s: seq<T>, choices: seq<nat>): (r: seq<T>)
    requires ValidChoices(choices, |s|)
    ensures |r| == |s|
  {
    if |s| == 0 then s else ShuffleFrom(s, choices, |s| - 1)
  }

  lemma ShuffledPermutes<T>(s: seq<T>, choices: seq<nat>)
    requires ValidChoices(choices, |s|)
    ensures multiset(Shuffled(s, choices)) == multiset(s)
  {
    if |s| > 0 {
      ShuffleFromPermutes(s, choices, |s| - 1);
    }
  }

  /** Positions above the loop variable are final: a step with loop variable
      i never touches an index greater than i. */
  lemma {:induction false} ShuffleKeepsTail<T>(s: seq<T>, choices: seq<nat>, i: nat, k: nat)
    requires i < k < |s| && ValidChoices(choices, |s|)
    ensures ShuffleFrom(s, choices, i)[k] == s[k]
    decreases i
  {
    if i > 0 {
      ShuffleKeepsTail(Swap(s, i, choices[i]), choices, i - 1, k);
    }
  }

  /** A prefix holds no element more often than the whole sequence does. */
  lemma PrefixSubMultiset<T>(s: seq<T>, k: nat)
    requires k <= |s|
    ensures multiset(s[..k]) <= multiset(s)
  {
    assert s == s[..k] + s[k..];
  }

  /** The loop of `getRandomSurfSpots`: swaps in place, from the last
      position down to position 1. */
  method ShuffleInPlace<T>(spots: array<T>, choices: seq<nat>)
    requires ValidChoices(choices, spots.Length)
    modifies spots
    ensures spots[..] == Shuffled(old(spots[..]), choices)
  {
    if spots.Length == 0 {
      return;
    }
    ghost var input := spots[..];
    var i := spots.Length - 1;
    while i > 0
      invariant 0 <= i < spots.Length && |input| == spots.Length
      invariant ShuffleFrom(spots[..], choices, i) == Shuffled(input, choices)
    {
      var j := choices[i];
      ghost var before := spots[..];
      var t := spots[i];
      spots[i] := spots[j];
      spots[j] := t;
      assert spots[..] == Swap(before, i, j) by {
        assert forall k :: 0 <= k < spots.Length ==> spots[k] == Swap(before, i, j)[k];
      }
      assert ShuffleFrom(before, choices, i) == ShuffleFrom(spots[..], choices, i - 1);
      i := i - 1;
    }
  }

  /** `getRandomSurfSpots(spotsData, count = 3)`: shuffles a copy (the
      caller's array is not modified) and returns its first min(count, n)
      elements, which never repeat an input element more often than the
      input holds it. */
  method GetRandomSurfSpots<T>(spotsData: array<T>, choices: seq<nat>, count: nat := DefaultCount)
    returns (r: seq<T>)
    requires ValidChoices(choices, spotsData.Length)
    ensures |r| == Min(count, spotsData.Length)
    ensures multiset(r) <= multiset(spotsData[..])
    ensures r == Shuffled(spotsData[..], choices)[..|r|]
  {
    var spots := new T[spotsData.Length](k requires 0 <= k < spotsData.Length reads spotsData => spotsData[k]);
    assert spots[..] == spotsData[..];
    ShuffleInPlace(spots, choices);
    r := spots[..Min(count, spots.Length)];
    ShuffledPermutes(spotsData[..], choices);
    PrefixSubMultiset(Shuffled(spotsData[..], choices), |r|);
  }

  // ------------------------------------------------------------------------
  // Card records

  /** `formatSpotsForUI` on one spot: the picture path, a conditions line from
      the difficulty, wave type and average height, and a link to the spot's
      anchor; every detail the dialog reads is carried over, `id` and
      `imgUrl` are not. */
  function FormatSpot(spot: Spot): (r: Spot)
    ensures r.image == Some(ImageDir + Interp(spot.imgUrl))
    ensures r.link == Some(LinkPrefix + Interp(spot.id))
    ensures r.conditions == Some(Interp(spot.difficulty) + " • " + Interp(spot.waveType) + " • Avg: " + Interp(spot.avgWaveHeight))
    ensures r.id.None? && r.imgUrl.None?
  {
    spot.(id := None,
          image := Some(ImageDir + Interp(spot.imgUrl)),
          imgUrl := None,
          conditions := Some(Interp(spot.difficulty) + " • " + Interp(spot.waveType) + " • Avg: " + Interp(spot.avgWaveHeight)),
          link := Some(LinkPrefix + Interp(spot.id)))
  }

  /** `formatSpotsForUI`: one card record per spot, in the same order. */
  function FormatSpotsForUI(spots: seq<Spot>): (r: seq<Spot>)
    ensures |r| == |spots|
    ensures forall i :: 0 <= i < |spots| ==> r[i] == FormatSpot(spots[i])
  {
    if spots == [] then [] else [FormatSpot(spots[0])] + FormatSpotsForUI(spots[1..])
  }

  /** Formatting keeps everything the detail dialog reads except the picture
      and the conditions line: the dialog of a formatted spot has the spot's
      own name, location, wave and season sections, and shows the picture
      under the spot's `imgUrl`. */
  lemma FormattedSpotInDialog(spot: Spot)
    ensures Modal.ModalImage(FormatSpot(spot)) == Modal.ImageDir + Interp(spot.imgUrl)
    ensures Modal.LocationSection(FormatSpot(spot)) == Modal.LocationSection(spot)
    ensures Modal.WaveSection(FormatSpot(spot)) == Modal.WaveSection(spot)
    ensures Modal.SeasonSection(FormatSpot(spot)) == Modal.SeasonSection(spot)
    ensures Modal.ModalContent(FormatSpot(spot)).title == Modal.ModalContent(spot).title
  {
  }

  // ------------------------------------------------------------------------
  // Location line

  /** `updateLocationDisplay(locationName, countryName = '')`: the country is
      added after a comma only when it is not empty. */
  function LocationDisplayText(locationName: string, countryName: string := ""): (r: string)
    ensures countryName == "" ==> r == "Weather for: " + locationName
    ensures countryName != "" ==> r == "Weather for: " + locationName + ", " + countryName
  {
    var displayText := "Weather for: " + locationName;
    if countryName != "" then displayText + ", " + countryName else displayText
  }

  /** When the place lookup fails the line reads "Weather for: Current Location". */
  lemma UnknownPlaceDisplay(response: Option<seq<Weather.Place>>)
    requires response.None? || response.value == []
    ensures var p := Weather.GetLocationName(response);
      LocationDisplayText(p.name, p.country) == "Weather for: Current Location"
  {
  }

  /** The line always starts with "Weather for: " followed by the place name. */
  lemma {:induction false} LocationDisplayStartsWithName(locationName: string, countryName: string)
    ensures var r := LocationDisplayText(locationName, countryName);
      |r| >= 13 + |locationName| && r[13..13 + |locationName|] == locationName
  {
    var r := LocationDisplayText(locationName, countryName);
    assert |"Weather for: "| == 13;
    if countryName == "" {
      assert r == "Weather for: " + locationName;
    } else {
      assert r == ("Weather for: " + locationName) + (", " + countryName);
    }
  }

  // ------------------------------------------------------------------------
  // Start-up

  /** The cards shown when no spot list could be fetched. */
  function SampleSpotsData(): (cards: seq<Spot>)
    ensures |cards| == 3
    ensures forall i :: 0 <= i < |cards| ==>
      && Truthy(cards[i].name) && Truthy(cards[i].image) && Truthy(cards[i].conditions) && Truthy(cards[i].link)
      && cards[i].location.None? && cards[i].id.None?
  {
    [
      SampleSpot("Malibu Beach", "images/surf-spots/malibu.webp", "Current: 4ft • Excellent conditions", "#malibu"),
      SampleSpot("Pipeline, Hawaii", "images/surf-spots/pipeline.webp", "Current: 8ft • Good conditions", "#pipeline"),
      SampleSpot("Bondi Beach", "images/surf-spots/bondi-beach.webp", "Current: 3ft • Fair conditions", "#bondi")
    ]
  }

  /** The spot cards the home page is given at start-up: the sample cards for
      an empty list, else three random spots, formatted. */
  method HomeSpots(surfSpotsData: array<Spot>, choices: seq<nat>) returns (shown: seq<Spot>)
    requires ValidChoices(choices, surfSpotsData.Length)
    ensures surfSpotsData.Length == 0 ==> shown == SampleSpotsData()
    ensures surfSpotsData.Length > 0 ==>
      && |shown| == Min(DefaultCount, surfSpotsData.Length)
      && shown == FormatSpotsForUI(Shuffled(surfSpotsData[..], choices)[..|shown|])
  {
    if surfSpotsData.Length > 0 {
      var randomSpots := GetRandomSurfSpots(surfSpotsData, choices, 3);
      shown := FormatSpotsForUI(randomSpots);
    } else {
      shown := SampleSpotsData();
    }
  }

  /** Every card shown for a non-empty list is the formatted form of some fetched spot. */
  lemma {:induction false} HomeSpotsFromFetched(data: seq<Spot>, choices: seq<nat>, k: nat)
    requires ValidChoices(choices, |data|) && k < Min(DefaultCount, |data|)
    ensures exists i :: 0 <= i < |data| && FormatSpotsForUI(Shuffled(data, choices)[..Min(DefaultCount, |data|)])[k] == FormatSpot(data[i])
  {
    var s := Shuffled(data, choices);
    ShuffledPermutes(data, choices);
    assert s[k] in multiset(s);
    assert s[k] in multiset(data);
    var i :| 0 <= i < |data| && data[i] == s[k];
    assert FormatSpotsForUI(s[..Min(DefaultCount, |data|)])[k] == FormatSpot(data[i]);
  }
}
