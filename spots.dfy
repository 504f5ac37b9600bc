/** The surf spot record the surf site reads from its spot list and passes
    between the home page, the spot cards and the detail dialog, and the
    joined location text both the cards and the dialog show. Fields the JSON
    may leave out are optional; numeric fields are kept as the text a
    template literal prints for them. */
module Spots {
  import opened Wrappers
  import opened Text

  datatype Coordinates = Coordinates(latitude: string, longitude: string)

  datatype Location = Location(
    beach: Option<string>, city: Option<string>, state: Option<string>, country: Option<string>,
    coordinates: Option<Coordinates>)

  datatype Spot = Spot(
    id: Option<string>, name: Option<string>, image: Option<string>, imgUrl: Option<string>,
    conditions: Option<string>, link: Option<string>, location: Option<Location>,
    difficulty: Option<string>, waveType: Option<string>, bestSeason: Option<string>,
    description: Option<string>, avgWaveHeight: Option<string>, maxWaveHeight: Option<string>,
    surfConsistency: Option<string>, crowdLevel: Option<string>)

  /** A spot with only the four fields the built-in sample cards carry. */
  function SampleSpot(name: string, image: string, conditions: string, link: string): Spot {
    Spot(None, Some(name), Some(image), None, Some(conditions), Some(link), None,
         None, None, None, None, None, None, None, None)
  }

  /** The part list, if `o` is truthy: its text, else nothing. */
  function Part(o: Option<string>): (r: seq<string>)
    ensures Truthy(o) ==> r == [o.value]
    ensures !Truthy(o) ==> r == []
  {
    if Truthy(o) then [o.value] else []
  }

  /** The beach, city, state and country that are present and not empty, in that order. */
  function LocationParts(loc: Location): (r: seq<string>)
    ensures |r| <= 4
    ensures forall i :: 0 <= i < |r| ==> r[i] != ""
    ensures r == [] <==> !Truthy(loc.beach) && !Truthy(loc.city) && !Truthy(loc.state) && !Truthy(loc.country)
    ensures Truthy(loc.beach) ==> r[0] == loc.beach.value
    ensures Truthy(loc.country) ==> r[|r| - 1] == loc.country.value
  {
    Part(loc.beach) + Part(loc.city) + Part(loc.state) + Part(loc.country)
  }

  /** `locationParts.join(', ')`. */
  function LocationText(loc: Location): (text: string)
    ensures LocationParts(loc) == [] ==> text == ""
    ensures Truthy(loc.beach) ==> |loc.beach.value| <= |text| && text[..|loc.beach.value|] == loc.beach.value
    ensures |LocationParts(loc)| == 1 ==> text == LocationParts(loc)[0]
  {
    Join(LocationParts(loc), ", ")
  }

  /** With every part present the text names them all, comma separated, in order. */
  lemma FullLocationText(b: string, c: string, s: string, k: string, coords: Option<Coordinates>)
    requires b != "" && c != "" && s != "" && k != ""
    ensures LocationText(Location(Some(b), Some(c), Some(s), Some(k), coords)) == b + ", " + c + ", " + s + ", " + k
  {
    var parts := LocationParts(Location(Some(b), Some(c), Some(s), Some(k), coords));
    assert parts == [b, c, s, k];
    assert parts[1..] == [c, s, k] && parts[2..] == [s, k] && parts[3..] == [k];
    assert Join(parts[2..], ", ") == s + ", " + k;
    assert Join(parts[1..], ", ") == c + ", " + s + ", " + k;
  }
}
