# wdd231 surf and chamber sites — a Dafny model of their logic

The repository holds two static web sites. One is a chamber of commerce site
(`chamber/`). The other is a surf site (`final-project/`). Most of their scripts
fetch JSON and render it into the page. This project models the parts that
carry real logic:

- **Forecast bucketing** (`processForecastData`): one day card per weekday, at most six. Each card holds the sample nearest to noon. This morning's samples are dropped. A sixth "SAT" card becomes "SAT/SUN".
- **Tides** (`getTideStatus`, `generateTidePredictions`, `processWeatherAPIData`, `createMockMarineData`): the rising/falling status, the two invented tides, the mapping of provider tides, and the fallback record.
- **Wind** (`getWindDirection`): onshore or offshore, relative to a beach orientation.
- **Random selection without replacement**: the Fisher–Yates prefix of `getRandomSurfSpots`, and the splice loop of the chamber's member spotlight. `Math.random` is replaced by a supplied sequence of draws.
- **The surf home page**: card formatting, the "Weather for: …" line, and the sample cards used when the spot list is empty.
- **The chamber home page**: the weather icon, the every-eighth forecast sample, and the gold/silver spotlight.
- **The discover page**: the last-visit message, over one stored timestamp.
- **The profile page**: the label formatters, the card lines, and the save / clear / load handlers over the form and the stored profile.
- **The surf spots page**: the spot card, the difficulty filter, the search filter and the filter buttons. The filters change each card's `display` in place.
- **The spot detail dialog**: get-or-create of the single dialog, and the sections it shows.

Layout, one module per source file: `weather.dfy`, `marine.dfy`, `utilities.dfy`, `index.dfy`
(module `Home`), `chamber_home.dfy`, `discover.dfy`, `profile.dfy`,
`surf_spots.dfy`, `modal.dfy`. Three more modules are shared:

- `spots.dfy`: the spot record and the location join.
- `text.dfy`: JavaScript truthiness of optional strings, template interpolation (a missing value prints `undefined`), `toLowerCase` and `trim` (ASCII only), `includes`, `join` and `parseInt`.
- `wrappers.dfy`: `Option` and `Result`.

Where the source loops or updates state, the model does too:

- `ProcessForecastData` and `ProcessWeatherApiData` are methods with loops. `GenerateTidePredictions` is a method that pushes two tides onto a list. Each of the three is proved equal to a specification function, and lemmas characterise that function.
- `ShuffleInPlace` swaps inside an `array`. `PickFromPool` splices a pool in a `for` loop.
- Spot cards, filter buttons, the dialog, the visit log and the profile page are classes whose methods update their fields.

Outside inputs become parameters:

- Times are integer milliseconds. The weekday and hour of a forecast sample are fields of the sample.
- Locale formatting of times and temperatures is a function parameter.
- Coordinates are integer hundredths of a degree.

## Model

| member | source | states |
|---|---|---|
| Weather.Bucket | final-project/scripts/modules/weather.js:48-71 | the dictionary's keys are exactly its insertion list, pairwise distinct; every entry carries its own weekday label, is not from this morning and keeps the raw temperature beside the formatted one |
| Weather.Finish | final-project/scripts/modules/weather.js:73-77 | at most six cards with distinct labels; a card is labelled "SAT/SUN" iff it is the sixth and its day is Saturday; every other card keeps its weekday label |
| Weather.ForecastSpec | final-project/scripts/modules/weather.js:38-86 | no forecast, no list or an empty list gives no cards; otherwise at most six cards with distinct labels, none from this morning, each keeping the raw temperature beside the formatted one |
| Weather.ProcessForecastData | final-project/scripts/modules/weather.js:38-86 | the forEach over the samples into the dictionary, then the cut to six and the rename, returns exactly the cards of ForecastSpec |
| Weather.DayName | final-project/scripts/modules/weather.js:45-52 | a three-letter label that is never "SAT/SUN"; the label is "SAT" iff the weekday is Saturday |
| Weather.MakeEntry | final-project/scripts/modules/weather.js:61-69 | the entry carries the sample's own weekday label and its time, condition, icon, raw and formatted temperature |
| Weather.StepEffect | final-project/scripts/modules/weather.js:50-70 | one forEach visit: a sample from this morning changes nothing; a new weekday is appended with the sample's entry; a known weekday keeps its place and takes the sample's entry only when strictly nearer to noon |
| Weather.DayNameInjective | final-project/scripts/modules/weather.js:45-52 | distinct weekdays have distinct labels, so one bucket is one weekday |
| Weather.KeyWitness | final-project/scripts/modules/weather.js:50-70 | every bucket comes from some retained sample with that label |
| Weather.KeyPresent | final-project/scripts/modules/weather.js:54-70 | every retained sample has a bucket for its label |
| Weather.BucketKeys | final-project/scripts/modules/weather.js:50-71 | a label has a bucket iff some retained sample carries it |
| Weather.BucketNearest | final-project/scripts/modules/weather.js:60-69 | each bucket holds a sample nearest to noon among its day's retained samples, and strictly nearer than every earlier one (first seen wins a tie) |
| Weather.NearestKept | final-project/scripts/modules/weather.js:60 | a sample that is not strictly nearer to noon does not displace the kept one |
| Weather.NearestLast | final-project/scripts/modules/weather.js:60-69 | a sample strictly nearer than all earlier ones of its day becomes the kept one |
| Weather.NearestStep | final-project/scripts/modules/weather.js:60-69 | one forEach step keeps the bucket of a day holding its nearest sample |
| Weather.BucketOrder | final-project/scripts/modules/weather.js:60-73 | keys are listed in the order of each label's first retained sample |
| Weather.SkippedSampleIgnored | final-project/scripts/modules/weather.js:54-56 | removing a sample of today taken before noon leaves the dictionary unchanged |
| Weather.CardCount | final-project/scripts/modules/weather.js:73 | the number of cards is the number of buckets capped at six |
| Weather.CardOfBucket | final-project/scripts/modules/weather.js:73-77 | card i is bucket i's entry, up to the weekend label |
| Weather.ForecastNearest | final-project/scripts/modules/weather.js:60-73 | every card shows the earliest retained sample of its weekday that is nearest to noon |
| Weather.ForecastFirstAppearance | final-project/scripts/modules/weather.js:60-73 | cards appear in the order in which their weekdays first appear among the retained samples |
| Weather.ForecastKeepsEarliestDays | final-project/scripts/modules/weather.js:60-73 | a retained weekday is missing from the cards only when there are six cards and every shown weekday appeared before it |
| Weather.ForecastIgnoresThisMorning | final-project/scripts/modules/weather.js:54-56 | a sample from this morning can be removed anywhere in the list without changing the cards |
| Weather.OnlyThisMorningGivesNothing | final-project/scripts/modules/weather.js:54-73 | a list made only of this morning's samples yields an empty dictionary and no cards |
| Weather.GetLocationName | final-project/scripts/modules/weather.js:99-111 | the first result's name and country; no result or a failed lookup gives "Current Location" with an empty country |
| Marine.FindNext | final-project/scripts/modules/marine.js:122 | the index found is the first in list order whose time is strictly after now; none means no prediction is after now |
| Marine.GetTideStatus | final-project/scripts/modules/marine.js:115-140 | Unknown/Unknown without data, without predictions or without a later prediction; otherwise Rising with "Next High: …" iff the first later prediction is "H", else Falling with "Next Low: …" |
| Marine.SortedFindsEarliest | final-project/scripts/modules/marine.js:122 | when the predictions are sorted by time, the first later one is also the earliest later one |
| Marine.LocationSeed | final-project/scripts/modules/marine.js:93 | the seed lies in 0..11 |
| Marine.HourInCycle | final-project/scripts/modules/marine.js:95 | the hour in the 12-hour cycle lies in 0..11 |
| Marine.GeneratedTides | final-project/scripts/modules/marine.js:90-113 | exactly two tides of opposite types; the first is high iff the hour in cycle is below 6; it lies more than 0 and at most 6 hours ahead; the second is 6 hours after it; heights 3.2/0.7 after a high, 0.8/3.4 after a low |
| Marine.GenerateTidePredictions | final-project/scripts/modules/marine.js:90-113 | the two pushes build exactly GeneratedTides |
| Marine.GeneratedStatus | final-project/scripts/modules/marine.js:96-139 | the status of generated tides is never Unknown: Rising iff the next tide is high |
| Marine.ProviderTides | final-project/scripts/modules/marine.js:52 | the provider's list exactly when `tides` is present, non-empty and its first element has a `tide` list |
| Marine.ConvertTide | final-project/scripts/modules/marine.js:54-58 | "high" becomes "H" and anything else "L"; the time and height are kept |
| Marine.Days | final-project/scripts/modules/marine.js:43-45 | accepted data has at least one forecast day |
| Marine.HourRecord | final-project/scripts/modules/marine.js:49 | the record of the current hour, else hour 0; none only for an empty hour list |
| Marine.ReadHour | final-project/scripts/modules/marine.js:63-67 | wind speed is kph / 3.6; a missing wind degree, swell height or swell period is 0; swell direction is the 16-point direction, else the degree text, else "Unknown" |
| Marine.ProcessSpec | final-project/scripts/modules/marine.js:40-88 | an invalid format, a missing location when the provider gives no tides, or an empty hour list throws, and nothing else does; otherwise the provider tides are copied in order and the generator is used only when the provider gives none |
| Marine.ProcessWeatherApiData | final-project/scripts/modules/marine.js:40-88 | the format check, the push loop over provider tides and the fallback to generated tides return exactly ProcessSpec |
| Marine.MockMarineData | final-project/scripts/modules/marine.js:142-162 | two predictions, "H" at +3 h and "L" at +9 h, and one hour with wind from 280 and swell from "SE" |
| Marine.MockStatus | final-project/scripts/modules/marine.js:146-147 | just after the fallback is made, the tide is Rising towards the high at +3 h |
| Marine.FetchMarineData | final-project/scripts/modules/marine.js:6-38 | a failed request or a thrown processing error gives the fallback record; otherwise the processed data |
| Marine.FetchAlwaysUsable | final-project/scripts/modules/marine.js:32-37 | whatever the provider answers, the record has tide predictions and exactly one hour |
| Utilities.GetWindDirection | final-project/scripts/modules/utilities.js:24-31 | Onshore exactly when 90 < abs(degrees - orientation) < 270, else Offshore; the default orientation is 270 |
| Utilities.WindSymmetric | final-project/scripts/modules/utilities.js:25 | orientation + d and orientation - d classify alike |
| Utilities.WindMatchesCompass | final-project/scripts/modules/utilities.js:24-31 | for angles in [0, 360], Offshore iff the shorter compass angle to the orientation is at most 90 |
| Home.Swap | final-project/scripts/index.js:34 | the two positions trade elements and every other position is kept |
| Home.SwapPermutes | final-project/scripts/index.js:34 | a swap keeps the multiset of elements |
| Home.ShuffleFrom | final-project/scripts/index.js:32-35 | the working array after the loop has run down to a given index keeps the input's length; ShuffleFromPermutes and ShuffleKeepsTail state what it contains |
| Home.Shuffled | final-project/scripts/index.js:30-35 | the fully shuffled copy keeps the input's length; ShuffledPermutes states it is a permutation |
| Home.ShuffleFromPermutes | final-project/scripts/index.js:32-35 | whatever the draws, the working copy stays a permutation of the input |
| Home.ShuffledPermutes | final-project/scripts/index.js:30-35 | the shuffled copy is a permutation of the input |
| Home.ShuffleKeepsTail | final-project/scripts/index.js:32-35 | a step with loop variable i never touches a position above i |
| Home.ShuffleInPlace | final-project/scripts/index.js:32-35 | the descending swap loop leaves the array equal to the shuffled copy |
| Home.GetRandomSurfSpots | final-project/scripts/index.js:29-38 | min(count, n) spots, count 3 by default, the prefix of the shuffled copy, no element more often than the input holds it; the caller's array is left alone |
| Home.FormatSpot | final-project/scripts/index.js:41-55 | image "images/surf-spots/" + imgUrl, link "surf-spots.html#" + id, the conditions line from difficulty, wave type and average height; id and imgUrl dropped |
| Home.FormatSpotsForUI | final-project/scripts/index.js:40-56 | one formatted record per spot, same length and order |
| Home.FormattedSpotInDialog | final-project/scripts/index.js:41-55 | a formatted spot's dialog shows the spot's own name, location, wave and season sections, and its picture under imgUrl |
| Home.LocationDisplayText | final-project/scripts/index.js:106-110 | "Weather for: " + name, with ", " + country only for a non-empty country |
| Home.UnknownPlaceDisplay | final-project/scripts/index.js:106-110 | a failed place lookup reads "Weather for: Current Location" |
| Home.LocationDisplayStartsWithName | final-project/scripts/index.js:107 | the line starts with "Weather for: " followed by the place name |
| Home.SampleSpotsData | final-project/scripts/modules/data.js:1-20 | three sample cards, each with a name, image, conditions line and link, and without a location or id |
| Home.HomeSpots | final-project/scripts/index.js:235-244 | an empty spot list shows the three sample cards; otherwise min(3, n) formatted random spots |
| Home.HomeSpotsFromFetched | final-project/scripts/index.js:237-241 | every card shown for a non-empty list is the formatted form of some fetched spot |
| ChamberHome.GetWeatherIcon | chamber/scripts/scripts_home.js:28-37 | 2xx thunderstorm, 3xx drizzle, 5xx rain, 6xx snow, 7xx fog, 800 sunny, above 800 cloudy, every other code sunny |
| ChamberHome.GroupIcon | chamber/scripts/scripts_home.js:28-37 | the independent per-group table: sunny for every group except 2, 3, 5, 6 and 7 |
| ChamberHome.IconByGroup | chamber/scripts/scripts_home.js:28-37 | below 800 the icon depends only on the condition group; within group 8 only 800 is sunny |
| ChamberHome.EveryEighth | chamber/scripts/scripts_home.js:90 | ceil(n / 8) entries, entry k being list entry 8k |
| ChamberHome.ForecastSample | chamber/scripts/scripts_home.js:90 | at most three entries, entry k being list entry 8k |
| ChamberHome.ForecastShowsFirstThreeDays | chamber/scripts/scripts_home.js:90 | the entries shown are those at indices 0, 8 and 16, each shown when the list reaches it |
| ChamberHome.FilterFeatured | chamber/scripts/scripts_home.js:128 | exactly the members of level 2 or 3, each as often as in the input |
| ChamberHome.RemoveAt | chamber/scripts/scripts_home.js:135 | the pool one shorter, elements after the index moved down by one |
| ChamberHome.RemoveAtMultiset | chamber/scripts/scripts_home.js:135 | the splice moves exactly one copy of the drawn member out of the pool |
| ChamberHome.Picks | chamber/scripts/scripts_home.js:133-136 | the loop's picks for given draws: exactly count members; PicksFromPool and PicksDistinct state which |
| ChamberHome.PicksFromPool | chamber/scripts/scripts_home.js:133-136 | no member is picked more often than the pool holds it |
| ChamberHome.PicksDistinct | chamber/scripts/scripts_home.js:133-136 | from distinct members, the picks are distinct |
| ChamberHome.PickFromPool | chamber/scripts/scripts_home.js:129-136 | the splice-and-push loop returns exactly the picks of its draws |
| ChamberHome.DisplayMembers | chamber/scripts/scripts_home.js:126-136 | min(3, eligible) members, all gold or silver, none more often than the member list holds it |
| ChamberHome.MembershipLabel | chamber/scripts/scripts_home.js:141 | "Silver" iff membership is 2, otherwise "Gold" |
| ChamberHome.LabelOfFeatured | chamber/scripts/scripts_home.js:141 | among spotlight members, "Gold" iff membership is 3 |
| Text.Truthy | final-project/scripts/surf-spots.js:82 | a missing field and the empty string are falsy; any other text is truthy |
| Text.Interp | final-project/scripts/modules/modal.js:42 | a template literal prints a present field's text and "undefined" for a missing one |
| Text.Lower | final-project/scripts/surf-spots.js:169 | same length; every ASCII capital becomes its small letter and no capital remains; other characters are unchanged |
| Text.TrimKeepsCharacters | final-project/scripts/surf-spots.js:169 | trimming only removes characters |
| Text.ParseInt | chamber/scripts/script_discover.js:20 | no number iff no digit follows the leading blanks and sign; an all-digit text gives its value |
| Text.ParseIntOfNatToString | chamber/scripts/script_discover.js:20-30 | a stored timestamp reads back as the same number |
| Discover.DaysBetween | chamber/scripts/script_discover.js:20-21 | no value (NaN) iff the stored text does not parse; otherwise the floor of elapsed / 86400000 |
| Discover.VisitMessage | chamber/scripts/script_discover.js:16-28 | the welcome text when nothing is stored; otherwise "Back so soon! Awesome!" iff less than a day has passed |
| Discover.VisitLog.DisplayLastVisitMessage | chamber/scripts/script_discover.js:14-31 | shows the message for the stored visit and then stores now, whichever message was shown |
| Discover.RevisitWithinADay | chamber/scripts/script_discover.js:20-24 | a stored visit less than a day old gives "Back so soon! Awesome!" |
| Discover.VisitTwice | chamber/scripts/script_discover.js:21-30 | two calls at the same time: the second says "Back so soon! Awesome!" |
| Discover.DaysBetweenIs | chamber/scripts/script_discover.js:21 | the whole days between two timestamps are the n with n days <= elapsed < n + 1 days |
| Discover.OneDayLater | chamber/scripts/script_discover.js:26-27 | one to just under two days later, the message says "1 day" |
| Discover.DaysLater | chamber/scripts/script_discover.js:26-27 | n >= 2 days later, the message says "n days" |
| Discover.ClockSkewIsBackSoon | chamber/scripts/script_discover.js:23-24 | a clock that went backwards also gives "Back so soon! Awesome!" |
| Profile.Label | final-project/scripts/profile.js:134 | a known key's label, an unknown key itself |
| Profile.FormatChoice | final-project/scripts/profile.js:124-149 | an empty or missing value is "Not specified", otherwise the value's label |
| Profile.FormatExperience | final-project/scripts/profile.js:124-135 | "Not specified" when empty, the level's name for a known key, an unknown value as it is |
| Profile.FormatBoardType | final-project/scripts/profile.js:137-149 | "Not specified" when empty, the board's name for a known key, an unknown value as it is |
| Profile.MapLabels | final-project/scripts/profile.js:161 | one label per item, same length and order |
| Profile.FormatList | final-project/scripts/profile.js:151-174 | an empty list is "None selected", otherwise the labels joined with ", " in list order |
| Profile.FormatWaveSizes | final-project/scripts/profile.js:151-162 | "None selected" when empty; a single known size shows its range |
| Profile.FormatNotifications | final-project/scripts/profile.js:164-174 | "None selected" when empty; a single known kind shows its name |
| Profile.FormatChoiceIdempotent | final-project/scripts/profile.js:124-149 | formatting a formatted experience or board again changes nothing |
| Profile.WaveSizesJoined | final-project/scripts/profile.js:161 | one size shows its label; two are joined with ", " in order |
| Profile.ListText | final-project/scripts/profile.js:101-103 | "None selected" for a missing, falsy or empty list, the formatted list for an array, and a failure for a truthy non-array |
| Profile.ProfileDetails | final-project/scripts/profile.js:98-122 | fails iff a list field is a truthy non-array; otherwise seven fixed lines with "Not specified" for an empty home spot, "About Me" only for a non-empty bio, "Last Updated" always last |
| Profile.SelectedValues | final-project/scripts/profile.js:49-52 | a value is returned iff its box is checked; SelectedValuesOne and SelectedValuesAppend state the order and the duplicates |
| Profile.SelectedValuesOne | final-project/scripts/profile.js:49-52 | one box gives its value when checked and nothing otherwise |
| Profile.SelectedValuesAppend | final-project/scripts/profile.js:49-52 | the values of two consecutive runs of boxes are the first run's values followed by the second's, so page order and duplicates are kept |
| Profile.ProfileFromForm | final-project/scripts/profile.js:13-23 | the saved record holds the checked boxes' values as arrays and the time of saving |
| Profile.SavedProfileDisplays | final-project/scripts/profile.js:25-30 | a profile saved from the form always displays without failure |
| Profile.Reset | final-project/scripts/profile.js:40 | a reset form has empty fields and no checked box |
| Profile.FirstWithValue | final-project/scripts/profile.js:79 | the first box with that value, or none when no box has it |
| Profile.MarkValue | final-project/scripts/profile.js:79-80 | only the first box with the value becomes checked; nothing else changes |
| Profile.MarkAll | final-project/scripts/profile.js:77-89 | marking a list of values keeps the boxes' values and count |
| Profile.MarkAllChecks | final-project/scripts/profile.js:77-89 | after marking, a box with distinct values is checked iff it was checked or its value is listed |
| Profile.TextOrEmpty | final-project/scripts/profile.js:70-75 | a missing field loads as "" |
| Profile.RestoreForm | final-project/scripts/profile.js:70-89 | text fields from the record with "" for missing ones; boxes restored only from array fields |
| Profile.RestoreBoxes | final-project/scripts/profile.js:77-89 | restoring the checked values of a distinct-valued form onto a reset form gives the same boxes back |
| Profile.ReloadRestoresForm | final-project/scripts/profile.js:63-96 | saving a form and loading it into a reset form restores the form |
| Profile.ProfilePage.DisplayProfileData | final-project/scripts/profile.js:98-122 | the card becomes visible first; its lines are replaced only when ProfileDetails succeeds |
| Profile.ProfilePage.Submit | final-project/scripts/profile.js:10-34 | stores the profile made from the form, shows the saved message and displays it |
| Profile.ProfilePage.Clear | final-project/scripts/profile.js:36-47 | when confirmed: storage emptied, form reset, card hidden; otherwise nothing changes |
| Profile.ProfilePage.LoadProfileData | final-project/scripts/profile.js:63-96 | with a parsed record, the form becomes RestoreForm of it and the card is displayed; without one, nothing changes |
| Profile.SaveAndReload | final-project/scripts/profile.js:10-96 | submitting, resetting and loading gives back the same form and card |
| Spots.LocationParts | final-project/scripts/surf-spots.js:105-109 | beach, city, state and country in that order, absent or empty ones skipped; none only when all are missing |
| Spots.LocationText | final-project/scripts/surf-spots.js:111 | empty when no part is present; a single part is the whole text; a present beach starts it |
| Spots.FullLocationText | final-project/scripts/surf-spots.js:105-111 | with all four parts the text is "beach, city, state, country" |
| Text.Trim | final-project/scripts/surf-spots.js:169 | the input without leading and trailing blanks; an all-blank input trims to "" |
| SurfSpots.CardImage | final-project/scripts/surf-spots.js:88-93 | the spot's picture under images/surf-spots/, else the placeholder |
| SurfSpots.CreateSpotCard | final-project/scripts/surf-spots.js:78-148 | fails iff the spot has no location; otherwise a fresh card with data-difficulty only for a truthy difficulty, the image with its fallback, the name and the joined location |
| SurfSpots.PassesFilter | final-project/scripts/surf-spots.js:179-183 | "all" passes everything; any other filter passes iff the lowercased difficulty contains the lowercased filter, so a missing difficulty fails every non-empty filter |
| SurfSpots.ApplyFilter | final-project/scripts/surf-spots.js:175-186 | "all" shows every card; otherwise a card is shown iff its lowercased difficulty contains the lowercased filter; only display changes |
| SurfSpots.AllShowsEverything | final-project/scripts/surf-spots.js:179-180 | "all" passes every difficulty |
| SurfSpots.MatchingDifficultyShown | final-project/scripts/surf-spots.js:182-183 | a difficulty equal to the filter in any letter case passes |
| SurfSpots.NoDifficultyHidden | final-project/scripts/surf-spots.js:182-183 | a card without a difficulty is hidden by every non-empty filter other than "all" |
| SurfSpots.SearchTerm | final-project/scripts/surf-spots.js:169 | no longer than the input, no ASCII capital, no blank at either end; an all-blank input gives the empty term |
| SurfSpots.MatchesSearch | final-project/scripts/surf-spots.js:195 | the empty term matches every card; any other term matches iff the lowercased name or location contains it |
| SurfSpots.FilterBySearchTerm | final-project/scripts/surf-spots.js:188-201 | a card is shown iff its lowercased name or location contains the term, or the term is empty; only display changes |
| SurfSpots.OnSearchInput | final-project/scripts/surf-spots.js:166-171 | the typed text is lowercased and trimmed before filtering |
| SurfSpots.BlankSearchShowsEverything | final-project/scripts/surf-spots.js:169-199 | typing only blanks shows every card |
| SurfSpots.NameMatchShown | final-project/scripts/surf-spots.js:195 | a term found in the card's name shows the card |
| SurfSpots.OnFilterClick | final-project/scripts/surf-spots.js:155-163 | afterwards exactly the clicked button is active, and the cards are filtered by its value |
| Modal.ModalImage | final-project/scripts/modules/modal.js:38 | the spot's image when truthy, else "images/surf-spots/" + imgUrl |
| Modal.LocationSection | final-project/scripts/modules/modal.js:48-71 | present iff the spot has a location; the joined parts paragraph only when a part exists; the coordinates line last, only with coordinates |
| Modal.WaveSection | final-project/scripts/modules/modal.js:73-85 | present iff wave type, difficulty or average height is present; the maximum height is listed only inside it |
| Modal.SeasonSection | final-project/scripts/modules/modal.js:87-98 | present iff best season, consistency or crowd level is present, with one to three lines |
| Modal.DescriptionSection | final-project/scripts/modules/modal.js:100-107 | the description, else the conditions text; absent when both are missing |
| Modal.ModalContent | final-project/scripts/modules/modal.js:34-113 | the title is the spot's name, the image the dialog image, at most four sections; "Wave Information" and "Location" appear exactly under their conditions |
| Modal.MaxHeightAloneHidden | final-project/scripts/modules/modal.js:73-85 | a maximum wave height alone does not open the Wave Information section |
| Modal.Page.CreateModalContainer | final-project/scripts/modules/modal.js:1-32 | returns the dialog already on the page, else appends a new closed one |
| Modal.ModalDialog.Close | final-project/scripts/modules/modal.js:20-23 | the close button closes the dialog and keeps its content |
| Modal.ModalDialog.OnClick | final-project/scripts/modules/modal.js:25-29 | a click on the backdrop closes the dialog; a click inside it leaves it as it was |
| Modal.Page.ShowSpotDetails | final-project/scripts/modules/modal.js:34-113 | the page's single dialog holds the spot's content and is open |
| Modal.ShowTwice | final-project/scripts/modules/modal.js:2-6 | showing two spots in a row leaves one dialog, holding the second spot |

## Left out

- The network, `fetch`, browser geolocation, `localStorage` as a service, and the DOM itself. Each handler is modelled from an already-parsed response or from the state it reads. The async orchestration of `loadLocationWeather` and `Promise.all` is not modelled.
- `final-project/scripts/modules/ui.js`, `location.js` and `data.js`, and `chamber/scripts/script_join.js` and `script_directory.js`, are DOM wiring and constants. They are not part of this model, except the three sample cards of `data.js`, which `Home.SampleSpotsData` copies.
- Floating point. Temperatures are opaque `real`s formatted by a parameter. Fahrenheit/Celsius conversion, `toFixed` and `metersToFeet` are not modelled.
- Marine.ReadHour: `wind_kph / 3.6` is exact real division, without IEEE rounding.
- Marine.LocationSeed: takes latitude and longitude as integer hundredths of a degree. `lat * 100` on floats is not modelled.
- Locale date and time formatting. `toLocaleTimeString` and `toLocaleDateString` are a function parameter. A sample's local weekday and hour are supplied fields.
- Tide heights are kept as text. `tide.height.toString()` is not modelled for numbers.
- Numeric JSON fields of a spot are kept as the text a template literal prints. A numeric 0 being falsy is not modelled.
- `Math.random` is a supplied sequence of draws. `Home.ValidChoices` and `ChamberHome.ValidDraws` state the ranges `Math.floor(Math.random() * k)` yields.
- Text.Lower / Text.Trim: only ASCII is modelled. `Lower` folds only A-Z, while `toLowerCase` folds every Unicode letter ("É" becomes "é"). `Trim` strips only space, tab, line feed, vertical tab, form feed and carriage return, while `trim` also strips U+00A0, U+FEFF, U+2028, U+2029 and the other Unicode space separators. So `SurfSpots.ApplyFilter`, `SurfSpots.FilterBySearchTerm` and `SurfSpots.OnSearchInput` can decide differently from the browser on names, difficulties or terms with such characters.
- Text.ParseInt: skips only the space, tab, line feed, vertical tab, form feed and carriage return before the sign. The other Unicode blanks JavaScript skips are not modelled, and neither are `parseInt` with a radix, a `0x` prefix or values beyond 2^53.
- Weather.ProcessForecastData: the `try`/`catch` around a malformed list item is not modelled. Samples are well formed by their type.
- Profile: `JSON.stringify` and `JSON.parse` are identity on the record, except that unparsable storage is a `Malformed` value. Storage quota errors are not modelled.
- Profile.Label: a key that names an `Object.prototype` property (such as "constructor") is a plain unknown key in the model.
- Profile.FirstWithValue: the selector is found by exact value. A stored value containing characters that break the CSS selector is not modelled.
- Profile.Reset: `form.reset()` is taken to give empty text fields and unchecked boxes. HTML default values are not modelled.
- Select elements accept any stored text, so an unknown option value is kept, not cleared.
- `setupFilterListeners` returns early when the page has no filter buttons, which also leaves the search box unwired. The wiring of listeners is not modelled; only what each handler does is.
- Profile.ProfilePage: `showMessage` also hides the message element 3 seconds later with `style.display = 'none'`, and nothing shows it again, so every later message stays invisible. The model keeps only the message text; the timer and the element's visibility are not modelled.
- Modal.Page.ShowSpotDetails: `showModal` on a dialog that is already open throws in browsers. The model simply keeps it open.

Two behaviours of the code worth knowing:

- `Utilities.GetWindDirection` compares the raw difference of the angles, so it is not periodic in 360 degrees: against the default orientation of 270, a wind from 10 degrees is Onshore, but the same direction written as 730 degrees is Offshore. `Utilities.WindMatchesCompass` shows it agrees with the compass rule for angles in [0, 360].
- `Marine.GetTideStatus` takes the first future event in list order. `Marine.SortedFindsEarliest` shows this is the earliest future event when the list is sorted by time.
