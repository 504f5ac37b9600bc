/** The chamber of commerce home page: the weather icon for an
    OpenWeatherMap condition code, the three forecast entries taken from the
    3-hourly list, and the spotlight of up to three gold or silver members
    drawn at random without replacement. `Math.random` is replaced by a
    supplied sequence of draws. */
module ChamberHome {

  function Min(a: nat, b: nat): nat {
    if a <= b then a else b
  }

  // ------------------------------------------------------------------------
  // Weather icon

  /** `getWeatherIcon`: the icon file for a condition code. */
  function GetWeatherIcon(weatherCode: int): (icon: string)
    ensures 200 <= weatherCode < 300 ==> icon == "thunderstorm.svg"
    ensures 300 <= weatherCode < 400 ==> icon == "drizzle.svg"
    ensures 500 <= weatherCode < 600 ==> icon == "rain.svg"
    ensures 600 <= weatherCode < 700 ==> icon == "snow.svg"
    ensures 700 <= weatherCode < 800 ==> icon == "fog.svg"
    ensures weatherCode > 800 ==> icon == "cloudy.svg"
    ensures weatherCode == 800 || weatherCode < 200 || 400 <= weatherCode < 500 ==> icon == "sunny.svg"
  {
    if weatherCode >= 200 && weatherCode < 300 then "thunderstorm.svg"
    else if weatherCode >= 300 && weatherCode < 400 then "drizzle.svg"
    else if weatherCode >= 500 && weatherCode < 600 then "rain.svg"
    else if weatherCode >= 600 && weatherCode < 700 then "snow.svg"
    else if weatherCode >= 700 && weatherCode < 800 then "fog.svg"
    else if weatherCode == 800 then "sunny.svg"
    else if weatherCode > 800 then "cloudy.svg"
    else "sunny.svg"
  }

  /** The icon of each OpenWeatherMap condition group, the group being the
      code's hundreds digit. */
  function GroupIcon(group: int): (icon: string)
    ensures icon == "sunny.svg" <==> !(group == 2 || group == 3 || group == 5 || group == 6 || group == 7)
  {
    match group
    case 2 => "thunderstorm.svg"
    case 3 => "drizzle.svg"
    case 5 => "rain.svg"
    case 6 => "snow.svg"
    case 7 => "fog.svg"
    case _ => "sunny.svg"
  }

  /** Below the clear/cloudy group 8, the icon depends only on the group;
      within group 8 only the exact code 800 is sunny. */
  lemma IconByGroup(weatherCode: int)
    ensures 0 <= weatherCode < 800 ==> GetWeatherIcon(weatherCode) == GroupIcon(weatherCode / 100)
    ensures 800 <= weatherCode < 900 ==> (GetWeatherIcon(weatherCode) == "sunny.svg" <==> weatherCode == 800)
  {
    if 0 <= weatherCode < 800 {
      var g := weatherCode / 100;
      assert 100 * g <= weatherCode < 100 * g + 100;
    }
  }

  // ------------------------------------------------------------------------
  // Forecast sampling

  /** `list.filter((item, index) => index % 8 === 0)`: one entry per day of
      3-hour steps. */
  function EveryEighth<T>(list: seq<T>): (r: seq<T>)
    ensures |r| == (|list| + 7) / 8
    ensures forall k :: 0 <= k < |r| ==> 8 * k < |list| && r[k] == list[8 * k]
    decreases |list|
  {
    if |list| <= 8 then (if list == [] then [] else [list[0]])
    else
      var rest := EveryEighth(list[8..]);
      assert forall k :: 0 <= k < |rest| ==> rest[k] == list[8 * (k + 1)];
      [list[0]] + rest
  }

  /** The entries `displayWeatherForecast` shows: the first three of those. */
  function ForecastSample<T>(list: seq<T>): (r: seq<T>)
    ensures |r| == Min(3, (|list| + 7) / 8)
    ensures forall k :: 0 <= k < |r| ==> r[k] == list[8 * k]
  {
    var every := EveryEighth(list);
    every[..Min(3, |every|)]
  }

  /** Only the entries at indices 0, 8 and 16 are ever shown, and each of
      them is shown when the list reaches it. */
  lemma ForecastShowsFirstThreeDays<T>(list: seq<T>)
    ensures var r := ForecastSample(list);
      && (|list| > 0 ==> r[0] == list[0])
      && (|list| > 8 ==> r[1] == list[8])
      && (|list| > 16 ==> r[2] == list[16])
      && |r| <= 3
  {
  }

  // ------------------------------------------------------------------------
  // Member spotlight

  datatype Member = Member(name: string, membership: int)

  /** Gold (3) and silver (2) members are eligible for the spotlight. */
  predicate Featured(m: Member) {
    m.membership == 2 || m.membership == 3
  }

  /** `members.filter(member => member.membership === 2 || member.membership === 3)`. */
  function FilterFeatured(members: seq<Member>): (r: seq<Member>)
    ensures |r| <= |members|
    ensures forall m :: m in r ==> Featured(m)
    ensures forall m :: multiset(r)[m] == (if Featured(m) then multiset(members)[m] else 0)
  {
    if members == [] then []
    else
      var rest := FilterFeatured(members[1..]);
      assert members == [members[0]] + members[1..];
      if Featured(members[0]) then [members[0]] + rest else rest
  }

  /** The draws fit the shrinking pool: the i-th draw, made when i members
      have been taken out, is below the pool's length then. */
  predicate ValidDraws(draws: seq<nat>, poolSize: nat, count: nat) {
    count <= poolSize && |draws| >= count && forall i :: 0 <= i < count ==> draws[i] < poolSize - i
  }

  /** `pool.splice(index, 1)`: the pool without its element at `index`. */
  function RemoveAt<T>(pool: seq<T>, index: nat): (r: seq<T>)
    requires index < |pool|
    ensures |r| == |pool| - 1
    ensures forall k :: 0 <= k < index ==> r[k] == pool[k]
    ensures forall k :: index <= k < |r| ==> r[k] == pool[k + 1]
  {
    pool[..index] + pool[index + 1..]
  }

  /** Taking `index` out moves exactly one copy of that element from the pool to the picks. */
  lemma RemoveAtMultiset<T>(pool: seq<T>, index: nat)
    requires index < |pool|
    ensures multiset(RemoveAt(pool, index)) + multiset{pool[index]} == multiset(pool)
  {
    assert pool == pool[..index] + [pool[index]] + pool[index + 1..];
  }

  /** The members the loop picks: each draw is spliced out of the pool. */
  function Picks<T>(pool: seq<T>, draws: seq<nat>, count: nat): (r: seq<T>)
    requires ValidDraws(draws, |pool|, count)
    ensures |r| == count
    decreases count
  {
    if count == 0 then []
    else [pool[draws[0]]] + Picks(RemoveAt(pool, draws[0]), draws[1..], count - 1)
  }

  /** No member is picked more often than the pool holds it: a member is
      never chosen twice. */
  lemma {:induction false} PicksFromPool<T>(pool: seq<T>, draws: seq<nat>, count: nat)
    requires ValidDraws(draws, |pool|, count)
    ensures multiset(Picks(pool, draws, count)) <= multiset(pool)
    decreases count
  {
    if count > 0 {
      var rest := RemoveAt(pool, draws[0]);
      assert ValidDraws(draws[1..], |rest|, count - 1);
      PicksFromPool(rest, draws[1..], count - 1);
      RemoveAtMultiset(pool, draws[0]);
    }
  }

  ghost predicate Distinct<T>(s: seq<T>) {
    forall i, j :: 0 <= i < j < |s| ==> s[i] != s[j]
  }

  /** From a list of distinct members, the picks are distinct too. */
  lemma {:induction false} PicksDistinct<T>(pool: seq<T>, draws: seq<nat>, count: nat)
    requires ValidDraws(draws, |pool|, count) && Distinct(pool)
    ensures Distinct(Picks(pool, draws, count))
    decreases count
  {
    if count > 0 {
      var d := draws[0];
      var rest := RemoveAt(pool, d);
      assert ValidDraws(draws[1..], |rest|, count - 1);
      forall i, j | 0 <= i < j < |rest| ensures rest[i] != rest[j] {
        var i' := if i < d then i else i + 1;
        var j' := if j < d then j else j + 1;
        assert rest[i] == pool[i'] && rest[j] == pool[j'] && i' < j';
      }
      PicksDistinct(rest, draws[1..], count - 1);
      PicksFromPool(rest, draws[1..], count - 1);
      var tail := Picks(rest, draws[1..], count - 1);
      forall k | 0 <= k < |tail| ensures tail[k] != pool[d] {
        assert tail[k] in multiset(rest);
        var q :| 0 <= q < |rest| && rest[q] == tail[k];
        assert rest[q] == (if q < d then pool[q] else pool[q + 1]);
      }
      assert Picks(pool, draws, count) == [pool[d]] + tail;
    }
  }

  /** The loop of `displayMembers`: `count` times, the drawn member is
      spliced out of the pool and pushed onto the picks. */
  method PickFromPool<T>(pool: seq<T>, draws: seq<nat>, count: nat) returns (picked: seq<T>)
    requires ValidDraws(draws, |pool|, count)
    ensures picked == Picks(pool, draws, count)
  {
    var membersPool := pool;
    picked := [];
    for i := 0 to count
      invariant |membersPool| == |pool| - i
      invariant ValidDraws(draws[i..], |membersPool|, count - i)
      invariant picked + Picks(membersPool, draws[i..], count - i) == Picks(pool, draws, count)
    {
      var randomIndex := draws[i];
      assert draws[i..][1..] == draws[i + 1..];
      picked := picked + [membersPool[randomIndex]];
      membersPool := RemoveAt(membersPool, randomIndex);
    }
  }

  /** `displayMembers`: min(3, eligible) members, picked from the eligible
      ones, none of them more often than the member list holds it. */
  method DisplayMembers(members: seq<Member>, draws: seq<nat>) returns (randomMembers: seq<Member>)
    requires ValidDraws(draws, |FilterFeatured(members)|, Min(3, |FilterFeatured(members)|))
    ensures randomMembers == Picks(FilterFeatured(members), draws, Min(3, |FilterFeatured(members)|))
    ensures |randomMembers| == Min(3, |FilterFeatured(members)|)
    ensures forall m :: m in randomMembers ==> Featured(m)
    ensures multiset(randomMembers) <= multiset(members)
  {
    var filteredMembers := FilterFeatured(members);
    var count := Min(3, |filteredMembers|);
    randomMembers := PickFromPool(filteredMembers, draws, count);
    PicksFromPool(filteredMembers, draws, count);
    assert multiset(filteredMembers) <= multiset(members);
    assert forall m :: m in randomMembers ==> m in multiset(filteredMembers);
  }

  /** The heading of a spotlight card. */
  function MembershipLabel(membership: int): (heading: string)
    ensures heading == "Silver" || heading == "Gold"
    ensures heading == "Silver" <==> membership == 2
  {
    if membership == 2 then "Silver" else "Gold"
  }

  /** Among spotlight members, "Gold" means membership level 3. */
  lemma LabelOfFeatured(m: Member)
    requires Featured(m)
    ensures MembershipLabel(m.membership) == "Gold" <==> m.membership == 3
  {
  }
}
