/**
 * The International Space Station fetcher: live position with a coarse region name, and the
 * number of crew aboard.
 */
module Iss {
  import opened Options
  import opened Display
  import opened Feed

  /** The decoded position body. */
  datatype Position =
    | IssNowObject(message: string, lat: Reading, lon: Reading, clock: Option<string>)
      // `clock`: the timestamp as "%H:%M UTC", `None` when converting it raises
    | IssNowOther(truthy: bool)  // a list or a scalar

  /** One entry of the people list. */
  datatype Person = Person(craft: string) | NotAPerson

  /** The decoded crew body. */
  datatype Astros =
    | AstrosObject(message: string, people: seq<Person>)
    | AstrosOther(truthy: bool)

  /** The eleven region names. */
  const Regions: seq<string> := [
    "over Africa", "over Asia", "over Pacific", "over Americas", "over Atlantic",
    "over N.America", "over Europe", "over N.Asia",
    "over S.America", "over S.Africa", "over Oceania"
  ]

  /** `_get_location_description`: three latitude bands, each cut into regions by longitude (strict bounds). */
  function LocationDescription(lat: real, lon: real): (r: string)
    ensures r in Regions
  {
    if -30.0 < lat < 30.0 then
      if -20.0 < lon < 60.0 then "over Africa"
      else if 60.0 < lon < 150.0 then "over Asia"
      else if 150.0 < lon || lon < -150.0 then "over Pacific"
      else if -150.0 < lon < -50.0 then "over Americas"
      else "over Atlantic"
    else if lat > 30.0 then
      if -150.0 < lon < -50.0 then "over N.America"
      else if -50.0 < lon < 60.0 then "over Europe"
      else "over N.Asia"
    else
      if -80.0 < lon < 20.0 then "over S.America"
      else if 20.0 < lon < 150.0 then "over S.Africa"
      else "over Oceania"
  }

  /** The tropical fallback takes the longitudes between the Americas and Africa and every boundary the strict tests miss. */
  lemma AtlanticIsTheTropicalRemainder(lat: real, lon: real)
    requires -30.0 < lat < 30.0
    ensures LocationDescription(lat, lon) == "over Atlantic" <==>
      (-50.0 <= lon <= -20.0) || lon == 60.0 || lon == 150.0 || lon == -150.0
  {
  }

  lemma NorthernAsiaIsTheNorthernRemainder(lat: real, lon: real)
    requires lat > 30.0
    ensures LocationDescription(lat, lon) == "over N.Asia" <==> lon <= -150.0 || lon == -50.0 || lon >= 60.0
  {
  }

  lemma OceaniaIsTheSouthernRemainder(lat: real, lon: real)
    requires lat <= -30.0
    ensures LocationDescription(lat, lon) == "over Oceania" <==> lon <= -80.0 || lon == 20.0 || lon >= 150.0
  {
  }

  /** Exactly 30 degrees, north or south, falls in neither the tropical nor the northern band, so it is named as south. */
  lemma ThirtyNorthIsNamedAsSouth(lon: real)
    ensures LocationDescription(30.0, lon) == LocationDescription(-45.0, lon)
    ensures LocationDescription(-30.0, lon) == LocationDescription(-45.0, lon)
    ensures LocationDescription(30.0, 0.0) == "over S.America"
  {
  }

  /** A tropical point over Africa, and the two tropical boundaries of Africa, which the strict tests send to the Atlantic. */
  lemma TropicalExamples()
    ensures LocationDescription(10.0, 40.0) == "over Africa"
    ensures LocationDescription(0.0, 60.0) == "over Atlantic" && LocationDescription(0.0, -20.0) == "over Atlantic"
  {
  }

  /** The region names of the three bands are disjoint: the name tells the band. */
  lemma NameTellsTheBand(lat: real, lon: real)
    ensures var r := LocationDescription(lat, lon);
      (r in Regions[..5] <==> -30.0 < lat < 30.0) && (r in Regions[5..8] <==> lat > 30.0)
  {
    var tropics, north, south := Regions[..5], Regions[5..8], Regions[8..];
    assert tropics == ["over Africa", "over Asia", "over Pacific", "over Americas", "over Atlantic"];
    assert north == ["over N.America", "over Europe", "over N.Asia"];
    assert south == ["over S.America", "over S.Africa", "over Oceania"];
    var r := LocationDescription(lat, lon);
    if -30.0 < lat < 30.0 {
      assert r in tropics && r !in north;
    } else if lat > 30.0 {
      assert r in north && r !in tropics;
    } else {
      assert r in south && r !in tropics && r !in north;
    }
  }

  /** The people aboard the station (`[p for p in people if p.get("craft") == "ISS"]`). */
  function IssCrew(people: seq<Person>): (crew: seq<Person>)
    requires forall i :: 0 <= i < |people| ==> people[i].Person?
    ensures forall i :: 0 <= i < |crew| ==> crew[i] == Person("ISS")
    ensures |crew| == multiset(people)[Person("ISS")]
  {
    if people == [] then []
    else
      assert people == [people[0]] + people[1..];
      (if people[0] == Person("ISS") then [people[0]] else []) + IssCrew(people[1..])
  }

  const Speed := "27,600 km/h"

  /**
   * The description from the crew body, `None` when reading it raises: the crew count comes first
   * when the body reports success and someone is aboard.
   */
  function CrewDescription(astros: Option<Astros>): (r: Option<Text>)
    ensures astros.None? ==> r == Some(Str(Speed))
    ensures astros.Some? && astros.value.AstrosOther? ==>
      (r.None? <==> astros.value.truthy) && (!astros.value.truthy ==> r == Some(Str(Speed)))
    ensures astros.Some? && astros.value.AstrosObject? && astros.value.message != "success" ==> r == Some(Str(Speed))
    ensures astros.Some? && astros.value.AstrosObject? && astros.value.message == "success" ==>
      (r.None? <==> exists i :: 0 <= i < |astros.value.people| && astros.value.people[i].NotAPerson?)
    ensures r.Some? && astros.Some? && astros.value.AstrosObject? && astros.value.message == "success" ==>
      var n := |IssCrew(astros.value.people)|;
      r.value == if n > 0 then [Int(n), Lit(" crew • " + Speed)] else Str(Speed)
  {
    match astros
    case None => Some(Str(Speed))
    case Some(AstrosOther(truthy)) => if truthy then None else Some(Str(Speed))
    case Some(AstrosObject(message, people)) =>
      if message != "success" then Some(Str(Speed))
      else if exists i :: 0 <= i < |people| && people[i].NotAPerson? then None
      else
        var n := |IssCrew(people)|;
        if n > 0 then Some([Int(n), Lit(" crew • " + Speed)]) else Some(Str(Speed))
  }

  /** The reported crew count is the number of people listed on the station's craft. */
  lemma CrewCountIsTheStationsPeople(people: seq<Person>)
    requires forall i :: 0 <= i < |people| ==> people[i].Person?
    requires Person("ISS") in people
    ensures CrewDescription(Some(AstrosObject("success", people))) ==
      Some([Int(multiset(people)[Person("ISS")]), Lit(" crew • 27,600 km/h")])
  {
    var crew := IssCrew(people);
    assert multiset(people)[Person("ISS")] > 0;
    assert !exists i :: 0 <= i < |people| && people[i].NotAPerson?;
    assert " crew • " + Speed == " crew • 27,600 km/h";
  }

  /** The region, the position to two decimals and the station's clock, separated by bullets. */
  function IssTitle(lat: real, lon: real, clock: string): (t: Text)
    ensures |t| == 8 && t[0] == Lit("ISS ") && t[1] == Lit(LocationDescription(lat, lon))
      && t[3] == Real(lat, Fixed2) && t[5] == Real(lon, Fixed2) && t[7] == Lit(clock)
      && t[2] == Lit(" • ") && t[4] == Lit("°, ") && t[6] == Lit("° • ")
  {
    [Lit("ISS "), Lit(LocationDescription(lat, lon)), Lit(" • "), Real(lat, Fixed2), Lit("°, "),
     Real(lon, Fixed2), Lit("° • "), Lit(clock)]
  }

  /**
   * The parsing part of `fetch_iss_data`. Both requests are made before this point. A truthy
   * position body that is not an object makes the success test itself raise, outside the handler.
   */
  function ParseIss(pos: Option<Position>, astros: Option<Astros>): (r: Parsed)
    ensures r.Raised? <==> pos == Some(IssNowOther(true))
    ensures r.Live? ==> r.image == None
    ensures r.Live? <==> (pos.Some? && pos.value.IssNowObject? && pos.value.message == "success"
      && pos.value.lat.Num? && pos.value.lon.Num? && pos.value.clock.Some? && CrewDescription(astros).Some?)
    ensures r.Live? ==> (r.title == IssTitle(pos.value.lat.x, pos.value.lon.x, pos.value.clock.value)
      && Some(r.description) == CrewDescription(astros))
  {
    match pos
    case None => Offline
    case Some(IssNowOther(truthy)) => if truthy then Raised else Offline
    case Some(IssNowObject(message, lat, lon, clock)) =>
      if message != "success" || !lat.Num? || !lon.Num? || clock.None? then Offline
      else
        match CrewDescription(astros)
        case None => Offline
        case Some(description) => Live(None, IssTitle(lat.x, lon.x, clock.value), description)
  }

  /** The crew body never decides whether there is live data, only the description, unless reading it raises. */
  lemma CrewBodyOnlyChangesDescription(lat: real, lon: real, clock: string, a: Option<Astros>, b: Option<Astros>)
    requires CrewDescription(a).Some? && CrewDescription(b).Some?
    ensures var pos := Some(IssNowObject("success", Num(lat), Num(lon), Some(clock)));
      ParseIss(pos, a).Live? && ParseIss(pos, b).Live? && ParseIss(pos, a).title == ParseIss(pos, b).title
  {
  }
}
