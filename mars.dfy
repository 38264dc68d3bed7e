/**
 * The Mars rover fetcher (source identifier "insight"): photos of one randomly chosen rover
 * and sol, summarised by camera, count and date.
 */
module Mars {
  import opened Options
  import opened Strings
  import opened Display
  import opened Feed

  datatype Rover = Rover(name: string, maxSol: nat)

  /** The rovers the fetcher chooses from, with the last sol of each mission. */
  const Rovers: seq<Rover> := [Rover("curiosity", 4000), Rover("opportunity", 5111), Rover("spirit", 2210)]

  /** The highest sol the fetcher draws for a rover: `min(1500, max_sol)`. */
  function SolCeiling(r: Rover): (n: nat)
    ensures n <= 1500 && n <= r.maxSol
    ensures n == 1500 || n == r.maxSol
  {
    if r.maxSol < 1500 then r.maxSol else 1500
  }

  /** The random draws: an index into the rover list and a sol from 100 up to the rover's ceiling. */
  predicate ValidChoice(rover: nat, sol: int) {
    rover < |Rovers| && 100 <= sol <= SolCeiling(Rovers[rover])
  }

  /** Every rover's mission outlasts 1500 sols, so every draw lies in the same range. */
  lemma EveryRoverCapsAt1500(rover: nat, sol: int)
    requires rover < |Rovers|
    ensures SolCeiling(Rovers[rover]) == 1500
    ensures ValidChoice(rover, sol) <==> 100 <= sol <= 1500
  {
  }

  /** The rover names as the titles show them. */
  const RoverTitles: seq<string> := ["Curiosity", "Opportunity", "Spirit"]

  lemma RoverNamesTitled()
    ensures forall i :: 0 <= i < |Rovers| ==> Title(Rovers[i].name) == RoverTitles[i]
  {
    CuriosityTitled();
    OpportunityTitled();
    SpiritTitled();
  }

  lemma CuriosityTitled()
    ensures Title("curiosity") == "Curiosity"
  {
    TitleOfLowerWord("curiosity");
  }

  lemma OpportunityTitled()
    ensures Title("opportunity") == "Opportunity"
  {
    TitleOfLowerWord("opportunity");
  }

  lemma SpiritTitled()
    ensures Title("spirit") == "Spirit"
  {
    TitleOfLowerWord("spirit");
  }

  /** One photo: its camera name ("UNK" when missing), its Earth date, and that date as "%b %d, %Y" when it parses. */
  datatype MarsPhoto = MarsPhoto(camera: string, earthDate: string, readableDate: Option<string>)

  /** The decoded response body. */
  datatype MarsPayload =
    | MarsObject(photos: Option<seq<MarsPhoto>>)  // `None` when there is no "photos" key
    | MarsScalar(truthy: bool)  // a number or boolean: the membership test raises when it is truthy
    | MarsOther                 // a list or string without a "photos" member

  /** The distinct camera names (`set(...)`). */
  function Cameras(photos: seq<MarsPhoto>): (cams: set<string>)
    ensures forall i :: 0 <= i < |photos| ==> photos[i].camera in cams
    ensures forall c :: c in cams ==> exists i :: 0 <= i < |photos| && photos[i].camera == c
  {
    set i | 0 <= i < |photos| :: photos[i].camera
  }

  /** More than one camera name exactly when two photos were taken by different cameras. */
  lemma SeveralCamerasIffTwoDiffer(photos: seq<MarsPhoto>)
    requires photos != []
    ensures |Cameras(photos)| > 1 <==> exists i :: 0 <= i < |photos| && photos[i].camera != photos[0].camera
  {
    var cams := Cameras(photos);
    if exists i :: 0 <= i < |photos| && photos[i].camera != photos[0].camera {
      var i :| 0 <= i < |photos| && photos[i].camera != photos[0].camera;
      var two := {photos[0].camera, photos[i].camera};
      assert two <= cams;
      assert |two| == 2;
      SubsetCardinality(two, cams);
    } else {
      assert cams == {photos[0].camera};
    }
  }

  lemma SubsetCardinality<T>(a: set<T>, b: set<T>)
    requires a <= b
    ensures |a| <= |b|
  {
    assert b == a + (b - a);
  }

  /** The camera summary: the number of distinct cameras when there are several, else the one camera's name. */
  function CameraSummary(photos: seq<MarsPhoto>): (t: Text)
    requires photos != []
    ensures |Cameras(photos)| <= 1 ==> t == Str(photos[0].camera)
    ensures |Cameras(photos)| > 1 ==> t == [Int(|Cameras(photos)|), Lit(" cameras")]
  {
    var n := |Cameras(photos)|;
    if n > 1 then [Int(n), Lit(" cameras")] else Str(photos[0].camera)
  }

  /** The date shown: the parsed Earth date, the raw one when it does not parse, "Date unknown" without one. */
  function MarsDate(photo: MarsPhoto): (date: string)
    ensures photo.earthDate == "" ==> date == "Date unknown"
    ensures photo.earthDate != "" && photo.readableDate.Some? ==> date == photo.readableDate.value
    ensures photo.earthDate != "" && photo.readableDate.None? ==> date == photo.earthDate
  {
    if photo.earthDate != "" then photo.readableDate.GetOr(photo.earthDate) else "Date unknown"
  }

  /** "{Rover} Sol {sol} • {cameras} • {count} images • {date}", the date taken from the first photo. */
  function MarsTitle(rover: Rover, sol: int, photos: seq<MarsPhoto>): (t: Text)
    requires photos != []
    ensures var c := CameraSummary(photos);
      |t| == 4 + |c| + 4 && t[..4] == [Lit(Title(rover.name)), Lit(" Sol "), Int(sol), Lit(" • ")]
      && t[4..4 + |c|] == c
      && t[4 + |c|..] == [Lit(" • "), Int(|photos|), Lit(" images • "), Lit(MarsDate(photos[0]))]
  {
    [Lit(Title(rover.name)), Lit(" Sol "), Int(sol), Lit(" • ")] + CameraSummary(photos)
    + [Lit(" • "), Int(|photos|), Lit(" images • "), Lit(MarsDate(photos[0]))]
  }

  /** More than fifty photos make an active sol. */
  function MarsDescription(sol: int, count: nat): (t: Text)
    ensures count > 50 ==> t == [Lit("Active Sol • "), Int(count), Lit(" pics")]
    ensures count <= 50 ==> t == [Lit("Sol "), Int(sol), Lit(" • "), Int(count), Lit(" images")]
  {
    if count > 50 then [Lit("Active Sol • "), Int(count), Lit(" pics")]
    else [Lit("Sol "), Int(sol), Lit(" • "), Int(count), Lit(" images")]
  }

  /** The parsing part of `fetch_mars_rover_data`: live data needs a non-empty photo list. */
  function ParseMars(rover: Rover, sol: int, p: MarsPayload): (r: Parsed)
    ensures r.Raised? <==> p == MarsScalar(true)
    ensures r.Live? <==> p.MarsObject? && p.photos.Some? && p.photos.value != []
    ensures r.Live? ==> (r.image == None && r.title == MarsTitle(rover, sol, p.photos.value)
      && r.description == MarsDescription(sol, |p.photos.value|))
  {
    match p
    case MarsScalar(truthy) => if truthy then Raised else Offline
    case MarsOther => Offline
    case MarsObject(photos) =>
      if photos.Some? && photos.value != [] then
        Live(None, MarsTitle(rover, sol, photos.value), MarsDescription(sol, |photos.value|))
      else Offline
  }

  /** The title names the rover with a capital, the sol, and the photo count. */
  lemma TitleNamesRoverAndSol(rover: nat, sol: int, photos: seq<MarsPhoto>)
    requires rover < |Rovers| && photos != []
    ensures var t := MarsTitle(Rovers[rover], sol, photos);
      t[0] == Lit(RoverTitles[rover]) && t[2] == Int(sol) && Int(|photos|) in t
  {
    RoverNamesTitled();
    var head := [Lit(Title(Rovers[rover].name)), Lit(" Sol "), Int(sol), Lit(" • ")];
    var tail := [Lit(" • "), Int(|photos|), Lit(" images • "), Lit(MarsDate(photos[0]))];
    var t := head + CameraSummary(photos) + tail;
    assert t == MarsTitle(Rovers[rover], sol, photos);
    assert t[0] == head[0] && t[2] == head[2];
    assert t[|t| - 3] == tail[1];
  }
}
