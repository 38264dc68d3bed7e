/**
 * The media-player entity: source selection by name or by stepping through the source table,
 * the static icons shown while data loads, the push throttle, and the update that shows a
 * fetched reply only while its source is still selected.
 */
module MediaPlayer {
  import opened Options
  import opened Strings
  import opened Display
  import opened NasaConfig
  import opened Feed

  // ---------------------------------------------------------------------------------------
  // Icons
  // ---------------------------------------------------------------------------------------

  /** What the image attribute holds: an image address from the API, an icon file, or a generated placeholder. */
  datatype Image = Url(url: string) | Picture(file: string) | Placeholder(key: string)

  /** The local wall clock: today's and yesterday's date keys and the seconds since local midnight. */
  datatype Clock = Clock(today: string, yesterday: string, secondsIntoDay: real)

  /** The icon categories; `Name` is the key of the category table. */
  datatype Cat = Earth | Space | Planets | Nebula | Galaxy | General {
    function Name(): string {
      match this
      case Earth => "earth"
      case Space => "space"
      case Planets => "planets"
      case Nebula => "nebula"
      case Galaxy => "galaxy"
      case General => "general"
    }
  }

  /** The categories in the order the scan creates them. */
  const CategoryOrder: seq<Cat> := [Earth, Space, Planets, Nebula, Galaxy, General]

  /** The keys that have a placeholder of their own; any other key gets the general one. */
  const PlaceholderKeys: set<string> :=
    {"apod", "epic", "iss", "neo", "insight", "donki", "earth", "space", "planets", "nebula", "galaxy", "general"}

  function PlaceholderFor(key: string): (i: Image)
    ensures i.Placeholder? && i.key in PlaceholderKeys
    ensures key in PlaceholderKeys ==> i.key == key
  {
    Placeholder(if key in PlaceholderKeys then key else "general")
  }

  /** `_get_category_for_source`. */
  function CategoryForSource(id: string): Cat {
    if id == "apod" || id == "iss" || id == "donki" then Space
    else if id == "epic" then Earth
    else if id == "insight" then Planets
    else General
  }

  lemma CategoriesOfTheSources(id: string)
    ensures id == "epic" <==> CategoryForSource(id) == Earth
    ensures id == "insight" <==> CategoryForSource(id) == Planets
    ensures CategoryForSource(id) == Space <==> id in {"apod", "iss", "donki"}
    ensures id !in SourceIds() ==> CategoryForSource(id) == General
  {
    SourceIdsAreTheSixIds();
  }

  /** The category of an icon file: the first keyword its lower-cased name contains. */
  function Category(file: string): Cat {
    var name := Lower(file);
    if Contains(name, "earth") then Earth
    else if Contains(name, "mars") || Contains(name, "jupiter") || Contains(name, "saturn") || Contains(name, "planet") then Planets
    else if Contains(name, "nebula") then Nebula
    else if Contains(name, "galaxy") then Galaxy
    else if Contains(name, "space") then Space
    else General
  }

  /** The keywords decide before the fallback, and the test ignores case. */
  lemma CategoryIgnoresCase(file: string)
    ensures Category(Lower(file)) == Category(file)
    ensures var name := Lower(file);
      Category(file) == General <==> (!Contains(name, "earth") && !Contains(name, "mars")
        && !Contains(name, "jupiter") && !Contains(name, "saturn") && !Contains(name, "planet")
        && !Contains(name, "nebula") && !Contains(name, "galaxy") && !Contains(name, "space"))
  {
    assert Lower(Lower(file)) == Lower(file);
  }

  /** The files of one category, in scan order. */
  function Bucket(files: seq<string>, category: Cat): (b: seq<string>)
    ensures |b| <= |files|
    decreases |files|
  {
    if files == [] then []
    else
      var init := files[..|files| - 1];
      var last := files[|files| - 1];
      Bucket(init, category) + (if Category(last) == category then [last] else [])
  }

  /** A bucket holds exactly the files of its category. */
  lemma {:induction false} BucketMembers(files: seq<string>, category: Cat, f: string)
    ensures f in Bucket(files, category) <==> f in files && Category(f) == category
    decreases |files|
  {
    if files != [] {
      var init := files[..|files| - 1];
      BucketMembers(init, category, f);
      assert files == init + [files[|files| - 1]];
    }
  }

  function BucketSizes(files: seq<string>, categories: seq<Cat>): nat {
    if categories == [] then 0 else |Bucket(files, categories[0])| + BucketSizes(files, categories[1..])
  }

  function Occurrences(categories: seq<Cat>, c: Cat): nat {
    if categories == [] then 0 else (if categories[0] == c then 1 else 0) + Occurrences(categories[1..], c)
  }

  /** Scanning one more file grows the bucket sizes by the number of times its category is listed. */
  lemma {:induction false} BucketSizesStep(files: seq<string>, categories: seq<Cat>)
    requires files != []
    ensures BucketSizes(files, categories)
      == BucketSizes(files[..|files| - 1], categories) + Occurrences(categories, Category(files[|files| - 1]))
    decreases |categories|
  {
    if categories != [] {
      BucketSizesStep(files, categories[1..]);
    }
  }

  lemma {:induction false} NothingScanned(categories: seq<Cat>)
    ensures BucketSizes([], categories) == 0
    decreases |categories|
  {
    if categories != [] {
      NothingScanned(categories[1..]);
    }
  }

  lemma EachCategoryListedOnce(c: Cat)
    ensures Occurrences(CategoryOrder, c) == 1
  {
  }

  /** Every scanned file lands in exactly one category: the category sizes add up to the number of files. */
  lemma {:induction false} BucketsPartitionFiles(files: seq<string>)
    ensures BucketSizes(files, CategoryOrder) == |files|
    decreases |files|
  {
    if files == [] {
      NothingScanned(CategoryOrder);
    } else {
      var init := files[..|files| - 1];
      BucketsPartitionFiles(init);
      BucketSizesStep(files, CategoryOrder);
      EachCategoryListedOnce(Category(files[|files| - 1]));
      assert BucketSizes(init, CategoryOrder) == |init|;
      assert BucketSizes(files, CategoryOrder) == BucketSizes(init, CategoryOrder) + 1;
    }
  }

  /** One turn of the scan adds the file to its own bucket and to no other. */
  lemma BucketGrows(files: seq<string>, i: nat, c: Cat)
    requires i < |files| && c == Category(files[i])
    ensures Bucket(files[..i + 1], c) == Bucket(files[..i], c) + [files[i]]
    ensures forall other :: other != c ==> Bucket(files[..i + 1], other) == Bucket(files[..i], other)
  {
    assert files[..i + 1][..i] == files[..i];
  }

  /** The categories that received a file, in creation order (`{k: v for k, v in categories.items() if v}`). */
  function NonEmpty(cats: seq<(string, seq<string>)>): (r: seq<(string, seq<string>)>)
    ensures forall i :: 0 <= i < |r| ==> r[i] in cats && r[i].1 != []
    ensures forall i :: 0 <= i < |cats| && cats[i].1 != [] ==> cats[i] in r
  {
    if cats == [] then []
    else (if cats[0].1 != [] then [cats[0]] else []) + NonEmpty(cats[1..])
  }

  /** The six buckets of the scan, named, in creation order. */
  function AllBuckets(files: seq<string>): seq<(string, seq<string>)> {
    [("earth", Bucket(files, Earth)), ("space", Bucket(files, Space)),
      ("planets", Bucket(files, Planets)), ("nebula", Bucket(files, Nebula)),
      ("galaxy", Bucket(files, Galaxy)), ("general", Bucket(files, General))]
  }

  /**
   * The categories a scan leaves: only the non-empty ones, and looking a category up finds exactly
   * the scanned files of that category.
   */
  function ScanCategories(files: seq<string>): (cats: seq<(string, seq<string>)>)
    ensures forall i :: 0 <= i < |cats| ==> cats[i].1 != []
    ensures forall c: Cat :: ImagesOf(cats, c.Name()) == Bucket(files, c)
  {
    var all := AllBuckets(files);
    forall c: Cat
      ensures ImagesOf(NonEmpty(all), c.Name()) == Bucket(files, c)
    {
      ImagesOfNonEmpty(all, c.Name());
      BucketOfName(files, c);
    }
    NonEmpty(all)
  }

  /** Each category's bucket is listed under its name. */
  lemma BucketOfName(files: seq<string>, c: Cat)
    ensures ImagesOf(AllBuckets(files), c.Name()) == Bucket(files, c)
  {
    var all := AllBuckets(files);
    var k := match c
      case Earth => 0
      case Space => 1
      case Planets => 2
      case Nebula => 3
      case Galaxy => 4
      case General => 5;
    FoundAt(all, k, c.Name());
  }

  /** The lookup finds the first category carrying the name. */
  lemma {:induction false} FoundAt(cats: seq<(string, seq<string>)>, k: nat, name: string)
    requires k < |cats| && cats[k].0 == name
    requires forall j :: 0 <= j < k ==> cats[j].0 != name
    ensures ImagesOf(cats, name) == cats[k].1
    decreases k
  {
    if k > 0 {
      FoundAt(cats[1..], k - 1, name);
    }
  }

  /** Dropping the empty categories changes no lookup, when no name is listed twice. */
  lemma {:induction false} ImagesOfNonEmpty(cats: seq<(string, seq<string>)>, name: string)
    requires forall i, j :: 0 <= i < j < |cats| ==> cats[i].0 != cats[j].0
    ensures ImagesOf(NonEmpty(cats), name) == ImagesOf(cats, name)
    decreases |cats|
  {
    if cats != [] {
      ImagesOfNonEmpty(cats[1..], name);
      if cats[0].1 == [] {
        assert NonEmpty(cats) == NonEmpty(cats[1..]);
        if cats[0].0 == name {
          NotListed(cats[1..], name);
        }
      }
    }
  }

  /** A name no category carries looks up no images. */
  lemma {:induction false} NotListed(cats: seq<(string, seq<string>)>, name: string)
    requires forall i :: 0 <= i < |cats| ==> cats[i].0 != name
    ensures ImagesOf(cats, name) == []
    decreases |cats|
  {
    if cats != [] {
      NotListed(cats[1..], name);
    }
  }

  /** The categories used when there is no icon directory: all six, empty. */
  const FallbackCategories: seq<(string, seq<string>)> :=
    [("earth", []), ("space", []), ("planets", []), ("nebula", []), ("galaxy", []), ("general", [])]

  /** `dict.get(category, [])` on the categories. */
  function ImagesOf(cats: seq<(string, seq<string>)>, category: string): seq<string> {
    if cats == [] then []
    else if cats[0].0 == category then cats[0].1
    else ImagesOf(cats[1..], category)
  }

  /** Every image of every category, in order. */
  function AllImages(cats: seq<(string, seq<string>)>): seq<string> {
    if cats == [] then [] else cats[0].1 + AllImages(cats[1..])
  }

  /** The images an icon of `category` is drawn from: its own, or every image when it has none. */
  function Available(cats: seq<(string, seq<string>)>, category: string): seq<string> {
    var own := ImagesOf(cats, category);
    if own != [] then own else AllImages(cats)
  }

  /** The icon manager's state. `cache` holds the last image drawn per category. */
  datatype IconState = IconState(
    categories: seq<(string, seq<string>)>,
    cache: map<string, string>,
    dailyImage: Option<Image>,
    dailyDate: Option<string>)

  /**
   * `_get_random_icon_from_category`: a placeholder when there are no images at all; otherwise a
   * new draw when forced or when the category has none yet, else the one drawn before. `pick` is
   * the random index, reduced into range.
   */
  function RandomIcon(s: IconState, category: string, forceNew: bool, pick: nat): (r: (Image, IconState))
    ensures r.1.categories == s.categories && r.1.dailyImage == s.dailyImage && r.1.dailyDate == s.dailyDate
    ensures forall k :: k != category ==>
      (k in r.1.cache <==> k in s.cache) && (k in s.cache ==> r.1.cache[k] == s.cache[k])
    ensures r.0.Placeholder? <==> Available(s.categories, category) == []
    ensures r.0.Picture? ==> category in r.1.cache && r.0.file == r.1.cache[category]
  {
    var avail := Available(s.categories, category);
    if avail == [] then (PlaceholderFor(category), s)
    else if forceNew || category !in s.cache then
      var file := avail[pick % |avail|];
      (Picture(file), s.(cache := s.cache[category := file]))
    else (Picture(s.cache[category]), s)
  }

  /** The daily image's date key: today, or yesterday before five in the morning. */
  function DayKey(c: Clock): (key: string)
    ensures c.secondsIntoDay < 18000.0 ==> key == c.yesterday
    ensures c.secondsIntoDay >= 18000.0 ==> key == c.today
  {
    if c.secondsIntoDay < (5 * 3600) as real then c.yesterday else c.today
  }

  /**
   * `_get_daily_universe_icon`: a new space image whenever the day key changes. Only the space
   * category's drawn icon and the daily image change.
   */
  function DailyIcon(s: IconState, c: Clock, pick: nat): (r: (Image, IconState))
    ensures r.1.categories == s.categories && r.1.dailyDate == Some(DayKey(c))
    ensures forall k :: k != "space" ==>
      (k in r.1.cache <==> k in s.cache) && (k in s.cache ==> r.1.cache[k] == s.cache[k])
    ensures s.dailyDate != Some(DayKey(c)) ==> r.1.dailyImage == Some(r.0)
  {
    var key := DayKey(c);
    if s.dailyDate != Some(key) then
      var (image, s2) := RandomIcon(s, "space", true, pick);
      (image, s2.(dailyImage := Some(image), dailyDate := Some(key)))
    else (s.dailyImage.GetOr(PlaceholderFor("apod")), s)
  }

  /**
   * `get_icon_for_source`: the daily image for the picture of the day, a category icon otherwise.
   * Only the source category's drawn icon changes, and the daily image only for the picture of the day.
   */
  function IconFor(s: IconState, id: string, forceNew: bool, c: Clock, pick: nat): (r: (Image, IconState))
    ensures r.1.categories == s.categories
    ensures forall k :: k != CategoryForSource(id).Name() ==>
      (k in r.1.cache <==> k in s.cache) && (k in s.cache ==> r.1.cache[k] == s.cache[k])
    ensures id != "apod" ==> r.1.dailyImage == s.dailyImage && r.1.dailyDate == s.dailyDate
    ensures id == "apod" ==> r.1.dailyDate == Some(DayKey(c))
  {
    if id == "apod" then DailyIcon(s, c, pick) else RandomIcon(s, CategoryForSource(id).Name(), forceNew, pick)
  }

  /** Within one day key the daily image stays the same, whatever the random draw and however often it is asked for. */
  lemma DailyIconStableWithinDay(s: IconState, c1: Clock, c2: Clock, pick1: nat, pick2: nat)
    requires DayKey(c1) == DayKey(c2)
    ensures var (image, s1) := DailyIcon(s, c1, pick1);
      DailyIcon(s1, c2, pick2) == (image, s1) && s1.dailyDate == Some(DayKey(c1))
  {
  }

  /** A new day key draws a new space image, keeping nothing of the old one. */
  lemma DailyIconRedrawnOnNewDay(s: IconState, c: Clock, pick: nat)
    requires s.dailyDate != Some(DayKey(c))
    ensures var (image, s1) := DailyIcon(s, c, pick);
      s1.dailyDate == Some(DayKey(c)) && Some(image) == s1.dailyImage
      && image == RandomIcon(s, "space", true, pick).0
  {
  }

  /** Without forcing, a category keeps the icon drawn first; every icon is one of the images it may be drawn from. */
  lemma CategoryIconIsKept(s: IconState, category: string, pick1: nat, pick2: nat)
    ensures var (image, s1) := RandomIcon(s, category, false, pick1);
      RandomIcon(s1, category, false, pick2) == (image, s1)
    ensures var (image, s1) := RandomIcon(s, category, false, pick1);
      var avail := Available(s.categories, category);
      (avail == [] <==> image.Placeholder?) && (image.Picture? ==> image.file in avail || image.file == s.cache[category])
  {
  }

  /** A forced draw always comes from the available images when there are any. */
  lemma ForcedIconIsDrawn(s: IconState, category: string, pick: nat)
    requires Available(s.categories, category) != []
    ensures var (image, s1) := RandomIcon(s, category, true, pick);
      image.Picture? && image.file in Available(s.categories, category) && s1.cache[category] == image.file
  {
  }

  /** `StaticIconManager`. */
  class IconManager {
    var categories: seq<(string, seq<string>)>
    var cache: map<string, string>
    var dailyImage: Option<Image>
    var dailyDate: Option<string>

    function State(): IconState
      reads this
    {
      IconState(categories, cache, dailyImage, dailyDate)
    }

    /** Starts from the categories read from the icon index or a scan, with nothing drawn yet. */
    constructor (categories: seq<(string, seq<string>)>)
      ensures State() == IconState(categories, map[], None, None)
    {
      this.categories := categories;
      cache := map[];
      dailyImage := None;
      dailyDate := None;
    }

    /** `_scan_icons_directory` over the `.jpg` file names of the icon directory. */
    method ScanIconsDirectory(files: seq<string>)
      modifies this
      ensures categories == ScanCategories(files)
      ensures cache == old(cache) && dailyImage == old(dailyImage) && dailyDate == old(dailyDate)
    {
      var earth: seq<string> := [];
      var space: seq<string> := [];
      var planets: seq<string> := [];
      var nebula: seq<string> := [];
      var galaxy: seq<string> := [];
      var general: seq<string> := [];
      for i := 0 to |files|
        invariant earth == Bucket(files[..i], Earth) && space == Bucket(files[..i], Space)
        invariant planets == Bucket(files[..i], Planets) && nebula == Bucket(files[..i], Nebula)
        invariant galaxy == Bucket(files[..i], Galaxy) && general == Bucket(files[..i], General)
        invariant unchanged(this)
      {
        var category := Category(files[i]);
        BucketGrows(files, i, category);
        if category == Earth {
          earth := earth + [files[i]];
        } else if category == Planets {
          planets := planets + [files[i]];
        } else if category == Nebula {
          nebula := nebula + [files[i]];
        } else if category == Galaxy {
          galaxy := galaxy + [files[i]];
        } else if category == Space {
          space := space + [files[i]];
        } else {
          general := general + [files[i]];
        }
      }
      assert files[..|files|] == files;
      categories := NonEmpty([("earth", earth), ("space", space), ("planets", planets), ("nebula", nebula),
                              ("galaxy", galaxy), ("general", general)]);
    }

    method RandomIconFromCategory(category: string, forceNew: bool, pick: nat) returns (icon: Image)
      modifies this
      ensures (icon, State()) == RandomIcon(old(State()), category, forceNew, pick)
    {
      var avail := Available(categories, category);
      if avail == [] {
        return PlaceholderFor(category);
      }
      if forceNew || category !in cache {
        var file := avail[pick % |avail|];
        cache := cache[category := file];
        return Picture(file);
      }
      icon := Picture(cache[category]);
    }

    method DailyUniverseIcon(c: Clock, pick: nat) returns (icon: Image)
      modifies this
      ensures (icon, State()) == DailyIcon(old(State()), c, pick)
    {
      var key := if c.secondsIntoDay < (5 * 3600) as real then c.yesterday else c.today;
      if dailyDate != Some(key) {
        var image := RandomIconFromCategory("space", true, pick);
        dailyImage := Some(image);
        dailyDate := Some(key);
      }
      icon := dailyImage.GetOr(PlaceholderFor("apod"));
    }

    method GetIconForSource(id: string, forceNew: bool, c: Clock, pick: nat) returns (icon: Image)
      modifies this
      ensures (icon, State()) == IconFor(old(State()), id, forceNew, c, pick)
    {
      if id == "apod" {
        icon := DailyUniverseIcon(c, pick);
      } else {
        icon := RandomIconFromCategory(CategoryForSource(id).Name(), forceNew, pick);
      }
    }
  }

  // ---------------------------------------------------------------------------------------
  // The player
  // ---------------------------------------------------------------------------------------

  datatype PlayerState = Buffering | Playing | Off

  datatype Status = Ok | BadRequest | NotFound | NotImplemented

  /** The media-player command identifiers the entity handles itself. */
  const CmdOn := "on"
  const CmdOff := "off"
  const CmdSelectSource := "select_source"
  const CmdNext := "next"
  const CmdPrevious := "previous"

  /** The media commands that are acknowledged and ignored. */
  const SuppressedCommands: seq<string> := [
    "play_pause", "shuffle", "repeat", "stop", "fast_forward", "rewind", "seek", "record",
    "my_recordings", "mute_toggle", "mute", "unmute", "volume", "volume_up", "volume_down"
  ]

  /** The branches of the command handler. */
  datatype CommandKind = TurnOn | TurnOff | Select | StepNext | StepPrevious | Ignored | Unsupported

  /** Which branch of `_handle_command` a command identifier takes, tested in the handler's order. */
  function CommandOf(cmd: string): (k: CommandKind)
    ensures k == Ignored <==> cmd in SuppressedCommands
    ensures k == Unsupported <==> cmd !in SuppressedCommands && cmd !in [CmdOn, CmdOff, CmdSelectSource, CmdNext, CmdPrevious]
  {
    if cmd == CmdOn then TurnOn
    else if cmd == CmdOff then TurnOff
    else if cmd == CmdSelectSource then Select
    else if cmd == CmdNext then StepNext
    else if cmd == CmdPrevious then StepPrevious
    else if cmd in SuppressedCommands then Ignored
    else Unsupported
  }

  /** The position of a source identifier in the table (`list.index`). */
  function SourceIndex(id: string): (i: nat)
    requires id in SourceIds()
    ensures i < |SourceIds()| && SourceIds()[i] == id
  {
    if id == "apod" then 0 else if id == "epic" then 1 else if id == "iss" then 2
    else if id == "neo" then 3 else if id == "insight" then 4 else 5
  }

  function NextIndex(i: nat): (j: nat)
    ensures j < |SourceIds()|
  {
    (i + 1) % |SourceIds()|
  }

  /** Python's `%` with a positive divisor never returns a negative result, as Dafny's. */
  function PreviousIndex(i: nat): (j: nat)
    ensures j < |SourceIds()|
  {
    (i - 1) % |SourceIds()|
  }

  /** Stepping forward and then back, or back and then forward, returns to the source one started from. */
  lemma StepsAreInverse(id: string)
    requires id in SourceIds()
    ensures SourceIds()[PreviousIndex(SourceIndex(SourceIds()[NextIndex(SourceIndex(id))]))] == id
    ensures SourceIds()[NextIndex(SourceIndex(SourceIds()[PreviousIndex(SourceIndex(id))]))] == id
  {
    var i := SourceIndex(id);
    var n := NextIndex(i);
    var p := PreviousIndex(i);
    assert n == if i == 5 then 0 else i + 1;
    assert p == if i == 0 then 5 else i - 1;
    SourceIndexOfPosition(n);
    SourceIndexOfPosition(p);
    assert PreviousIndex(n) == i;
    assert NextIndex(p) == i;
  }

  lemma SourceIndexOfPosition(k: nat)
    requires k < |SourceIds()|
    ensures SourceIndex(SourceIds()[k]) == k
  {
    SourceIdsAreTheSixIds();
  }

  /** Six steps in either direction visit every source once and come back. */
  lemma NextCyclesThroughAll(i: nat)
    requires i < |SourceIds()|
    ensures NextIndex(NextIndex(NextIndex(NextIndex(NextIndex(NextIndex(i)))))) == i
    ensures forall j :: 0 <= j < |SourceIds()| && j != i ==> NextIndex(j) != NextIndex(i)
  {
  }

  function LoadingTitle(name: string): Text {
    Display.Str("Loading " + name + "...")
  }

  const LoadingArtist := Display.Str("Fetching live NASA data...")

  /** `_determine_final_image`: the API's image is shown only for the picture of the day, only when it is a web address that is not an Earth-camera PNG. */
  predicate UseApiImage(apiImageUrl: string, id: string) {
    id == "apod" && apiImageUrl != "" && StartsWith(apiImageUrl, "http")
    && !(EndsWith(apiImageUrl, ".png") && Contains(apiImageUrl, "epic.gsfc.nasa.gov"))
  }

  lemma ApiImageOnlyForPictureOfTheDay(apiImageUrl: string, id: string)
    ensures UseApiImage(apiImageUrl, id) ==> id == "apod" && |apiImageUrl| >= 4 && apiImageUrl[..4] == "http"
    ensures id == "apod" && StartsWith(apiImageUrl, "http") && !EndsWith(apiImageUrl, ".png") ==> UseApiImage(apiImageUrl, id)
    ensures id == "apod" && StartsWith(apiImageUrl, "http") && EndsWith(apiImageUrl, ".png") ==>
      (UseApiImage(apiImageUrl, id) <==> !Contains(apiImageUrl, "epic.gsfc.nasa.gov"))
  {
  }

  /** The push throttle: the times of the pushes accepted, starting after the last accepted one. */
  function AcceptedPushes(last: real, times: seq<real>): (accepted: seq<real>)
    ensures |accepted| <= |times|
    ensures accepted != [] ==> accepted[0] - last >= 0.2
    decreases |times|
  {
    if times == [] then []
    else if times[0] - last < 0.2 then AcceptedPushes(last, times[1..])
    else [times[0]] + AcceptedPushes(times[0], times[1..])
  }

  /** Accepted pushes are at least 0.2 seconds apart. */
  predicate Spaced(pushes: seq<real>) {
    forall i :: 0 < i < |pushes| ==> pushes[i] - pushes[i - 1] >= 0.2
  }

  lemma {:induction false} PushesAreSpaced(last: real, times: seq<real>)
    ensures Spaced(AcceptedPushes(last, times))
    decreases |times|
  {
    if times != [] {
      if times[0] - last < 0.2 {
        PushesAreSpaced(last, times[1..]);
        assert AcceptedPushes(last, times) == AcceptedPushes(last, times[1..]);
      } else {
        PushesAreSpaced(times[0], times[1..]);
        var rest := AcceptedPushes(times[0], times[1..]);
        var a := AcceptedPushes(last, times);
        assert a == [times[0]] + rest;
        forall i | 0 < i < |a|
          ensures a[i] - a[i - 1] >= 0.2
        {
          if i == 1 {
            assert a[1] == rest[0];
            assert rest[0] - times[0] >= 0.2;
          } else {
            var j := i - 1;
            assert a[i] == rest[j] && a[i - 1] == rest[j - 1];
            assert Spaced(rest);
          }
        }
      }
    }
  }

  /** `NASAMediaPlayer`: the entity's attributes and the source it shows. */
  class Player {
    const icons: IconManager
    var currentSource: string
    var state: PlayerState
    var sourceName: string
    var imageUrl: Image
    var title: Text
    var artist: Text
    var lastPushTime: real

    predicate Valid()
      reads this
    {
      currentSource in SourceIds()
    }

    /** The entity at start-up: buffering on the picture of the day, with its daily icon. */
    constructor (categories: seq<(string, seq<string>)>, c: Clock, pick: nat)
      ensures Valid() && currentSource == "apod" && state == Buffering && sourceName == "Daily Universe"
      ensures title == Display.Str("NASA Mission Control") && artist == Display.Str("Initializing space data feeds...")
      ensures lastPushTime == 0.0 && fresh(icons)
      ensures (imageUrl, icons.State()) == IconFor(IconState(categories, map[], None, None), "apod", false, c, pick)
    {
      icons := new IconManager(categories);
      currentSource := "apod";
      state := Buffering;
      sourceName := GetSourceData("apod").value.name;
      title := Display.Str("NASA Mission Control");
      artist := Display.Str("Initializing space data feeds...");
      lastPushTime := 0.0;
      imageUrl := Placeholder("apod");
      new;
      imageUrl := icons.GetIconForSource("apod", false, c, pick);
    }

    /** Shows the source with identifier `id` as loading, with a freshly drawn static icon. */
    method ShowLoading(id: string, c: Clock, pick: nat)
      requires id in SourceIds()
      modifies this, icons
      ensures Valid() && currentSource == id && state == Buffering
      ensures sourceName == GetSourceData(id).value.name
      ensures title == LoadingTitle(sourceName) && artist == LoadingArtist
      ensures (imageUrl, icons.State()) == IconFor(old(icons.State()), id, true, c, pick)
      ensures lastPushTime == old(lastPushTime)
    {
      currentSource := id;
      var icon := icons.GetIconForSource(id, true, c, pick);
      sourceName := GetSourceData(id).value.name;
      state := Buffering;
      imageUrl := icon;
      title := LoadingTitle(sourceName);
      artist := LoadingArtist;
    }

    /** `_cmd_select_source_instant`. */
    method SelectSource(params: Option<map<string, string>>, c: Clock, pick: nat) returns (status: Status)
      requires Valid()
      modifies this, icons
      ensures Valid()
      ensures params.None? || params.value == map[] || "source" !in params.value ==>
        status == BadRequest && currentSource == old(currentSource) && unchanged(icons)
      ensures params.Some? && "source" in params.value ==>
        var found := GetSourceByName(params.value["source"]);
        (found.None? ==> status == NotFound && currentSource == old(currentSource) && unchanged(icons))
        && (found.Some? ==> (status == Ok && currentSource == found.value && state == Buffering
            && sourceName == params.value["source"]
            && title == LoadingTitle(params.value["source"]) && artist == LoadingArtist
            && (imageUrl, icons.State()) == IconFor(old(icons.State()), found.value, true, c, pick)))
      ensures status == Ok ==> sourceName == GetSourceData(currentSource).value.name
      ensures lastPushTime == old(lastPushTime)
      ensures status != Ok ==> unchanged(this)
    {
      if params.None? || params.value == map[] || "source" !in params.value {
        return BadRequest;
      }
      var name := params.value["source"];
      var found := GetSourceByName(name);
      if found.None? {
        return NotFound;
      }
      GetSourceByNameReturnsItsName(name);
      ShowLoading(found.value, c, pick);
      status := Ok;
    }

    /** `_cmd_next_source_instant`: one step forward through the table, wrapping around. */
    method NextSource(c: Clock, pick: nat) returns (status: Status)
      requires Valid()
      modifies this, icons
      ensures Valid() && status == Ok && state == Buffering
      ensures currentSource == SourceIds()[NextIndex(SourceIndex(old(currentSource)))]
      ensures sourceName == GetSourceData(currentSource).value.name
      ensures (imageUrl, icons.State()) == IconFor(old(icons.State()), currentSource, true, c, pick)
      ensures title == LoadingTitle(sourceName) && artist == LoadingArtist
      ensures lastPushTime == old(lastPushTime)
    {
      var next := SourceIds()[NextIndex(SourceIndex(currentSource))];
      ShowLoading(next, c, pick);
      status := Ok;
    }

    /** `_cmd_previous_source_instant`: one step back through the table, wrapping around. */
    method PreviousSource(c: Clock, pick: nat) returns (status: Status)
      requires Valid()
      modifies this, icons
      ensures Valid() && status == Ok && state == Buffering
      ensures currentSource == SourceIds()[PreviousIndex(SourceIndex(old(currentSource)))]
      ensures sourceName == GetSourceData(currentSource).value.name
      ensures (imageUrl, icons.State()) == IconFor(old(icons.State()), currentSource, true, c, pick)
      ensures title == LoadingTitle(sourceName) && artist == LoadingArtist
      ensures lastPushTime == old(lastPushTime)
    {
      var previous := SourceIds()[PreviousIndex(SourceIndex(currentSource))];
      ShowLoading(previous, c, pick);
      status := Ok;
    }

    /** `_handle_command`: on, off, source selection and stepping; the suppressed commands are acknowledged. */
    method HandleCommand(cmd: string, params: Option<map<string, string>>, c: Clock, pick: nat) returns (status: Status)
      requires Valid()
      modifies this, icons
      ensures Valid()
      ensures lastPushTime == old(lastPushTime)
      ensures var k := CommandOf(cmd);
        (k == TurnOn ==> status == Ok && state == Playing)
        && (k == TurnOff ==> status == Ok && state == Off)
        && (k == StepNext || k == StepPrevious ==> status == Ok)
        && (k == Ignored ==> status == Ok)
        && (k == Unsupported ==> status == NotImplemented)
      ensures CommandOf(cmd) == TurnOn || CommandOf(cmd) == TurnOff ==>
        (currentSource == old(currentSource) && sourceName == old(sourceName) && imageUrl == old(imageUrl)
        && title == old(title) && artist == old(artist) && unchanged(icons))
      ensures CommandOf(cmd) == StepNext || CommandOf(cmd) == StepPrevious || (CommandOf(cmd) == Select && status == Ok) ==>
        (state == Buffering && sourceName == GetSourceData(currentSource).value.name
        && title == LoadingTitle(sourceName) && artist == LoadingArtist
        && (imageUrl, icons.State()) == IconFor(old(icons.State()), currentSource, true, c, pick))
      ensures CommandOf(cmd) == StepNext ==> currentSource == SourceIds()[NextIndex(SourceIndex(old(currentSource)))]
      ensures CommandOf(cmd) == StepPrevious ==>
        currentSource == SourceIds()[PreviousIndex(SourceIndex(old(currentSource)))]
      ensures CommandOf(cmd) == Select && (params.None? || "source" !in params.value) ==> status == BadRequest
      ensures CommandOf(cmd) == Select && params.Some? && "source" in params.value ==>
        (status == NotFound <==> GetSourceByName(params.value["source"]).None?)
        && (status == Ok ==> (Some(currentSource) == GetSourceByName(params.value["source"])
          && sourceName == params.value["source"]))
      ensures status != Ok || CommandOf(cmd) == Ignored ==> unchanged(this) && unchanged(icons)
    {
      match CommandOf(cmd) {
        case TurnOn =>
          state := Playing;
          status := Ok;
        case TurnOff =>
          state := Off;
          status := Ok;
        case Select =>
          status := SelectSource(params, c, pick);
        case StepNext =>
          status := NextSource(c, pick);
        case StepPrevious =>
          status := PreviousSource(c, pick);
        case Ignored =>
          status := Ok;
        case Unsupported =>
          status := NotImplemented;
      }
    }

    /** `_push_update_throttled` at time `now`: accepted only 0.2 seconds or more after the last accepted push. */
    method PushUpdateThrottled(now: real) returns (pushed: bool)
      modifies this
      ensures pushed <==> now - old(lastPushTime) >= 0.2
      ensures lastPushTime == if pushed then now else old(lastPushTime)
      ensures pushed ==> AcceptedPushes(old(lastPushTime), [now]) == [now]
      ensures currentSource == old(currentSource) && state == old(state) && sourceName == old(sourceName)
      ensures imageUrl == old(imageUrl) && title == old(title) && artist == old(artist)
    {
      if now - lastPushTime < 0.2 {
        return false;
      }
      lastPushTime := now;
      pushed := true;
    }

    /** `_determine_final_image`. */
    method DetermineFinalImage(apiImageUrl: string, id: string, c: Clock, pick: nat) returns (image: Image)
      modifies icons
      ensures UseApiImage(apiImageUrl, id) ==> image == Url(apiImageUrl) && unchanged(icons)
      ensures !UseApiImage(apiImageUrl, id) ==> (image, icons.State()) == IconFor(old(icons.State()), id, false, c, pick)
    {
      if id == "apod" && apiImageUrl != "" && StartsWith(apiImageUrl, "http") {
        if !(EndsWith(apiImageUrl, ".png") && Contains(apiImageUrl, "epic.gsfc.nasa.gov")) {
          return Url(apiImageUrl);
        }
      }
      image := icons.GetIconForSource(id, false, c, pick);
    }

    /**
     * `_fetch_and_update_source` once the client has replied `reply` for `id`: the attributes
     * change only if `id` is still the current source; an empty title or description is replaced.
     */
    method FetchAndUpdateSource(id: string, reply: Triple, c: Clock, pick: nat)
      requires Valid()
      modifies this, icons
      ensures Valid()
      ensures currentSource == old(currentSource) && sourceName == old(sourceName) && lastPushTime == old(lastPushTime)
      ensures old(currentSource) != id ==> unchanged(this) && unchanged(icons)
      ensures old(currentSource) == id ==>
        (state == Playing && title == OrElse(reply.title, "Unknown")
        && artist == OrElse(reply.description, "No description available")
        && (UseApiImage(reply.imageUrl, id) ==> imageUrl == Url(reply.imageUrl))
        && (!UseApiImage(reply.imageUrl, id) ==> (imageUrl, icons.State()) == IconFor(old(icons.State()), id, false, c, pick)))
    {
      if currentSource == id {
        var image := DetermineFinalImage(reply.imageUrl, id, c, pick);
        state := Playing;
        imageUrl := image;
        title := OrElse(reply.title, "Unknown");
        artist := OrElse(reply.description, "No description available");
      }
    }
  }

  /** The display name found for a name is that name. */
  lemma GetSourceByNameReturnsItsName(name: string)
    requires GetSourceByName(name).Some?
    ensures GetSourceByName(name).value in SourceIds()
    ensures GetSourceData(GetSourceByName(name).value).value.name == name
  {
    var i :| 0 <= i < |NasaSources| && NasaSources[i].name == name && NasaSources[i].id == GetSourceByName(name).value;
    assert SourceIds()[i] == NasaSources[i].id;
    GetSourceDataOfRow(i);
  }
}
