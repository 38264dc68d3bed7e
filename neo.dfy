/**
 * The Near Earth Object fetcher: today's asteroid count, speed range, closest approach and
 * hazard or size summary, gathered in one pass over today's objects.
 */
module Neo {
  import opened Options
  import opened Display
  import opened Feed

  /** One object of today's list. */
  datatype NeoObject =
    | NeoObject(hasApproach: bool, velocity: Reading, distance: Reading, maxDiameter: Option<real>, hazardous: bool)
      // `hasApproach`: the close-approach list has a first entry (a missing list reads as one empty entry);
      // `maxDiameter`: `None` when it is not a number, so that comparing it raises `TypeError`;
      // `hazardous`: the truthiness of the hazard flag
    | NeoNotObject

  /** The decoded feed. `firstDay` holds the objects under the first date key, `None` without any key. */
  datatype NeoPayload = NeoFeed(elementCount: int, firstDay: Option<seq<NeoObject>>) | NeoOther

  /** What the loop has gathered: the positive speeds, distances and sizes, and the hazardous count. */
  datatype NeoStats = NeoStats(speeds: seq<real>, distances: seq<real>, sizes: seq<real>, hazardous: nat)

  const NoStats := NeoStats([], [], [], 0)

  predicate Positive(xs: seq<real>) {
    forall i :: 0 <= i < |xs| ==> xs[i] > 0.0
  }

  /** An object whose reading raises an exception the loop does not catch, which ends the whole fetch. */
  predicate Fails(neo: NeoObject) {
    match neo
    case NeoNotObject => true
    case NeoObject(hasApproach, velocity, distance, maxDiameter, _) =>
      hasApproach && (velocity.BadType? ||
        (velocity.Num? && (distance.BadType? || (distance.Num? && maxDiameter.None?))))
  }

  /** An object read to the end, so that its hazard flag is looked at. */
  predicate Counted(neo: NeoObject) {
    neo.NeoObject? && neo.hasApproach && neo.velocity.Num? && neo.distance.Num? && neo.maxDiameter.Some?
  }

  /** The speed an object contributes: its velocity when the approach entry has a positive one. */
  function SpeedOf(neo: NeoObject): seq<real> {
    if neo.NeoObject? && neo.hasApproach && neo.velocity.Num? && neo.velocity.x > 0.0 then [neo.velocity.x] else []
  }

  /** The distance an object contributes: a positive miss distance read after a numeric velocity. */
  function DistanceOf(neo: NeoObject): seq<real> {
    if neo.NeoObject? && neo.hasApproach && neo.velocity.Num? && neo.distance.Num? && neo.distance.x > 0.0
    then [neo.distance.x] else []
  }

  /** The size an object contributes: a positive maximum diameter of an object read to the end. */
  function SizeOf(neo: NeoObject): seq<real> {
    if Counted(neo) && neo.maxDiameter.value > 0.0 then [neo.maxDiameter.value] else []
  }

  /** What the objects contribute, in order. */
  function Collect(objs: seq<NeoObject>, part: NeoObject -> seq<real>): seq<real>
    decreases |objs|
  {
    if objs == [] then [] else part(objs[0]) + Collect(objs[1..], part)
  }

  function PositiveSpeeds(objs: seq<NeoObject>): seq<real> {
    Collect(objs, SpeedOf)
  }

  function PositiveDistances(objs: seq<NeoObject>): seq<real> {
    Collect(objs, DistanceOf)
  }

  function PositiveSizes(objs: seq<NeoObject>): seq<real> {
    Collect(objs, SizeOf)
  }

  /** The number of objects read to the end whose hazard flag is set. */
  function HazardCount(objs: seq<NeoObject>): nat
    decreases |objs|
  {
    if objs == [] then 0 else (if Counted(objs[0]) && objs[0].hazardous then 1 else 0) + HazardCount(objs[1..])
  }

  /** Counting one more object adds its own hazard. */
  lemma {:induction false} HazardCountAppend(objs: seq<NeoObject>, last: NeoObject)
    ensures HazardCount(objs + [last]) == HazardCount(objs) + (if Counted(last) && last.hazardous then 1 else 0)
    decreases |objs|
  {
    if objs == [] {
      assert [] + [last] == [last];
      assert [last][1..] == [];
    } else {
      assert (objs + [last])[0] == objs[0];
      assert (objs + [last])[1..] == objs[1..] + [last];
      HazardCountAppend(objs[1..], last);
    }
  }

  /** Collecting one more object appends its contribution. */
  lemma {:induction false} CollectAppend(objs: seq<NeoObject>, last: NeoObject, part: NeoObject -> seq<real>)
    ensures Collect(objs + [last], part) == Collect(objs, part) + part(last)
    decreases |objs|
  {
    if objs == [] {
      assert [] + [last] == [last];
      assert [last][1..] == [];
    } else {
      assert (objs + [last])[0] == objs[0];
      assert (objs + [last])[1..] == objs[1..] + [last];
      CollectAppend(objs[1..], last, part);
    }
  }

  /**
   * One turn of the loop: a missing approach entry or a non-numeric text skips the rest of the
   * object (what it already appended stays), only positive values are kept.
   */
  function Step(s: NeoStats, neo: NeoObject): (r: Option<NeoStats>)
    ensures r.None? <==> Fails(neo)
    ensures r.Some? ==> r.value.hazardous == s.hazardous + (if Counted(neo) && neo.hazardous then 1 else 0)
    ensures r.Some? ==> (r.value.speeds == s.speeds + SpeedOf(neo) && r.value.distances == s.distances + DistanceOf(neo)
      && r.value.sizes == s.sizes + SizeOf(neo))
    ensures neo.NeoObject? && neo.hasApproach && neo.velocity.Num? && neo.distance.BadText? ==>
      r == Some(s.(speeds := s.speeds + SpeedOf(neo)))
    ensures r.Some? && Positive(s.speeds) && Positive(s.distances) && Positive(s.sizes) ==>
      Positive(r.value.speeds) && Positive(r.value.distances) && Positive(r.value.sizes)
    ensures r.Some? ==> (|r.value.speeds| <= |s.speeds| + 1 && |r.value.distances| <= |s.distances| + 1
      && |r.value.sizes| <= |s.sizes| + 1)
  {
    match neo
    case NeoNotObject => None
    case NeoObject(hasApproach, velocity, distance, maxDiameter, hazardous) =>
      if !hasApproach then Some(s)
      else
        match velocity
        case BadType => None
        case BadText => Some(s)
        case Num(v) =>
          var speeds := if v > 0.0 then s.speeds + [v] else s.speeds;
          match distance
          case BadType => None
          case BadText => Some(s.(speeds := speeds))
          case Num(d) =>
            var distances := if d > 0.0 then s.distances + [d] else s.distances;
            match maxDiameter
            case None => None
            case Some(m) =>
              Some(NeoStats(speeds, distances, if m > 0.0 then s.sizes + [m] else s.sizes,
                            if hazardous then s.hazardous + 1 else s.hazardous))
  }

  /** The loop over a prefix of today's objects; `None` once an object has failed. */
  function Aggregate(objs: seq<NeoObject>): (r: Option<NeoStats>)
    ensures r.None? <==> exists i :: 0 <= i < |objs| && Fails(objs[i])
    ensures r.Some? ==> Positive(r.value.speeds) && Positive(r.value.distances) && Positive(r.value.sizes)
    ensures r.Some? ==> |r.value.speeds| <= |objs| && |r.value.distances| <= |objs| && |r.value.sizes| <= |objs|
    ensures r.Some? ==> (r.value.speeds == PositiveSpeeds(objs) && r.value.distances == PositiveDistances(objs)
      && r.value.sizes == PositiveSizes(objs))
    ensures r.Some? ==> r.value.hazardous == HazardCount(objs)
    ensures r.Some? ==> r.value.hazardous <= |objs|
    ensures r.Some? ==> (r.value.hazardous > 0 <==> exists i :: 0 <= i < |objs| && Counted(objs[i]) && objs[i].hazardous)
    decreases |objs|
  {
    if objs == [] then Some(NoStats)
    else
      var init := objs[..|objs| - 1];
      var last := objs[|objs| - 1];
      assert forall i :: 0 <= i < |init| ==> init[i] == objs[i];
      assert objs == init + [last];
      CollectAppend(init, last, SpeedOf);
      CollectAppend(init, last, DistanceOf);
      CollectAppend(init, last, SizeOf);
      HazardCountAppend(init, last);
      match Aggregate(init)
      case None => None
      case Some(s) => Step(s, last)
  }

  /** `min(xs)`. */
  function SeqMin(xs: seq<real>): (m: real)
    requires xs != []
    ensures m in xs && forall i :: 0 <= i < |xs| ==> m <= xs[i]
  {
    if |xs| == 1 then xs[0]
    else
      var t := SeqMin(xs[1..]);
      if xs[0] <= t then xs[0] else t
  }

  /** `max(xs)`. */
  function SeqMax(xs: seq<real>): (m: real)
    requires xs != []
    ensures m in xs && forall i :: 0 <= i < |xs| ==> xs[i] <= m
  {
    if |xs| == 1 then xs[0]
    else
      var t := SeqMax(xs[1..]);
      if xs[0] >= t then xs[0] else t
  }

  /** The closest approach: in millions of kilometres beyond a million, in kilometres otherwise. */
  function ClosestPart(closest: real): (t: Text)
    ensures |t| == 3 && t[0] == Lit("Closest: ")
    ensures t[2] == Lit("M km") <==> closest > 1000000.0
    ensures closest > 1000000.0 ==> t == [Lit("Closest: "), Real(closest / 1000000.0, Fixed2), Lit("M km")]
    ensures closest <= 1000000.0 ==> t == [Lit("Closest: "), Real(closest, Grouped0), Lit(" km")]
  {
    if closest > 1000000.0 then [Lit("Closest: "), Real(closest / 1000000.0, Fixed2), Lit("M km")]
    else [Lit("Closest: "), Real(closest, Grouped0), Lit(" km")]
  }

  /** The title parts: the count always, the speed range and the closest approach when there are values. */
  function TitleParts(count: int, s: NeoStats): (parts: seq<Text>)
    ensures |parts| == 1 + (if s.speeds != [] then 1 else 0) + (if s.distances != [] then 1 else 0)
    ensures parts[0] == [Lit("Today: "), Int(count), Lit(" asteroids")]
    ensures s.speeds != [] ==>
      parts[1] == [Lit("Speed: "), Real(SeqMin(s.speeds), Grouped0), Lit("-"), Real(SeqMax(s.speeds), Grouped0), Lit(" km/h")]
    ensures s.distances != [] ==> parts[|parts| - 1] == ClosestPart(SeqMin(s.distances))
  {
    [[Lit("Today: "), Int(count), Lit(" asteroids")]]
    + (if s.speeds != [] then [[Lit("Speed: "), Real(SeqMin(s.speeds), Grouped0), Lit("-"),
                                Real(SeqMax(s.speeds), Grouped0), Lit(" km/h")]] else [])
    + (if s.distances != [] then [ClosestPart(SeqMin(s.distances))] else [])
  }

  /** The title parts joined by bullets: the count first, then each part with a bullet in front. */
  function NeoTitle(count: int, s: NeoStats): (t: Text)
    ensures var parts := TitleParts(count, s);
      t == parts[0] + Flatten(Led(parts[1..], " • "))
  {
    Join(TitleParts(count, s), " • ")
  }

  /** Hazards first; otherwise the largest size, in metres below one kilometre; otherwise the count. */
  function NeoDescription(count: int, s: NeoStats): (d: Text)
    ensures |d| >= 2
    ensures d[|d| - 1] == Lit(" hazardous") <==> s.hazardous > 0
    ensures d[0] == Lit("Largest: ") <==> s.hazardous == 0 && s.sizes != []
    ensures d[|d| - 1] == Lit(" m") <==> s.hazardous == 0 && s.sizes != [] && SeqMax(s.sizes) < 1.0
    ensures d[|d| - 1] == Lit(" tracked today") <==> s.hazardous == 0 && s.sizes == []
    ensures s.hazardous > 0 ==> d == [Int(s.hazardous), Lit(" hazardous")]
    ensures s.hazardous == 0 && s.sizes != [] && SeqMax(s.sizes) >= 1.0 ==>
      d == [Lit("Largest: "), Real(SeqMax(s.sizes), Fixed1), Lit(" km")]
    ensures s.hazardous == 0 && s.sizes != [] && SeqMax(s.sizes) < 1.0 ==>
      d == [Lit("Largest: "), Real(SeqMax(s.sizes) * 1000.0, Fixed0), Lit(" m")]
    ensures s.hazardous == 0 && s.sizes == [] ==> d == [Int(count), Lit(" tracked today")]
  {
    if s.hazardous > 0 then [Int(s.hazardous), Lit(" hazardous")]
    else if s.sizes != [] then
      var largest := SeqMax(s.sizes);
      if largest >= 1.0 then [Lit("Largest: "), Real(largest, Fixed1), Lit(" km")]
      else [Lit("Largest: "), Real(largest * 1000.0, Fixed0), Lit(" m")]
    else [Int(count), Lit(" tracked today")]
  }

  /** The parsing part of `fetch_neo_data`: a positive count, a non-empty first day, and no failing object. */
  function ParseNeo(p: NeoPayload): (r: Parsed)
    ensures !r.Raised?
    ensures r.Live? <==> (p.NeoFeed? && p.elementCount > 0 && p.firstDay.Some? && p.firstDay.value != []
      && forall i :: 0 <= i < |p.firstDay.value| ==> !Fails(p.firstDay.value[i]))
    ensures r.Live? ==> r.image == None
    ensures r.Live? ==> |r.title| >= 3 && r.title[..3] == [Lit("Today: "), Int(p.elementCount), Lit(" asteroids")]
    ensures r.Live? ==> var objs := p.firstDay.value;
      var s := NeoStats(PositiveSpeeds(objs), PositiveDistances(objs), PositiveSizes(objs), HazardCount(objs));
      r.title == NeoTitle(p.elementCount, s) && r.description == NeoDescription(p.elementCount, s)
  {
    match p
    case NeoOther => Offline
    case NeoFeed(count, firstDay) =>
      if firstDay.None? || count <= 0 || firstDay.value == [] then Offline
      else
        match Aggregate(firstDay.value)
        case None => Offline
        case Some(s) => Live(None, NeoTitle(count, s), NeoDescription(count, s))
  }

  /** The speed range is ordered and contains every kept speed. */
  lemma SpeedRangeCoversSpeeds(s: NeoStats)
    requires s.speeds != []
    ensures SeqMin(s.speeds) <= SeqMax(s.speeds)
    ensures forall i :: 0 <= i < |s.speeds| ==> SeqMin(s.speeds) <= s.speeds[i] <= SeqMax(s.speeds)
  {
    assert SeqMin(s.speeds) <= s.speeds[0];
  }

  /** The description names the hazardous objects exactly when some object read to the end is hazardous. */
  lemma HazardsComeFirst(count: int, objs: seq<NeoObject>)
    requires Aggregate(objs).Some?
    ensures var d := NeoDescription(count, Aggregate(objs).value);
      d[|d| - 1] == Lit(" hazardous") <==> exists i :: 0 <= i < |objs| && Counted(objs[i]) && objs[i].hazardous
  {
  }

  /** An object that fails makes the whole aggregation fail. */
  lemma FailureIsFinal(objs: seq<NeoObject>, i: nat)
    requires i < |objs| && Fails(objs[i])
    ensures Aggregate(objs).None?
  {
  }

  /** The loop's next prefix is one `Step` further. */
  lemma AggregateStep(objs: seq<NeoObject>, i: nat, s: NeoStats)
    requires i < |objs| && Aggregate(objs[..i]) == Some(s)
    ensures Aggregate(objs[..i + 1]) == Step(s, objs[i])
  {
    assert objs[..i + 1][..i] == objs[..i];
  }

  /**
   * The body of the loop of `fetch_neo_data` for one object: `failed` where an exception the
   * loop does not catch is raised; a caught one ends the object with what it had gathered.
   */
  method ReadObject(stats: NeoStats, neo: NeoObject) returns (failed: bool, next: NeoStats)
    ensures failed <==> Step(stats, neo).None?
    ensures !failed ==> Step(stats, neo) == Some(next)
  {
    failed, next := false, stats;
    if neo.NeoNotObject? {
      return true, stats;
    }
    if !neo.hasApproach {
      return;
    }
    var speed: real;
    match neo.velocity {
      case BadType =>
        return true, stats;
      case BadText =>
        return;
      case Num(v) =>
        speed := v;
    }
    if speed > 0.0 {
      next := next.(speeds := next.speeds + [speed]);
    }
    var distance: real;
    match neo.distance {
      case BadType =>
        return true, stats;
      case BadText =>
        return;
      case Num(d) =>
        distance := d;
    }
    if distance > 0.0 {
      next := next.(distances := next.distances + [distance]);
    }
    if neo.maxDiameter.None? {
      return true, stats;
    }
    if neo.maxDiameter.value > 0.0 {
      next := next.(sizes := next.sizes + [neo.maxDiameter.value]);
    }
    if neo.hazardous {
      next := next.(hazardous := next.hazardous + 1);
    }
  }

  /** The loop of `fetch_neo_data`, with its early exit on an exception it does not catch. */
  method AggregateNeo(objs: seq<NeoObject>) returns (failed: bool, stats: NeoStats)
    ensures failed <==> Aggregate(objs).None?
    ensures !failed ==> Aggregate(objs) == Some(stats)
  {
    failed := false;
    stats := NoStats;
    var i := 0;
    while i < |objs|
      invariant 0 <= i <= |objs|
      invariant Aggregate(objs[..i]) == Some(stats)
    {
      AggregateStep(objs, i, stats);
      var objectFailed, next := ReadObject(stats, objs[i]);
      if objectFailed {
        FailureIsFinal(objs, i);
        failed := true;
        return;
      }
      stats := next;
      i := i + 1;
    }
    assert objs[..|objs|] == objs;
  }

  /** The parsing part of `fetch_neo_data`, with the loop run as a method. */
  method ReadNeo(p: NeoPayload) returns (r: Parsed)
    ensures r == ParseNeo(p)
  {
    r := Offline;
    if p.NeoFeed? && p.firstDay.Some? && p.elementCount > 0 {
      var objects := p.firstDay.value;
      if objects != [] {
        var failed, stats := AggregateNeo(objects);
        if !failed {
          r := Live(None, NeoTitle(p.elementCount, stats), NeoDescription(p.elementCount, stats));
        }
      }
    }
  }
}
