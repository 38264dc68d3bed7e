/**
 * The Earth Polychromatic Imaging Camera fetcher: metadata of the newest full-disc image.
 */
module Epic {
  import opened Options
  import opened Display
  import opened Feed

  /** One entry of the image list. */
  datatype EpicImage =
    | EpicImage(date: string, readableDate: Option<string>, caption: string, centroid: Option<(real, real)>)
      // `readableDate`: the date as "%b %d" when its first word parses as an ISO date, `None` otherwise;
      // `centroid`: latitude and longitude when the coordinates object holds both
    | EpicNotObject

  /** The decoded response body. */
  datatype EpicPayload = EpicList(images: seq<EpicImage>) | EpicOther

  /** The date shown: the parsed form, or the first ten characters of the raw date. */
  function ReadableDate(date: string, parsed: Option<string>): (r: string)
    ensures parsed.Some? ==> r == parsed.value
    ensures parsed.None? ==> |r| == (if |date| < 10 then |date| else 10) && r == date[..|r|]
  {
    match parsed
    case Some(d) => d
    case None => if |date| < 10 then date else date[..10]
  }

  /** "Earth {date} • {caption}", or the full-disc title without a caption. */
  function EpicTitle(readable: string, caption: string): (t: Text)
    ensures caption != "" ==> t == [Lit("Earth "), Lit(readable), Lit(" • "), Lit(caption)]
    ensures caption == "" ==> t == [Lit("Earth full-disc imagery from "), Lit(readable)]
  {
    if caption != "" then [Lit("Earth "), Lit(readable), Lit(" • "), Lit(caption)]
    else [Lit("Earth full-disc imagery from "), Lit(readable)]
  }

  /** The centroid's latitude and longitude to one decimal, else the satellite and the date. */
  function EpicDescription(readable: string, centroid: Option<(real, real)>): (t: Text)
    ensures centroid.Some? ==>
      t == [Lit("Center: "), Real(centroid.value.0, Fixed1), Lit("°, "), Real(centroid.value.1, Fixed1), Lit("°")]
    ensures centroid.None? ==> t == [Lit("DSCOVR • "), Lit(readable)]
  {
    match centroid
    case Some((lat, lon)) => [Lit("Center: "), Real(lat, Fixed1), Lit("°, "), Real(lon, Fixed1), Lit("°")]
    case None => [Lit("DSCOVR • "), Lit(readable)]
  }

  /** The parsing part of `fetch_epic_data`: only the first image of a non-empty list, and only with a date. */
  function ParseEpic(p: EpicPayload): (r: Parsed)
    ensures !r.Raised?
    ensures r.Live? <==> p.EpicList? && |p.images| > 0 && p.images[0].EpicImage? && p.images[0].date != ""
    ensures r.Live? ==> r.image == Some("")
    ensures r.Live? ==> var first := p.images[0];
      var readable := ReadableDate(first.date, first.readableDate);
      r.title == EpicTitle(readable, first.caption) && r.description == EpicDescription(readable, first.centroid)
  {
    if p.EpicList? && |p.images| > 0 && p.images[0].EpicImage? then
      var first := p.images[0];
      if first.date != "" then
        var readable := ReadableDate(first.date, first.readableDate);
        Live(Some(""), EpicTitle(readable, first.caption), EpicDescription(readable, first.centroid))
      else Offline
    else Offline
  }

  /** Everything after the newest image is ignored. */
  lemma OnlyNewestImageMatters(first: EpicImage, rest: seq<EpicImage>)
    ensures ParseEpic(EpicList([first] + rest)) == ParseEpic(EpicList([first]))
  {
  }

  /** The caption, when there is one, ends the title; without it the title says what the image is. */
  lemma TitleShowsCaption(readable: string, caption: string)
    ensures caption != "" ==> EpicTitle(readable, caption)[|EpicTitle(readable, caption)| - 1] == Lit(caption)
    ensures caption == "" ==> EpicTitle(readable, caption) == [Lit("Earth full-disc imagery from "), Lit(readable)]
  {
  }
}
