/**
 * The Astronomy Picture of the Day fetcher: image, title and a display description cut from
 * the first sentence of the explanation.
 */
module Apod {
  import opened Options
  import opened Strings
  import opened Display
  import opened Feed

  /** The decoded response body. */
  datatype ApodPayload =
    | ApodObject(hdurl: string, url: string, title: string, explanation: string, date: string)
      // a JSON object; a missing field reads as ""
    | ApodNotObject  // a list or a scalar

  /** Longest description, in characters, the word loop builds before the ellipsis. */
  const ShortLimit := 28

  /** `" ".join(ws)`. */
  function JoinWords(ws: seq<string>): string
    decreases |ws|
  {
    if ws == [] then ""
    else if |ws| == 1 then ws[0]
    else JoinWords(ws[..|ws| - 1]) + " " + ws[|ws| - 1]
  }

  /** Joining one more word costs a space and the word, except for the first word. */
  lemma JoinWordsStep(ws: seq<string>, k: nat)
    requires k < |ws|
    ensures JoinWords(ws[..k + 1]) == if k == 0 then ws[0] else JoinWords(ws[..k]) + " " + ws[k]
  {
    if k > 0 {
      assert ws[..k + 1][..k] == ws[..k];
    }
  }

  /**
   * How many leading words the loop keeps, given that it already kept `k`: it takes the next word
   * while the text so far, a space and that word fit in `ShortLimit` characters, and stops at the first
   * word that does not.
   */
  function KeptCount(ws: seq<string>, k: nat): (n: nat)
    requires k <= |ws|
    ensures k <= n <= |ws|
    decreases |ws| - k
  {
    if k < |ws| && |JoinWords(ws[..k])| + 1 + |ws[k]| <= ShortLimit then KeptCount(ws, k + 1) else k
  }

  /** The words the loop keeps, joined by spaces. */
  function Shortened(ws: seq<string>): string {
    JoinWords(ws[..KeptCount(ws, 0)])
  }

  lemma {:induction false} KeptTextFits(ws: seq<string>, k: nat)
    requires k <= |ws| && |JoinWords(ws[..k])| <= ShortLimit
    ensures |JoinWords(ws[..KeptCount(ws, k)])| <= ShortLimit
    decreases |ws| - k
  {
    if k < |ws| && |JoinWords(ws[..k])| + 1 + |ws[k]| <= ShortLimit {
      JoinWordsStep(ws, k);
      KeptTextFits(ws, k + 1);
    }
  }

  /** The shortened text never exceeds the limit. */
  lemma ShortenedFits(ws: seq<string>)
    ensures |Shortened(ws)| <= ShortLimit
  {
    KeptTextFits(ws, 0);
  }

  lemma {:induction false} KeptCountStops(ws: seq<string>, k: nat)
    requires k <= |ws|
    ensures var n := KeptCount(ws, k);
      n < |ws| ==> |JoinWords(ws[..n])| + 1 + |ws[n]| > ShortLimit
    decreases |ws| - k
  {
    if k < |ws| && |JoinWords(ws[..k])| + 1 + |ws[k]| <= ShortLimit {
      KeptCountStops(ws, k + 1);
    }
  }

  /** The loop keeps as many words as it can: the first word it leaves out would overflow the limit. */
  lemma ShortenedIsMaximal(ws: seq<string>)
    ensures var n := KeptCount(ws, 0);
      n < |ws| ==> |Shortened(ws)| + 1 + |ws[n]| > ShortLimit
  {
    KeptCountStops(ws, 0);
  }

  /** With non-empty words, nothing is kept exactly when there is no word or the first one is too long. */
  lemma ShortenedEmpty(ws: seq<string>)
    requires forall k :: 0 <= k < |ws| ==> ws[k] != ""
    ensures Shortened(ws) == "" <==> ws == [] || |ws[0]| > ShortLimit - 1
  {
    var n := KeptCount(ws, 0);
    if n > 0 {
      assert ws != [] && |ws[0]| <= ShortLimit - 1;
      if n == 1 {
        assert ws[..1] == [ws[0]];
      } else {
        JoinWordsStep(ws, n - 1);
      }
    }
  }

  /** The explanation without "Explanation:" and without surrounding whitespace. */
  function Cleaned(explanation: string): string {
    Strip(RemoveAll(explanation, "Explanation:"))
  }

  /**
   * `text.split('. ')[0]` of the cleaned explanation: the part of it before its first ". ", or
   * all of it when it has none.
   */
  function FirstSentence(explanation: string): (first: string)
    ensures var clean := Cleaned(explanation);
      && |first| <= |clean| && first == clean[..|first|]
      && (first == clean || StartsWith(clean[|first|..], ". "))
      && !Contains(first, ". ")
  {
    FirstPiece(Cleaned(explanation), ". ")
  }

  /**
   * The display description: a first sentence of at most 30 characters as it is; a longer one
   * shortened to whole words with an ellipsis; "Image from {date}" when no word fits.
   */
  function Description(explanation: string, date: string): (t: Text)
    ensures |FirstSentence(explanation)| <= 30 ==> t == Str(FirstSentence(explanation))
    ensures |FirstSentence(explanation)| > 30 && Shortened(Words(FirstSentence(explanation))) != "" ==>
      t == Str(Shortened(Words(FirstSentence(explanation))) + "...")
    ensures |FirstSentence(explanation)| > 30 && Shortened(Words(FirstSentence(explanation))) == "" ==>
      t == [Lit("Image from "), Lit(date)]
    ensures t == [Lit("Image from "), Lit(date)] || (|t| == 1 && t[0].Lit? && |t[0].s| <= 31)
  {
    var first := FirstSentence(explanation);
    if |first| <= 30 then Str(first)
    else
      var short := Shortened(Words(first));
      ShortenedFits(Words(first));
      if short != "" then Str(short + "...") else [Lit("Image from "), Lit(date)]
  }

  /** The ellipsis form is taken exactly when the first word of a long first sentence fits. */
  lemma DescriptionFallsBackToDate(explanation: string, date: string)
    requires |FirstSentence(explanation)| > 30
    ensures var ws := Words(FirstSentence(explanation));
      Description(explanation, date) == [Lit("Image from "), Lit(date)] <==> ws == [] || |ws[0]| > ShortLimit - 1
  {
    var ws := Words(FirstSentence(explanation));
    ShortenedEmpty(ws);
    ShortenedFits(ws);
  }

  /** The split stops just before the first ". ": a sentence followed by one is kept without its full stop. */
  lemma {:induction false} SplitDropsTheFullStop(a: string, b: string)
    requires !Contains(a, ". ")
    ensures FirstPiece(a + ". " + b, ". ") == a
    decreases |a|
  {
    var s := a + ". " + b;
    if a == [] {
      assert s[..2] == ". ";
    } else {
      if |a| >= 2 {
        assert s[..2] == a[..2];
      } else {
        assert s[..2] == [a[0], '.'];
      }
      assert s[1..] == a[1..] + ". " + b;
      SplitDropsTheFullStop(a[1..], b);
    }
  }

  /** `hdurl or url`. */
  function ImageOf(hdurl: string, url: string): (image: string)
    ensures hdurl != "" ==> image == hdurl
    ensures hdurl == "" ==> image == url
  {
    if hdurl != "" then hdurl else url
  }

  /** The parsing part of `fetch_apod_data`: live data needs both a title and an explanation. */
  function ParseApod(p: ApodPayload): (r: Parsed)
    ensures !r.Raised?
    ensures r.Live? <==> p.ApodObject? && p.title != "" && p.explanation != ""
    ensures r.Live? ==> r.image == Some(ImageOf(p.hdurl, p.url)) && r.title == Str(p.title)
    ensures r.Live? ==> r.description == Description(p.explanation, p.date)
  {
    match p
    case ApodObject(hdurl, url, title, explanation, date) =>
      if title != "" && explanation != "" then
        Live(Some(ImageOf(hdurl, url)), Str(title), Description(explanation, date))
      else Offline
    case ApodNotObject => Offline
  }

  /** The word loop of the description, over the words of the first sentence. */
  method ShortenWords(words: seq<string>) returns (short: string)
    requires forall k :: 0 <= k < |words| ==> words[k] != ""
    ensures short == Shortened(words)
  {
    short := "";
    var i := 0;
    while i < |words|
      invariant 0 <= i <= |words|
      invariant short == JoinWords(words[..i])
      invariant short == "" <==> i == 0
      invariant KeptCount(words, i) == KeptCount(words, 0)
    {
      var word := words[i];
      if |short + " " + word| <= ShortLimit {
        JoinWordsStep(words, i);
        short := short + (if short != "" then " " + word else word);
      } else {
        break;
      }
      i := i + 1;
    }
  }

  /** `first_sentence.split()`, then the word loop. */
  method ShortDescription(first: string) returns (short: string)
    ensures short == Shortened(Words(first))
  {
    var words := Words(first);
    short := ShortenWords(words);
  }

  /** The parsing part of `fetch_apod_data`, with the description computed by the word loop. */
  method ReadApod(p: ApodPayload) returns (r: Parsed)
    ensures r == ParseApod(p)
  {
    if p.ApodObject? && p.title != "" && p.explanation != "" {
      var description := Describe(p.explanation, p.date);
      r := Live(Some(ImageOf(p.hdurl, p.url)), Str(p.title), description);
    } else {
      r := Offline;
    }
  }

  /** The description as the fetcher computes it, with the word loop run as a method. */
  method Describe(explanation: string, date: string) returns (description: Text)
    ensures description == Description(explanation, date)
  {
    var clean := Strip(RemoveAll(explanation, "Explanation:"));
    var first := FirstPiece(clean, ". ");
    assert first == FirstSentence(explanation);
    if |first| <= 30 {
      description := Str(first);
    } else {
      var short := ShortDescription(first);
      description := if short != "" then Str(short + "...") else [Lit("Image from "), Lit(date)];
    }
  }
}
