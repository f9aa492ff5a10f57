/**
 * Archive records and the per-fragment loader `loadTweets`
 * (src/hooks/useTweets.ts; the copy in src/pages/old/index.tsx is identical).
 *
 * A timestamp is represented by the instant, in milliseconds, that its text denotes.
 * The loader reformats every `created_at` to minute precision and the rest of the
 * program parses that display text again, so a loaded record carries the instant
 * of the minute its raw timestamp falls in.
 */
module Archive {
  import opened Wrappers

  const MillisPerMinute: int := 60000

  /** One item of `extended_entities.media`. */
  datatype Media = Media(mediaUrlHttps: string, mediaType: string)

  /** `extended_entities`; the source's type always carries a `media` array. */
  datatype Entities = Entities(media: seq<Media>)

  /** The `tweet` object of one wrapper as it appears in the fragment. */
  datatype RawTweet = RawTweet(
    createdAt: Option<int>,            // None: the text does not parse as a date
    fullText: string,
    extendedEntities: Option<Entities>)

  /** One element of `window.YTD.tweets.part0`; `tweet` may be missing. */
  datatype Wrapper = Wrapper(tweet: Option<RawTweet>)

  /** What reading and evaluating one selected file produced. */
  datatype FileData =
    | ReadFailed                       // the FileReader rejected
    | ScriptFailed                     // evaluating the fragment threw
    | Evaluated(part0: seq<Wrapper>)   // the array bound at window.YTD.tweets.part0

  /** One input row: an optional file and the owner label typed next to it. */
  datatype Slot = Slot(file: Option<FileData>, userName: string)

  const EmptySlot: Slot := Slot(None, "")

  /** A normalized record: the wrapper's tweet, reformatted date, tagged with its owner. */
  datatype Tweet = Tweet(
    createdAt: int,
    fullText: string,
    extendedEntities: Option<Entities>,
    userName: string)

  /**
   * formatDate followed by parsing the formatted text again: the instant of the
   * start of the minute that `ms` falls in.
   */
  function FormatDate(ms: int): (r: int)
    ensures r <= ms < r + MillisPerMinute
    ensures r % MillisPerMinute == 0
  {
    ms - ms % MillisPerMinute
  }

  /** Reformatting never reverses the order of two instants. */
  lemma FormatDateMonotone(a: int, b: int)
    requires a <= b
    ensures FormatDate(a) <= FormatDate(b)
  {
  }

  /** A wrapper the loader can convert without throwing. */
  predicate Convertible(w: Wrapper)
  {
    w.tweet.Some? && w.tweet.value.createdAt.Some?
  }

  /** The object literal `{...tweetData.tweet, created_at: formatDate(...), userName}`. */
  function Normalize(w: Wrapper, userName: string): Tweet
    requires Convertible(w)
  {
    var raw := w.tweet.value;
    Tweet(FormatDate(raw.createdAt.value), raw.fullText, raw.extendedEntities, userName)
  }

  /** `loadedTweets.map(...)`: None when converting some wrapper throws. */
  function ConvertAll(ws: seq<Wrapper>, userName: string): (r: Option<seq<Tweet>>)
    ensures r.Some? <==> forall i :: 0 <= i < |ws| ==> Convertible(ws[i])
    ensures r.Some? ==> |r.value| == |ws|
    ensures r.Some? ==> forall i :: 0 <= i < |ws| ==> r.value[i] == Normalize(ws[i], userName)
  {
    if ws == [] then Some([])
    else if !Convertible(ws[0]) then None
    else
      match ConvertAll(ws[1..], userName)
      case None => None
      case Some(rest) => Some([Normalize(ws[0], userName)] + rest)
  }

  /**
   * loadTweets: no file, a read error or a script error give the empty sequence.
   */
  function LoadTweets(slot: Slot): (r: seq<Tweet>)
    ensures slot.file.None? ==> r == []
    ensures slot.file == Some(ReadFailed) || slot.file == Some(ScriptFailed) ==> r == []
  {
    match slot.file
    case None => []
    case Some(ReadFailed) => []
    case Some(ScriptFailed) => []
    case Some(Evaluated(ws)) =>
      match ConvertAll(ws, slot.userName)
      case None => []
      case Some(ts) => ts
  }

  /** Every record loaded from a slot is tagged with that slot's owner label. */
  lemma LoadTweetsTagsOwner(slot: Slot)
    ensures forall t :: t in LoadTweets(slot) ==> t.userName == slot.userName
  {
  }

  /**
   * An evaluated fragment whose wrappers all convert yields one record per wrapper,
   * in wrapper order, with the text and media copied, the owner label attached and
   * the timestamp cut to its minute.
   */
  lemma LoadTweetsMapsWrappers(slot: Slot, ws: seq<Wrapper>)
    requires slot.file == Some(Evaluated(ws))
    requires forall i :: 0 <= i < |ws| ==> Convertible(ws[i])
    ensures |LoadTweets(slot)| == |ws|
    ensures forall i :: 0 <= i < |ws| ==>
      var t, raw := LoadTweets(slot)[i], ws[i].tweet.value;
      && t.userName == slot.userName
      && t.fullText == raw.fullText
      && t.extendedEntities == raw.extendedEntities
      && t.createdAt == FormatDate(raw.createdAt.value)
      && t.createdAt % MillisPerMinute == 0
      && t.createdAt <= raw.createdAt.value < t.createdAt + MillisPerMinute
  {
  }

  /** One wrapper that cannot be converted makes the whole fragment yield nothing. */
  lemma LoadTweetsRejectsFragment(slot: Slot, ws: seq<Wrapper>, k: nat)
    requires slot.file == Some(Evaluated(ws))
    requires k < |ws| && !Convertible(ws[k])
    ensures LoadTweets(slot) == []
  {
  }
}
