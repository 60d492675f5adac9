/** The conversion of a raw item into a `Story`: a kind filter plus a field copy. */
module Mapper {
  import opened Outcomes
  import opened KotlinInt
  import opened Model

  /** Whether the item's `time`, if present, converts to an `Instant` without throwing. */
  predicate TimeConvertible(time: Option<Int64>) {
    time.None? || INSTANT_MIN_SECOND <= time.value <= INSTANT_MAX_SECOND
  }

  /**
   * `HackerNewsItem.toStory()`: `null` (here `Success(None)`) for anything that is
   * not a story, a copy of the story fields otherwise. The epoch-seconds
   * conversion of `time` is the only step that can throw.
   */
  function ToStory(item: HackerNewsItem): (r: Result<Option<Story>, Throwable>)
    ensures item.itemType != Some(ItemType.STORY) ==> r == Success(None)
    ensures item.itemType == Some(ItemType.STORY) ==> (r.Success? <==> TimeConvertible(item.time))
    ensures r.Success? && item.itemType == Some(ItemType.STORY) ==> r.value.Some?
    ensures r.Failure? ==> r.error == DateTimeFailure(item.time.value)
    ensures r.Success? && r.value.Some? ==>
      var s := r.value.value;
      && item.itemType == Some(ItemType.STORY)
      && s.id == item.id && s.author == item.author && s.title == item.title && s.url == item.url
      && s.score == item.score && s.descendants == item.descendants && s.text == item.text
      && (s.time.Some? <==> item.time.Some?)
      && (s.time.Some? ==> s.time.value.epochSecond == item.time.value)
  {
    if item.itemType != Some(ItemType.STORY) then Success(None)
    else
      match item.time
      case None => Success(Some(CopyFields(item, None)))
      case Some(seconds) =>
        match OfEpochSecond(seconds)
        case Failure(e) => Failure(e)
        case Success(instant) => Success(Some(CopyFields(item, Some(instant))))
  }

  /** The field copy of `toStory`, with the already-converted time. */
  function CopyFields(item: HackerNewsItem, time: Option<Instant>): Story {
    Story(item.id, item.author, time, item.title, item.url, item.score, item.descendants, item.text)
  }

  /** The fields `toStory` reads; everything else in an item is ignored. */
  predicate SameStoryFields(a: HackerNewsItem, b: HackerNewsItem) {
    && a.id == b.id && a.itemType == b.itemType && a.author == b.author && a.time == b.time
    && a.title == b.title && a.url == b.url && a.score == b.score
    && a.descendants == b.descendants && a.text == b.text
  }

  /** Two items that differ only in `deleted`, `dead`, `parent`, `poll`, `kids` or `parts` map alike. */
  lemma ToStoryIgnoresOtherFields(a: HackerNewsItem, b: HackerNewsItem)
    requires SameStoryFields(a, b)
    ensures ToStory(a) == ToStory(b)
  {
  }

  /** The story `toStory` yields determines the item's story fields: no two different stories come from one item's fields. */
  lemma ToStoryDeterminesFields(a: HackerNewsItem, b: HackerNewsItem)
    requires ToStory(a).Success? && ToStory(a).value.Some?
    requires ToStory(a) == ToStory(b)
    ensures SameStoryFields(a, b)
  {
  }
}
