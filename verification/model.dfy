/**
 * The records of the Hacker News client: the raw item the item endpoint
 * returns, the `Story` the screens show, and the exceptions the core
 * can observe.
 */
module Model {
  import opened Outcomes
  import opened KotlinInt

  /** The `type` tag of a Hacker News item. */
  datatype ItemType = JOB | STORY | COMMENT | POLL | POLLOPT

  /** The item endpoint's wire format; every field but `id` may be absent. */
  datatype HackerNewsItem = HackerNewsItem(
    id: Int32,
    deleted: Option<bool>,
    itemType: Option<ItemType>,
    author: Option<string>,  // the `by` field
    time: Option<Int64>,
    text: Option<string>,
    dead: Option<bool>,
    parent: Option<Int64>,
    poll: Option<Int64>,
    kids: Option<seq<Int32>>,
    url: Option<string>,
    score: Option<Int32>,
    title: Option<string>,
    parts: Option<seq<Int32>>,
    descendants: Option<Int32>
  )

  /** A point on the time line, kept as whole seconds since the Unix epoch (nanoseconds are always 0 here). */
  datatype Instant = Instant(epochSecond: int)

  /** The domain record for one story. */
  datatype Story = Story(
    id: Int32,
    author: Option<string>,  // the `by` field
    time: Option<Instant>,
    title: Option<string>,
    url: Option<string>,
    score: Option<Int32>,
    descendants: Option<Int32>,
    text: Option<string>
  )

  /**
   * The exceptions the core can see. Network and decoding failures are not
   * told apart; the other two are thrown by the Java platform.
   */
  datatype Throwable =
    | NetworkFailure(message: string)
    | IndexOutOfBounds(fromIndex: int, toIndex: int, size: int)
    | IllegalArgument(fromIndex: int, toIndex: int)
    | DateTimeFailure(epochSecond: int)

  /** The range of seconds `java.time.Instant` can represent. */
  const INSTANT_MIN_SECOND: int := -31557014167219200
  const INSTANT_MAX_SECOND: int := 31556889864403199

  /** `Instant.ofEpochSecond`: throws outside the representable range. */
  function OfEpochSecond(seconds: Int64): (r: Result<Instant, Throwable>)
    ensures r.Success? <==> INSTANT_MIN_SECOND <= seconds <= INSTANT_MAX_SECOND
    ensures r.Success? ==> r.value.epochSecond == seconds
    ensures r.Failure? ==> r.error == DateTimeFailure(seconds)
  {
    if seconds < INSTANT_MIN_SECOND || seconds > INSTANT_MAX_SECOND then Failure(DateTimeFailure(seconds))
    else Success(Instant(seconds))
  }
}
