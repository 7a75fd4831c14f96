/** The captured event and the small types it is made of (internal/trace). */
module Events {

  datatype Option<+T> = None | Some(value: T)

  /** Milliseconds since Go's zero time, so `ZERO_TIME` is the instant `IsZero` recognises and a
      multiple of a day's milliseconds is a UTC midnight. */
  type Instant = int
  const ZERO_TIME: Instant := 0

  /** A UTC day, counted from the same origin. Dafny's division floors for a positive divisor. */
  type Day = int

  function DayOf(at: Instant): Day {
    at / 86_400_000
  }

  function StartOf(day: Day): Instant {
    day * 86_400_000
  }

  /** A day has twenty-four hours, and every instant lies on exactly one. */
  lemma DaysAreHours(at: Instant, day: Day)
    ensures StartOf(day + 1) - StartOf(day) == 24 * 60 * 60 * 1000
    ensures DayOf(at) == day <==> StartOf(day) <= at < StartOf(day + 1)
  {
  }

  datatype EventType = Request | Response | Failure | Content

  datatype ContentKind = NoKind | Text | Thinking | ToolUse | ToolResult

  datatype Identity = Identity(tenantID: string, userID: string, machineID: string)

  const NO_IDENTITY := Identity("", "", "")

  datatype CacheSplit = CacheSplit(fiveMin: int, oneHour: int)

  datatype Usage = Usage(
    input: int,
    output: int,
    cacheWrite: int,
    cacheRead: int,
    split: Option<CacheSplit>,
    reasoning: Option<int>)

  const NO_USAGE := Usage(0, 0, 0, 0, None, None)

  /** Cache writes by tier; without a reported breakdown everything counts as the five-minute tier. */
  function CacheWrites(u: Usage): CacheSplit {
    match u.split
    case None => CacheSplit(u.cacheWrite, 0)
    case Some(s) => s
  }

  datatype ToolCall = ToolCall(id: string, name: string)

  datatype Event = Event(
    kind: EventType,
    timestamp: Instant,
    sessionID: string,
    turnID: string,
    identity: Identity,
    source: string,
    messageID: string,
    model: string,
    stream: bool,
    messageCount: int,
    systemBlocks: int,
    toolsOffered: seq<string>,
    statusCode: int,
    durationMS: int,
    ttfbMS: int,
    stopReason: string,
    usage: Option<Usage>,
    toolCalls: seq<ToolCall>,
    requestBlob: string,
    responseBlob: string,
    project: string,
    projectID: string,
    inRepo: bool,
    gitBranch: string,
    effort: string,
    subagent: bool,
    error: string,
    contentKind: ContentKind,
    toolUseID: string,
    contentBlob: string)

  /** An event carrying nothing; concrete scenarios are written as updates of it. */
  const BLANK_EVENT := Event(
    Response, ZERO_TIME, "", "", NO_IDENTITY, "", "", "", false, 0, 0, [], 0, 0, 0, "", None, [],
    "", "", "", "", false, "", "", false, "", NoKind, "", "")
}
