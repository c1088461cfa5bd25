/**
 * The Moltbook API client's local guards (`MoltbookAPI`): the key format check, the client-side
 * rate limits on requests, posts and comments, the post and comment bookkeeping, and the clamping
 * of request parameters. The HTTP calls are represented only by whether the server answered.
 */
module MoltbookApi {
  import opened Wrappers
  import opened Strings

  const REQUESTS_PER_MINUTE := 100
  const POST_INTERVAL := 1800
  const COMMENT_INTERVAL := 20
  const COMMENTS_PER_DAY := 50

  /** A JSON value as the API returns it. */
  datatype Json = Null | Bool(b: bool) | Num(n: int) | Text(s: string)
                | List(items: seq<Json>) | Dict(fields: map<string, Json>)

  /** Python's truth value of a JSON value. */
  predicate Truthy(v: Json) {
    match v
    case Null => false
    case Bool(b) => b
    case Num(n) => n != 0
    case Text(s) => s != ""
    case List(items) => |items| > 0
    case Dict(fields) => |fields| > 0
  }

  /** `_extract_name(obj, fallback)` */
  function ExtractName(obj: Json, fallback: string): (r: Json)
    ensures obj.Dict? && "name" in obj.fields ==> r == obj.fields["name"]
    ensures obj.Dict? && "name" !in obj.fields && "slug" in obj.fields ==> r == obj.fields["slug"]
    ensures obj.Dict? && "name" !in obj.fields && "slug" !in obj.fields ==> r == Text(fallback)
    ensures !obj.Dict? ==> r == (if Truthy(obj) then obj else Text(fallback))
  {
    if obj.Dict? then
      if "name" in obj.fields then obj.fields["name"]
      else if "slug" in obj.fields then obj.fields["slug"]
      else Text(fallback)
    else if Truthy(obj) then obj
    else Text(fallback)
  }

  /** A name given as text is returned as it is, and a missing one becomes the fallback. */
  lemma ExtractNameOfText(s: string, fallback: string)
    ensures ExtractName(Text(s), fallback) == Text(if s == "" then fallback else s)
    ensures ExtractName(Null, fallback) == Text(fallback)
  {
  }

  /** The constructor's key check. */
  predicate KeyValid(key: string) {
    key != "" && StartsWith(key, "moltbook_")
  }

  lemma KeyValidPrefix(key: string)
    ensures KeyValid(key) <==> |key| >= 9 && key[..9] == "moltbook_"
  {
  }

  /** `RateLimitError(retry_after, daily_remaining)` */
  datatype RateLimitError = RateLimitError(retryAfter: int, dailyRemaining: Option<int>)

  /** The request times less than a minute old. */
  function LastMinute(ts: seq<real>, now: real): (r: seq<real>)
    ensures |r| <= |ts|
    ensures forall t :: t in r <==> t in ts && now - t < 60.0
  {
    if |ts| == 0 then []
    else (if now - ts[0] < 60.0 then [ts[0]] else []) + LastMinute(ts[1..], now)
  }

  /** The "post" rule: refused with the remaining wait while less than the interval has passed. */
  function PostVerdict(lastPost: real, now: real): (e: Option<RateLimitError>)
    ensures e.Some? <==> now - lastPost < POST_INTERVAL as real
    ensures e.Some? ==> e.value.dailyRemaining.None? && 0 <= e.value.retryAfter
    ensures e.Some? && lastPost <= now ==> e.value.retryAfter <= POST_INTERVAL
  {
    var elapsed := now - lastPost;
    if elapsed < POST_INTERVAL as real then
      Some(RateLimitError((POST_INTERVAL as real - elapsed).Floor, None))
    else None
  }

  /** The "comment" rule: the daily cap first, then the interval. */
  function CommentVerdict(commentsToday: int, lastComment: real, now: real): (e: Option<RateLimitError>)
    ensures commentsToday >= COMMENTS_PER_DAY ==> e == Some(RateLimitError(86400, Some(0)))
    ensures commentsToday < COMMENTS_PER_DAY ==> (e.Some? <==> now - lastComment < COMMENT_INTERVAL as real)
    ensures commentsToday < COMMENTS_PER_DAY && e.Some? ==>
      e.value.dailyRemaining == Some(COMMENTS_PER_DAY - commentsToday) && 0 <= e.value.retryAfter
    ensures commentsToday < COMMENTS_PER_DAY && e.Some? && lastComment <= now ==>
      e.value.retryAfter <= COMMENT_INTERVAL
  {
    if commentsToday >= COMMENTS_PER_DAY then Some(RateLimitError(86400, Some(0)))
    else
      var elapsed := now - lastComment;
      if elapsed < COMMENT_INTERVAL as real then
        Some(RateLimitError((COMMENT_INTERVAL as real - elapsed).Floor,
                            Some(COMMENTS_PER_DAY - commentsToday)))
      else None
  }

  /** Query parameters of `get_posts`: limit capped at 100, every "m/" removed from the submolt. */
  function PostsParams(submolt: string, limit: int): (r: (int, Option<string>))
    ensures r.0 <= 100 && (limit <= 100 ==> r.0 == limit)
    ensures r.1.Some? <==> submolt != ""
    ensures r.1.Some? ==> r.1.value == ReplaceAll(submolt, "m/", "")
  {
    (if limit < 100 then limit else 100,
     if submolt != "" then Some(ReplaceAll(submolt, "m/", "")) else None)
  }

  /** Query parameters of `search`: the query cut to 500 characters, the limit capped at 50. */
  function SearchParams(query: string, limit: int): (r: (string, int))
    ensures |r.0| <= 500 && |r.0| <= |query| && r.0 == query[..|r.0|]
    ensures |query| <= 500 ==> r.0 == query
    ensures r.1 <= 50 && (limit <= 50 ==> r.1 == limit)
  {
    (Take(query, 500), if limit < 50 then limit else 50)
  }

  class Api {
    var apiKey: string
    var requestTimes: seq<real>
    var lastPostTime: real
    var lastCommentTime: real
    var commentsToday: int
    var lastCommentDay: string

    /** The request log never holds more than a minute's allowance, nor the day more comments than the cap. */
    predicate Valid()
      reads this
    {
      |requestTimes| <= REQUESTS_PER_MINUTE && 0 <= commentsToday <= COMMENTS_PER_DAY
    }

    /** `MoltbookAPI(api_key)`, for a key that passes the format check. */
    constructor (apiKey: string)
      requires KeyValid(apiKey)
      ensures Valid() && this.apiKey == apiKey
      ensures requestTimes == [] && lastPostTime == 0.0 && lastCommentTime == 0.0
      ensures commentsToday == 0 && lastCommentDay == ""
    {
      this.apiKey := apiKey;
      requestTimes := [];
      lastPostTime := 0.0;
      lastCommentTime := 0.0;
      commentsToday := 0;
      lastCommentDay := "";
    }

    /** `_check_rate_limit(action)` at time `now` on the day `today`. */
    method CheckRateLimit(action: string, now: real, today: string) returns (e: Option<RateLimitError>)
      requires Valid()
      modifies this
      ensures Valid()
      ensures lastCommentDay == today
      ensures commentsToday == (if today != old(lastCommentDay) then 0 else old(commentsToday))
      ensures lastPostTime == old(lastPostTime) && lastCommentTime == old(lastCommentTime)
      ensures apiKey == old(apiKey)
      ensures action == "request" ==>
        var kept := LastMinute(old(requestTimes), now);
        if |kept| >= REQUESTS_PER_MINUTE then e == Some(RateLimitError(60, None)) && requestTimes == kept
        else e.None? && requestTimes == kept + [now]
      ensures action != "request" ==> requestTimes == old(requestTimes)
      ensures action == "post" ==> e == PostVerdict(lastPostTime, now)
      ensures action == "comment" ==> e == CommentVerdict(commentsToday, lastCommentTime, now)
      ensures action != "request" && action != "post" && action != "comment" ==> e.None?
    {
      if today != lastCommentDay {
        commentsToday := 0;
        lastCommentDay := today;
      }
      e := None;
      if action == "request" {
        requestTimes := LastMinute(requestTimes, now);
        if |requestTimes| >= REQUESTS_PER_MINUTE {
          e := Some(RateLimitError(60, None));
        } else {
          requestTimes := requestTimes + [now];
        }
      } else if action == "post" {
        e := PostVerdict(lastPostTime, now);
      } else if action == "comment" {
        e := CommentVerdict(commentsToday, lastCommentTime, now);
      }
    }

    /**
     * The bookkeeping of `create_post`: the post check, then the request check, both at `now`,
     * then the server's answer; only a post the server accepted moves `_last_post_time`, to the
     * clock's reading `done` once the answer is in.
     */
    method CreatePost(now: real, today: string, serverOk: bool, done: real) returns (r: Result<()>)
      requires Valid()
      modifies this
      ensures Valid()
      ensures r.Success? ==> lastPostTime == done
      ensures r.Failure? ==> lastPostTime == old(lastPostTime)
      ensures r.Success? ==> old(PostVerdict(lastPostTime, now)).None? && serverOk
      ensures r.Success? ==> |LastMinute(old(requestTimes), now)| < REQUESTS_PER_MINUTE
      ensures r.Success? ==> requestTimes == LastMinute(old(requestTimes), now) + [now]
      ensures old(PostVerdict(lastPostTime, now)).Some? ==> r.Failure? && requestTimes == old(requestTimes)
      ensures old(PostVerdict(lastPostTime, now)).None? ==>
        var kept := LastMinute(old(requestTimes), now);
        requestTimes == (if |kept| >= REQUESTS_PER_MINUTE then kept else kept + [now])
      ensures lastCommentDay == today
      ensures commentsToday == (if today != old(lastCommentDay) then 0 else old(commentsToday))
      ensures lastCommentTime == old(lastCommentTime)
      ensures apiKey == old(apiKey)
    {
      var e := CheckRateLimit("post", now, today);
      if e.Some? { return Failure("Rate limited"); }
      e := CheckRateLimit("request", now, today);
      if e.Some? { return Failure("Rate limited"); }
      if !serverOk { return Failure("Request failed"); }
      lastPostTime := done;
      r := Success(());
    }

    /**
     * The bookkeeping of `create_comment`: the comment and request checks at `now`; only a
     * comment the server accepted moves `_last_comment_time`, to the clock's reading `done` once
     * the answer is in, and counts, by exactly one, towards the day's cap.
     */
    method CreateComment(now: real, today: string, serverOk: bool, done: real) returns (r: Result<()>)
      requires Valid()
      modifies this
      ensures Valid()
      ensures lastCommentDay == today
      ensures r.Success? ==> serverOk && |LastMinute(old(requestTimes), now)| < REQUESTS_PER_MINUTE
      ensures r.Success? ==> requestTimes == LastMinute(old(requestTimes), now) + [now]
      ensures r.Success? ==> CommentVerdict(if today != old(lastCommentDay) then 0 else old(commentsToday),
                                            old(lastCommentTime), now).None?
      ensures CommentVerdict(if today != old(lastCommentDay) then 0 else old(commentsToday),
                             old(lastCommentTime), now).Some? ==>
        r.Failure? && requestTimes == old(requestTimes)
      ensures CommentVerdict(if today != old(lastCommentDay) then 0 else old(commentsToday),
                             old(lastCommentTime), now).None? ==>
        var kept := LastMinute(old(requestTimes), now);
        requestTimes == (if |kept| >= REQUESTS_PER_MINUTE then kept else kept + [now])
      ensures r.Success? ==> lastCommentTime == done
      ensures r.Success? ==>
        commentsToday == (if today != old(lastCommentDay) then 0 else old(commentsToday)) + 1
      ensures r.Failure? ==> lastCommentTime == old(lastCommentTime)
      ensures r.Failure? ==>
        commentsToday == (if today != old(lastCommentDay) then 0 else old(commentsToday))
      ensures lastPostTime == old(lastPostTime)
      ensures apiKey == old(apiKey)
    {
      var e := CheckRateLimit("comment", now, today);
      if e.Some? { return Failure("Rate limited"); }
      e := CheckRateLimit("request", now, today);
      if e.Some? { return Failure("Rate limited"); }
      if !serverOk { return Failure("Request failed"); }
      lastCommentTime := done;
      commentsToday := commentsToday + 1;
      r := Success(());
    }
  }

  /** A comment the cap refuses is refused until the day changes, whatever the time. */
  lemma CapHoldsAllDay(commentsToday: int, lastComment: real, now1: real, now2: real)
    requires commentsToday >= COMMENTS_PER_DAY
    ensures CommentVerdict(commentsToday, lastComment, now1) == CommentVerdict(commentsToday, lastComment, now2)
    ensures CommentVerdict(commentsToday, lastComment, now1).Some?
  {
  }
}
