/**
 * The observatory's metrics (`AgentMetrics` in `tools/observatory/__init__.py`): every post,
 * comment, upvote, blocked attack and API call the agent makes is appended to an event list,
 * and a summary counts the events of each type, in total and since midnight, and lists the ten
 * most recent ones.
 *
 * Times are naive local `datetime`s counted in microseconds from 0001-01-01 00:00, so the
 * start of a day is a multiple of `MICROS_PER_DAY`; `datetime.now()` is the parameter `now`.
 */
module Observatory {
  import opened Wrappers
  import opened Strings

  /** A naive `datetime`, in microseconds since 0001-01-01 00:00. */
  type Time = nat

  const MICROS_PER_DAY: nat := 86_400_000_000

  /** The local midnight that starts the day of `now` (its hour, minute, second and microsecond set to zero). */
  function TodayStart(now: Time): (r: Time)
    ensures r <= now && now - r < MICROS_PER_DAY && r % MICROS_PER_DAY == 0
  {
    now - now % MICROS_PER_DAY
  }

  /** `ActivityEvent` */
  datatype ActivityEvent = ActivityEvent(timestamp: Time, eventType: string, details: string, riskLevel: Option<string>)

  const POST := "post"
  const COMMENT := "comment"
  const UPVOTE := "upvote"
  const BLOCKED_ATTACK := "blocked_attack"
  const API_CALL := "api_call"

  /** The number of events of type `k`. */
  function CountType(es: seq<ActivityEvent>, k: string): (r: nat)
    ensures r <= |es|
    decreases |es|
  {
    if |es| == 0 then 0
    else CountType(es[..|es| - 1], k) + (if es[|es| - 1].eventType == k then 1 else 0)
  }

  /** The number of events of type `k` stamped at `start` or later. */
  function CountTypeSince(es: seq<ActivityEvent>, k: string, start: Time): nat
    decreases |es|
  {
    if |es| == 0 then 0
    else CountTypeSince(es[..|es| - 1], k, start) + (if es[|es| - 1].eventType == k && es[|es| - 1].timestamp >= start then 1 else 0)
  }

  /** Counting by type agrees with the events themselves: the count is the size of the filtered list. */
  lemma {:induction false} CountMeaning(es: seq<ActivityEvent>, k: string)
    ensures CountType(es, k) == |Of(es, k)|
    decreases |es|
  {
    if |es| > 0 {
      var n := |es| - 1;
      CountMeaning(es[..n], k);
      assert es == es[..n] + [es[n]];
      OfAppend(es[..n], [es[n]], k);
    }
  }

  /** Events of one day are events: today's count of a type is at most its total count. */
  lemma {:induction false} TodayAtMostTotal(es: seq<ActivityEvent>, k: string, start: Time)
    ensures CountTypeSince(es, k, start) <= CountType(es, k)
    ensures (forall i :: 0 <= i < |es| ==> es[i].timestamp >= start) ==> CountTypeSince(es, k, start) == CountType(es, k)
    decreases |es|
  {
    if |es| > 0 {
      TodayAtMostTotal(es[..|es| - 1], k, start);
      if forall i :: 0 <= i < |es| ==> es[i].timestamp >= start {
        assert forall i :: 0 <= i < |es| - 1 ==> es[..|es| - 1][i] == es[i];
      }
    }
  }

  /** Appending one event adds one to the count of its type and leaves every other count alone. */
  lemma CountAppend(es: seq<ActivityEvent>, e: ActivityEvent, k: string, start: Time)
    ensures CountType(es + [e], k) == CountType(es, k) + (if e.eventType == k then 1 else 0)
    ensures CountTypeSince(es + [e], k, start) == CountTypeSince(es, k, start) + (if e.eventType == k && e.timestamp >= start then 1 else 0)
  {
    assert (es + [e])[..|es|] == es;
  }

  /** The events of type `k`, in their order. */
  function Of(es: seq<ActivityEvent>, k: string): (r: seq<ActivityEvent>)
    ensures |r| <= |es|
    decreases |es|
  {
    if |es| == 0 then []
    else (if es[0].eventType == k then [es[0]] else []) + Of(es[1..], k)
  }

  lemma {:induction false} OfAppend(a: seq<ActivityEvent>, b: seq<ActivityEvent>, k: string)
    ensures Of(a + b, k) == Of(a, k) + Of(b, k)
    decreases |a|
  {
    if |a| > 0 {
      var head := if a[0].eventType == k then [a[0]] else [];
      assert (a + b)[0] == a[0] && (a + b)[1..] == a[1..] + b;
      OfAppend(a[1..], b, k);
      calc {
        Of(a + b, k);
        head + Of(a[1..] + b, k);
        head + (Of(a[1..], k) + Of(b, k));
        (head + Of(a[1..], k)) + Of(b, k);
      }
    } else {
      assert a + b == b;
    }
  }

  /** `Of` keeps exactly the events of type `k`, as many times as they occur. */
  lemma {:induction false} OfMeaning(es: seq<ActivityEvent>, k: string)
    ensures forall e :: multiset(Of(es, k))[e] == if e.eventType == k then multiset(es)[e] else 0
    decreases |es|
  {
    if |es| > 0 {
      OfMeaning(es[1..], k);
      assert es == [es[0]] + es[1..];
    }
  }

  /** The events stamped exactly at `t`, in their order. */
  function At(es: seq<ActivityEvent>, t: Time): seq<ActivityEvent>
    decreases |es|
  {
    if |es| == 0 then []
    else (if es[0].timestamp == t then [es[0]] else []) + At(es[1..], t)
  }

  lemma {:induction false} AtAppend(a: seq<ActivityEvent>, b: seq<ActivityEvent>, t: Time)
    ensures At(a + b, t) == At(a, t) + At(b, t)
    decreases |a|
  {
    if |a| > 0 {
      var head := if a[0].timestamp == t then [a[0]] else [];
      assert (a + b)[0] == a[0] && (a + b)[1..] == a[1..] + b;
      AtAppend(a[1..], b, t);
      calc {
        At(a + b, t);
        head + At(a[1..] + b, t);
        head + (At(a[1..], t) + At(b, t));
        (head + At(a[1..], t)) + At(b, t);
      }
    } else {
      assert a + b == b;
    }
  }

  lemma {:induction false} AtNone(es: seq<ActivityEvent>, t: Time)
    requires forall i :: 0 <= i < |es| ==> es[i].timestamp != t
    ensures At(es, t) == []
    decreases |es|
  {
    if |es| > 0 {
      AtNone(es[1..], t);
    }
  }

  /** Newest first: timestamps never increase along the sequence. */
  predicate NewestFirst(es: seq<ActivityEvent>) {
    forall i, j :: 0 <= i < j < |es| ==> es[i].timestamp >= es[j].timestamp
  }

  /** No event of `es` is newer than `b`. */
  predicate NoneAfter(es: seq<ActivityEvent>, b: int) {
    forall i :: 0 <= i < |es| ==> es[i].timestamp <= b
  }

  /** Places `x` after every event at least as new as it. */
  function InsertDesc(s: seq<ActivityEvent>, x: ActivityEvent): (r: seq<ActivityEvent>)
    ensures |r| == |s| + 1
    decreases |s|
  {
    if |s| == 0 then [x]
    else if s[0].timestamp < x.timestamp then [x] + s
    else [s[0]] + InsertDesc(s[1..], x)
  }

  /** The events sorted by timestamp, newest first, as Python's stable sort in reverse order leaves them. */
  function SortDesc(es: seq<ActivityEvent>): (r: seq<ActivityEvent>)
    ensures |r| == |es|
    decreases |es|
  {
    if |es| == 0 then []
    else InsertDesc(SortDesc(es[..|es| - 1]), es[|es| - 1])
  }

  lemma {:induction false} InsertDescPermutes(s: seq<ActivityEvent>, x: ActivityEvent)
    ensures multiset(InsertDesc(s, x)) == multiset(s) + multiset{x}
    decreases |s|
  {
    if |s| > 0 && s[0].timestamp >= x.timestamp {
      InsertDescPermutes(s[1..], x);
      assert s == [s[0]] + s[1..];
    }
  }

  /** Sorting one more event inserts it into the sorted earlier events. */
  lemma SortDescAppend(p: seq<ActivityEvent>, x: ActivityEvent)
    ensures SortDesc(p + [x]) == InsertDesc(SortDesc(p), x)
  {
    assert (p + [x])[..|p|] == p;
  }

  /** The sort only reorders: every event comes out as many times as it went in. */
  lemma {:induction false} SortDescPermutes(es: seq<ActivityEvent>)
    ensures multiset(SortDesc(es)) == multiset(es)
    decreases |es|
  {
    if |es| > 0 {
      var p, x := es[..|es| - 1], es[|es| - 1];
      assert es == p + [x];
      SortDescPermutes(p);
      SortDescAppend(p, x);
      InsertDescPermutes(SortDesc(p), x);
    }
  }

  lemma {:induction false} InsertDescBound(s: seq<ActivityEvent>, x: ActivityEvent, b: int)
    requires NoneAfter(s, b) && x.timestamp <= b
    ensures NoneAfter(InsertDesc(s, x), b)
    decreases |s|
  {
    if |s| > 0 && s[0].timestamp >= x.timestamp {
      InsertDescBound(s[1..], x, b);
      var r := InsertDesc(s, x);
      assert r[1..] == InsertDesc(s[1..], x);
    }
  }

  lemma {:induction false} SortDescBound(es: seq<ActivityEvent>, b: int)
    requires NoneAfter(es, b)
    ensures NoneAfter(SortDesc(es), b)
    decreases |es|
  {
    if |es| > 0 {
      var n := |es| - 1;
      SortDescBound(es[..n], b);
      InsertDescBound(SortDesc(es[..n]), es[n], b);
    }
  }

  lemma {:induction false} InsertDescSorted(s: seq<ActivityEvent>, x: ActivityEvent)
    requires NewestFirst(s)
    ensures NewestFirst(InsertDesc(s, x))
    decreases |s|
  {
    if |s| > 0 && s[0].timestamp >= x.timestamp {
      InsertDescSorted(s[1..], x);
      var tail := InsertDesc(s[1..], x);
      InsertDescBound(s[1..], x, s[0].timestamp);
      var r := InsertDesc(s, x);
      assert r == [s[0]] + tail;
      forall i, j | 0 <= i < j < |r| ensures r[i].timestamp >= r[j].timestamp {
        assert r[j] == tail[j - 1];
        if i > 0 {
          assert r[i] == tail[i - 1];
        }
      }
    }
  }

  /** The sort puts the newest events first. */
  lemma {:induction false} SortDescSorted(es: seq<ActivityEvent>)
    ensures NewestFirst(SortDesc(es))
    decreases |es|
  {
    if |es| > 0 {
      var n := |es| - 1;
      SortDescSorted(es[..n]);
      InsertDescSorted(SortDesc(es[..n]), es[n]);
    }
  }

  lemma {:induction false} InsertDescAt(s: seq<ActivityEvent>, x: ActivityEvent, t: Time)
    requires NewestFirst(s)
    ensures At(InsertDesc(s, x), t) == At(s, t) + (if x.timestamp == t then [x] else [])
    decreases |s|
  {
    if |s| == 0 {
    } else if s[0].timestamp < x.timestamp {
      if x.timestamp == t {
        AtNone(s, t);
      }
      assert ([x] + s)[1..] == s;
    } else {
      InsertDescAt(s[1..], x, t);
      var r := [s[0]] + InsertDesc(s[1..], x);
      assert r[1..] == InsertDesc(s[1..], x);
    }
  }

  /** The sort is stable: the events sharing a timestamp come out in the order they were recorded. */
  lemma {:induction false} SortDescStable(es: seq<ActivityEvent>, t: Time)
    ensures At(SortDesc(es), t) == At(es, t)
    decreases |es|
  {
    if |es| > 0 {
      var p, x := es[..|es| - 1], es[|es| - 1];
      assert es == p + [x];
      SortDescStable(p, t);
      SortDescSorted(p);
      SortDescAppend(p, x);
      InsertDescAt(SortDesc(p), x, t);
      AtAppend(p, [x], t);
    }
  }

  /** How many events the summary lists. */
  const RECENT_LIMIT := 10

  /** The `recent_events` of the summary. */
  function Recent(es: seq<ActivityEvent>): seq<ActivityEvent> {
    Take(SortDesc(es), RECENT_LIMIT)
  }

  /** The sort neither loses nor invents an event. */
  lemma SortDescSameEvents(es: seq<ActivityEvent>)
    ensures forall e :: e in SortDesc(es) <==> e in es
  {
    SortDescPermutes(es);
    forall e ensures e in SortDesc(es) <==> e in es {
      assert e in SortDesc(es) <==> e in multiset(SortDesc(es));
    }
  }

  /** The summary lists at most ten of the recorded events, newest first. */
  lemma RecentMeaning(es: seq<ActivityEvent>)
    ensures |Recent(es)| == if |es| < 10 then |es| else 10
    ensures NewestFirst(Recent(es))
    ensures forall e :: e in Recent(es) ==> e in es
  {
    var s := SortDesc(es);
    SortDescSorted(es);
    SortDescSameEvents(es);
    var r := Recent(es);
    assert r == s[..|r|];
    forall e | e in r ensures e in es {
      var j :| 0 <= j < |r| && r[j] == e;
      assert s[j] == e;
    }
  }

  /** No recorded event that the summary leaves out is newer than one it lists. */
  lemma RecentAreNewest(es: seq<ActivityEvent>)
    ensures forall i, e :: 0 <= i < |Recent(es)| && e in es && e !in Recent(es) ==> Recent(es)[i].timestamp >= e.timestamp
  {
    var s := SortDesc(es);
    SortDescSorted(es);
    SortDescSameEvents(es);
    var r := Recent(es);
    assert r == s[..|r|];
    forall i, e | 0 <= i < |r| && e in es && e !in r ensures r[i].timestamp >= e.timestamp {
      var j :| 0 <= j < |s| && s[j] == e;
      assert j >= |r|;
    }
  }

  /** A threat as `get_threats` lists it. */
  datatype Threat = Threat(time: Time, attackType: string, riskLevel: Option<string>)

  /** The blocked attacks newest first, as `get_threats` sorts them. */
  function ThreatEvents(es: seq<ActivityEvent>): seq<ActivityEvent> {
    SortDesc(Of(es, BLOCKED_ATTACK))
  }

  /** `get_threats`: the blocked attacks, newest first. */
  function Threats(es: seq<ActivityEvent>): (r: seq<Threat>)
    ensures |r| == |ThreatEvents(es)|
  {
    var sorted := ThreatEvents(es);
    seq(|sorted|, i requires 0 <= i < |sorted| => Threat(sorted[i].timestamp, sorted[i].details, sorted[i].riskLevel))
  }

  /** `get_threats` lists every blocked attack as often as it was recorded and nothing else. */
  lemma ThreatsAreBlockedAttacks(es: seq<ActivityEvent>)
    ensures forall e :: multiset(ThreatEvents(es))[e] == if e.eventType == BLOCKED_ATTACK then multiset(es)[e] else 0
    ensures |Threats(es)| == CountType(es, BLOCKED_ATTACK)
  {
    OfMeaning(es, BLOCKED_ATTACK);
    SortDescPermutes(Of(es, BLOCKED_ATTACK));
    CountMeaning(es, BLOCKED_ATTACK);
  }

  /** `get_threats` lists the newest threat first. */
  lemma ThreatsNewestFirst(es: seq<ActivityEvent>)
    ensures forall i, j :: 0 <= i < j < |Threats(es)| ==> Threats(es)[i].time >= Threats(es)[j].time
    ensures forall i :: 0 <= i < |Threats(es)| ==> Threats(es)[i].attackType == ThreatEvents(es)[i].details
  {
    SortDescSorted(Of(es, BLOCKED_ATTACK));
  }

  /** One row of counts of the summary. */
  datatype Counts = Counts(posts: nat, comments: nat, upvotes: nat, blockedAttacks: nat, apiCalls: nat)

  /** What `get_summary` returns; `uptime` is `now - start_time` in microseconds. */
  datatype Summary = Summary(today: Counts, total: Counts, karma: int, uptime: int, recentEvents: seq<ActivityEvent>)

  function CountsBy(f: string -> nat): Counts {
    Counts(f(POST), f(COMMENT), f(UPVOTE), f(BLOCKED_ATTACK), f(API_CALL))
  }

  /** `get_summary` at time `now`. */
  function SummaryOf(es: seq<ActivityEvent>, karma: int, startTime: Time, now: Time): Summary {
    var start := TodayStart(now);
    Summary(CountsBy(k => CountTypeSince(es, k, start)), CountsBy(k => CountType(es, k)), karma, now - startTime, Recent(es))
  }

  /** Every count of the day is at most the matching total. */
  predicate TodayWithinTotal(s: Summary) {
    && s.today.posts <= s.total.posts && s.today.comments <= s.total.comments
    && s.today.upvotes <= s.total.upvotes && s.today.blockedAttacks <= s.total.blockedAttacks
    && s.today.apiCalls <= s.total.apiCalls
  }

  lemma SummaryBounds(es: seq<ActivityEvent>, karma: int, startTime: Time, now: Time)
    ensures TodayWithinTotal(SummaryOf(es, karma, startTime, now))
    ensures |SummaryOf(es, karma, startTime, now).recentEvents| <= 10
    ensures NewestFirst(SummaryOf(es, karma, startTime, now).recentEvents)
  {
    var start := TodayStart(now);
    TodayAtMostTotal(es, POST, start);
    TodayAtMostTotal(es, COMMENT, start);
    TodayAtMostTotal(es, UPVOTE, start);
    TodayAtMostTotal(es, BLOCKED_ATTACK, start);
    TodayAtMostTotal(es, API_CALL, start);
    RecentMeaning(es);
  }

  function Get(m: map<string, nat>, k: string): nat {
    if k in m then m[k] else 0
  }

  /** The counting loop of `get_summary`, over two `defaultdict(int)`s. */
  method CountEvents(es: seq<ActivityEvent>, start: Time) returns (today: map<string, nat>, total: map<string, nat>)
    ensures forall k :: Get(total, k) == CountType(es, k) && Get(today, k) == CountTypeSince(es, k, start)
  {
    today, total := map[], map[];
    var i := 0;
    while i < |es|
      invariant 0 <= i <= |es|
      invariant forall k :: Get(total, k) == CountType(es[..i], k) && Get(today, k) == CountTypeSince(es[..i], k, start)
    {
      var e := es[i];
      assert es[..i + 1] == es[..i] + [e];
      forall k
        ensures CountType(es[..i + 1], k) == CountType(es[..i], k) + (if e.eventType == k then 1 else 0)
        ensures CountTypeSince(es[..i + 1], k, start) == CountTypeSince(es[..i], k, start) + (if e.eventType == k && e.timestamp >= start then 1 else 0)
      {
        CountAppend(es[..i], e, k, start);
      }
      total := total[e.eventType := Get(total, e.eventType) + 1];
      if e.timestamp >= start {
        today := today[e.eventType := Get(today, e.eventType) + 1];
      }
      i := i + 1;
    }
    assert es[..i] == es;
  }

  /** `AgentMetrics`: the event log, the karma, and the time the metrics were created. */
  class AgentMetrics {
    var events: seq<ActivityEvent>
    var karma: int
    const startTime: Time

    constructor(now: Time)
      ensures events == [] && karma == 0 && startTime == now
    {
      events := [];
      karma := 0;
      startTime := now;
    }

    /** Appends one event; the karma is left alone. */
    method Record(e: ActivityEvent)
      modifies this
      ensures events == old(events) + [e] && karma == old(karma)
    {
      events := events + [e];
    }

    /** `record_post(details)` */
    method RecordPost(now: Time, details: string)
      modifies this
      ensures events == old(events) + [ActivityEvent(now, POST, details, None)] && karma == old(karma)
    {
      Record(ActivityEvent(now, POST, details, None));
    }

    /** `record_comment(details)` */
    method RecordComment(now: Time, details: string)
      modifies this
      ensures events == old(events) + [ActivityEvent(now, COMMENT, details, None)] && karma == old(karma)
    {
      Record(ActivityEvent(now, COMMENT, details, None));
    }

    /** `record_upvote(details)` */
    method RecordUpvote(now: Time, details: string)
      modifies this
      ensures events == old(events) + [ActivityEvent(now, UPVOTE, details, None)] && karma == old(karma)
    {
      Record(ActivityEvent(now, UPVOTE, details, None));
    }

    /** `record_blocked_attack(attack_type, risk_level)`: the attack type is the event's details. */
    method RecordBlockedAttack(now: Time, attackType: string, riskLevel: string)
      modifies this
      ensures events == old(events) + [ActivityEvent(now, BLOCKED_ATTACK, attackType, Some(riskLevel))]
      ensures karma == old(karma)
    {
      Record(ActivityEvent(now, BLOCKED_ATTACK, attackType, Some(riskLevel)));
    }

    /** `record_api_call(tokens, cost)`; `costText` is the cost rendered with `:.4f`. */
    method RecordApiCall(now: Time, tokens: int, costText: string)
      modifies this
      ensures events == old(events) + [ActivityEvent(now, API_CALL, "tokens=" + IntToString(tokens) + ", cost=$" + costText, None)]
      ensures karma == old(karma)
    {
      Record(ActivityEvent(now, API_CALL, "tokens=" + IntToString(tokens) + ", cost=$" + costText, None));
    }

    /** `update_karma(new_karma)` */
    method UpdateKarma(newKarma: int)
      modifies this
      ensures karma == newKarma && events == old(events)
    {
      karma := newKarma;
    }

    /** `get_summary()` at time `now`. */
    method GetSummary(now: Time) returns (s: Summary)
      ensures s == SummaryOf(events, karma, startTime, now)
      ensures TodayWithinTotal(s) && |s.recentEvents| <= 10 && NewestFirst(s.recentEvents)
    {
      var today, total := CountEvents(events, TodayStart(now));
      s := Summary(CountsBy(k => Get(today, k)), CountsBy(k => Get(total, k)), karma, now - startTime, Recent(events));
      SummaryBounds(events, karma, startTime, now);
    }

    /** `get_threats()` */
    method GetThreats() returns (r: seq<Threat>)
      ensures r == Threats(events)
      ensures |r| == CountType(events, BLOCKED_ATTACK)
      ensures forall i, j :: 0 <= i < j < |r| ==> r[i].time >= r[j].time
    {
      r := Threats(events);
      ThreatsAreBlockedAttacks(events);
      ThreatsNewestFirst(events);
    }
  }

  /** Recording a post raises the post counts by one and changes no other count. */
  lemma RecordPostCounts(es: seq<ActivityEvent>, now: Time, details: string, start: Time)
    ensures var after := es + [ActivityEvent(now, POST, details, None)];
      && CountType(after, POST) == CountType(es, POST) + 1
      && (forall k :: k != POST ==> CountType(after, k) == CountType(es, k))
      && (now >= start ==> CountTypeSince(after, POST, start) == CountTypeSince(es, POST, start) + 1)
  {
    var e := ActivityEvent(now, POST, details, None);
    forall k ensures CountType(es + [e], k) == CountType(es, k) + (if k == POST then 1 else 0) {
      CountAppend(es, e, k, start);
    }
    CountAppend(es, e, POST, start);
  }

  lemma {:induction false} OfBound(es: seq<ActivityEvent>, k: string, b: int)
    requires NoneAfter(es, b)
    ensures NoneAfter(Of(es, k), b)
    decreases |es|
  {
    if |es| > 0 {
      OfBound(es[1..], k, b);
    }
  }

  /** Recording a blocked attack adds exactly one threat, listed first when every earlier event is older. */
  lemma RecordBlockedAttackThreats(es: seq<ActivityEvent>, now: Time, attackType: string, riskLevel: string)
    requires NoneAfter(es, now - 1)
    ensures var after := es + [ActivityEvent(now, BLOCKED_ATTACK, attackType, Some(riskLevel))];
      && |Threats(after)| == |Threats(es)| + 1
      && Threats(after)[0] == Threat(now, attackType, Some(riskLevel))
  {
    var e := ActivityEvent(now, BLOCKED_ATTACK, attackType, Some(riskLevel));
    var after := es + [e];
    OfAppend(es, [e], BLOCKED_ATTACK);
    var blocked := Of(es, BLOCKED_ATTACK);
    assert Of(after, BLOCKED_ATTACK) == blocked + [e];
    SortDescAppend(blocked, e);
    OfBound(es, BLOCKED_ATTACK, now - 1);
    SortDescBound(blocked, now - 1);
    assert ThreatEvents(after)[0] == e;
  }
}
