/**
 * The persistent rate limiter (`PersistentRateLimiter`): per action, a list of the times it was
 * taken, checked against a sliding window with a count limit and a cooldown between actions.
 * Time is a parameter (`now`, in seconds); the state file is not modelled.
 */
module RateLimiter {
  import opened Wrappers

  /** `RateLimitConfig(limit, window_seconds, cooldown_seconds)` */
  datatype Config = Config(limit: int, window: int, cooldown: int)

  const DEFAULT_LIMITS: map<string, Config> := map[
    "post" := Config(5, 86400, 1800),
    "comment" := Config(50, 86400, 20),
    "request" := Config(100, 60, 0),
    "vote" := Config(100, 3600, 1),
    "api_call" := Config(1000, 3600, 0)
  ]

  /** `RateLimitResult` without its message text. */
  datatype Decision = Decision(allowed: bool, action: string, currentCount: int, limit: int,
                               window: int, retryAfter: Option<int>)

  /** Python's `int(x)`: truncation toward zero. */
  function Trunc(x: real): (n: int)
    ensures x >= 0.0 ==> n == x.Floor
    ensures x < 0.0 ==> n == -((-x).Floor)
  {
    if x >= 0.0 then x.Floor else -((-x).Floor)
  }

  /** The times strictly after `start`, in order. */
  function After(ts: seq<real>, start: real): (r: seq<real>)
    ensures |r| <= |ts|
    ensures forall t :: t in r <==> t in ts && t > start
  {
    if |ts| == 0 then []
    else (if ts[0] > start then [ts[0]] else []) + After(ts[1..], start)
  }

  lemma {:induction false} AfterAppend(a: seq<real>, b: seq<real>, start: real)
    ensures After(a + b, start) == After(a, start) + After(b, start)
    decreases |a|
  {
    if |a| > 0 {
      assert (a + b)[0] == a[0] && (a + b)[1..] == a[1..] + b;
      AfterAppend(a[1..], b, start);
      var h := if a[0] > start then [a[0]] else [];
      assert After(a + b, start) == h + After((a + b)[1..], start);
      assert After(a, start) == h + After(a[1..], start);
      assert h + (After(a[1..], start) + After(b, start)) == (h + After(a[1..], start)) + After(b, start);
    } else {
      assert a + b == b;
    }
  }

  /** Filtering at a later start keeps exactly what filtering at the later start keeps. */
  lemma {:induction false} AfterAfter(ts: seq<real>, s1: real, s2: real)
    requires s1 <= s2
    ensures After(After(ts, s1), s2) == After(ts, s2)
    decreases |ts|
  {
    if |ts| > 0 {
      AfterAfter(ts[1..], s1, s2);
      AfterAppend(if ts[0] > s1 then [ts[0]] else [], After(ts[1..], s1), s2);
    }
  }

  function MinOf(s: seq<real>): (m: real)
    requires |s| > 0
    ensures m in s && forall i :: 0 <= i < |s| ==> m <= s[i]
  {
    if |s| == 1 then s[0]
    else
      var r := MinOf(s[1..]);
      assert forall i :: 1 <= i < |s| ==> s[i] == s[1..][i - 1];
      if s[0] <= r then s[0] else r
  }

  function MaxOf(s: seq<real>): (m: real)
    requires |s| > 0
    ensures m in s && forall i :: 0 <= i < |s| ==> s[i] <= m
  {
    if |s| == 1 then s[0]
    else
      var r := MaxOf(s[1..]);
      assert forall i :: 1 <= i < |s| ==> s[i] == s[1..][i - 1];
      if s[0] >= r then s[0] else r
  }

  /**
   * The decision `check` takes for an action with configuration `cfg` (none if unlimited) and
   * history `ts` at time `now`: the window limit first, then the cooldown.
   */
  function Decide(action: string, cfg: Option<Config>, ts: seq<real>, now: real): (d: Decision)
    ensures cfg.None? ==> d == Decision(true, action, 0, 0, 0, None)
    ensures cfg.Some? ==> d.currentCount == |After(ts, now - cfg.value.window as real)|
    ensures cfg.Some? && d.currentCount >= cfg.value.limit ==> !d.allowed
    ensures d.allowed <==> d.retryAfter.None?
    ensures cfg.Some? && d.currentCount >= cfg.value.limit && d.currentCount > 0 ==> d.retryAfter.value >= 1
  {
    if cfg.None? then Decision(true, action, 0, 0, 0, None)
    else
      var c := cfg.value;
      var recent := After(ts, now - c.window as real);
      var count := |recent|;
      if count >= c.limit then
        var oldest := if |recent| > 0 then MinOf(recent) else now;
        Decision(false, action, count, c.limit, c.window,
                 Some(Trunc(oldest + c.window as real - now) + 1))
      else if c.cooldown > 0 && |recent| > 0 && now - MaxOf(recent) < c.cooldown as real then
        Decision(false, action, count, c.limit, c.window,
                 Some(Trunc(c.cooldown as real - (now - MaxOf(recent))) + 1))
      else Decision(true, action, count, c.limit, c.window, None)
  }

  /** Inside the limit, the cooldown decides: it refuses exactly while it has not elapsed. */
  lemma CooldownRule(action: string, c: Config, ts: seq<real>, now: real)
    requires |After(ts, now - c.window as real)| < c.limit
    ensures var recent := After(ts, now - c.window as real);
      !Decide(action, Some(c), ts, now).allowed <==>
        c.cooldown > 0 && |recent| > 0 && now - MaxOf(recent) < c.cooldown as real
  {
    var recent := After(ts, now - c.window as real);
    if c.cooldown > 0 && |recent| > 0 && now - MaxOf(recent) < c.cooldown as real {
      CooldownRefusal(action, c, ts, now);
    }
  }

  /**
   * The refusal the window gives at the limit: wait until the oldest time in the window leaves
   * it, truncated, plus one second; an empty window (a limit of 0) counts from `now`.
   */
  lemma WindowRefusal(action: string, c: Config, ts: seq<real>, now: real)
    requires |After(ts, now - c.window as real)| >= c.limit
    ensures var recent := After(ts, now - c.window as real);
      var oldest := if |recent| > 0 then MinOf(recent) else now;
      !Decide(action, Some(c), ts, now).allowed &&
      Decide(action, Some(c), ts, now).retryAfter == Some(Trunc(oldest + c.window as real - now) + 1)
  {
  }

  /** The refusal the cooldown gives inside the limit, with its wait. */
  lemma CooldownRefusal(action: string, c: Config, ts: seq<real>, now: real)
    requires |After(ts, now - c.window as real)| < c.limit
    requires var recent := After(ts, now - c.window as real);
      c.cooldown > 0 && |recent| > 0 && now - MaxOf(recent) < c.cooldown as real
    ensures var recent := After(ts, now - c.window as real);
      Decide(action, Some(c), ts, now).retryAfter
        == Some(Trunc(c.cooldown as real - (now - MaxOf(recent))) + 1)
  {
  }

  /** A cooldown refusal says to wait at least a second, and no longer than the cooldown. */
  lemma CooldownRetry(action: string, c: Config, ts: seq<real>, now: real)
    requires |After(ts, now - c.window as real)| < c.limit
    requires !Decide(action, Some(c), ts, now).allowed
    requires forall i :: 0 <= i < |ts| ==> ts[i] <= now
    ensures 1 <= Decide(action, Some(c), ts, now).retryAfter.value <= c.cooldown + 1
  {
    var recent := After(ts, now - c.window as real);
    CooldownRule(action, c, ts, now);
    CooldownRefusal(action, c, ts, now);
    var last := MaxOf(recent);
    assert last in ts;
    assert last <= now;
    TruncWithin(c.cooldown as real - (now - last), c.cooldown);
  }

  /** A positive wait of at most `bound` seconds truncates into 0 .. bound. */
  lemma TruncWithin(x: real, bound: int)
    requires 0.0 < x <= bound as real
    ensures 0 <= Trunc(x) <= bound
  {
  }

  /** The longest window among the limits. */
  predicate IsMaxWindow(limits: map<string, Config>, m: int) {
    && (exists a :: a in limits && limits[a].window == m)
    && (forall a :: a in limits ==> limits[a].window <= m)
  }

  lemma MaxWindowUnique(limits: map<string, Config>, m1: int, m2: int)
    requires IsMaxWindow(limits, m1) && IsMaxWindow(limits, m2)
    ensures m1 == m2
  {
    var a1 :| a1 in limits && limits[a1].window == m1;
    var a2 :| a2 in limits && limits[a2].window == m2;
  }

  /** The times younger than `maxWindow` at `now`. */
  function Fresh(ts: seq<real>, now: real, maxWindow: int): (r: seq<real>)
    ensures forall t :: t in r <==> t in ts && now - t < maxWindow as real
  {
    if |ts| == 0 then []
    else (if now - ts[0] < maxWindow as real then [ts[0]] else []) + Fresh(ts[1..], now, maxWindow)
  }

  lemma {:induction false} FreshIsAfter(ts: seq<real>, now: real, maxWindow: int)
    ensures Fresh(ts, now, maxWindow) == After(ts, now - maxWindow as real)
    decreases |ts|
  {
    if |ts| > 0 { FreshIsAfter(ts[1..], now, maxWindow); }
  }

  /** `_cleanup_state`: old times dropped, actions left without times removed. */
  function Cleaned(actions: map<string, seq<real>>, now: real, maxWindow: int)
    : (r: map<string, seq<real>>)
    ensures forall a :: a in r <==> a in actions && |Fresh(actions[a], now, maxWindow)| > 0
    ensures forall a :: a in r ==> r[a] == Fresh(actions[a], now, maxWindow)
  {
    map a | a in actions && |Fresh(actions[a], now, maxWindow)| > 0 :: Fresh(actions[a], now, maxWindow)
  }

  /** Cleanup never changes a decision for a window no longer than the longest one. */
  lemma CleanupKeepsRecent(ts: seq<real>, now: real, window: int, maxWindow: int)
    requires window <= maxWindow
    ensures After(Fresh(ts, now, maxWindow), now - window as real) == After(ts, now - window as real)
  {
    FreshIsAfter(ts, now, maxWindow);
    AfterAfter(ts, now - maxWindow as real, now - window as real);
  }

  /** The history of an action in the state (empty when it has none). */
  function History(actions: map<string, seq<real>>, action: string): seq<real> {
    if action in actions then actions[action] else []
  }

  /** `set_limit`: given fields replace, missing ones keep; a new action defaults missing or zero fields. */
  function UpdatedLimit(current: Option<Config>, limit: Option<int>, window: Option<int>,
                        cooldown: Option<int>): (c: Config)
    ensures current.Some? ==> c.limit == (if limit.Some? then limit.value else current.value.limit)
    ensures current.Some? ==> c.window == (if window.Some? then window.value else current.value.window)
    ensures current.Some? ==> c.cooldown == (if cooldown.Some? then cooldown.value else current.value.cooldown)
    ensures current.None? ==> c.limit == (if limit.Some? && limit.value != 0 then limit.value else 100)
    ensures current.None? ==> c.window == (if window.Some? && window.value != 0 then window.value else 3600)
    ensures current.None? ==> c.cooldown == (if cooldown.Some? then cooldown.value else 0)
  {
    if current.Some? then
      Config(if limit.Some? then limit.value else current.value.limit,
             if window.Some? then window.value else current.value.window,
             if cooldown.Some? then cooldown.value else current.value.cooldown)
    else
      Config(if limit.Some? && limit.value != 0 then limit.value else 100,
             if window.Some? && window.value != 0 then window.value else 3600,
             if cooldown.Some? && cooldown.value != 0 then cooldown.value else 0)
  }

  class Limiter {
    var limits: map<string, Config>
    var actions: map<string, seq<real>>
    var lastSave: real

    /** The default limits are never removed, so there is always a longest window. */
    predicate Valid()
      reads this
    {
      |limits| > 0
    }

    /** `PersistentRateLimiter(custom_limits=...)` with no saved state. */
    constructor (custom: map<string, Config>, now: real)
      ensures Valid()
      ensures limits == DEFAULT_LIMITS + custom && actions == map[] && lastSave == now
    {
      limits := DEFAULT_LIMITS + custom;
      actions := map[];
      lastSave := now;
      new;
      assert "post" in limits;
    }

    /** `check(action)`: a decision from the current state, which it leaves alone. */
    function Check(action: string, now: real): (d: Decision)
      reads this
      ensures d == Decide(action, if action in limits then Some(limits[action]) else None,
                          History(actions, action), now)
    {
      Decide(action, if action in limits then Some(limits[action]) else None,
             History(actions, action), now)
    }

    method MaxWindow() returns (m: int)
      requires Valid()
      ensures IsMaxWindow(limits, m)
    {
      var a :| a in limits;
      m := limits[a].window;
      var todo := limits.Keys - {a};
      while todo != {}
        invariant todo <= limits.Keys
        invariant exists b :: b in limits && limits[b].window == m
        invariant forall b :: b in limits && b !in todo ==> limits[b].window <= m
        decreases todo
      {
        var b :| b in todo;
        if limits[b].window > m { m := limits[b].window; }
        todo := todo - {b};
      }
    }

    /** `_cleanup_state(state)` at time `now`. */
    method CleanupState(now: real)
      requires Valid()
      modifies this
      ensures Valid() && limits == old(limits) && lastSave == old(lastSave)
      ensures forall m :: IsMaxWindow(limits, m) ==> actions == Cleaned(old(actions), now, m)
    {
      var maxWindow := MaxWindow();
      var todo := actions.Keys;
      while todo != {}
        invariant todo <= old(actions).Keys
        invariant limits == old(limits) && lastSave == old(lastSave)
        invariant forall a :: a in actions <==> a in old(actions) && (a in todo || |Fresh(old(actions)[a], now, maxWindow)| > 0)
        invariant forall a :: a in actions && a in todo ==> actions[a] == old(actions)[a]
        invariant forall a :: a in actions && a !in todo ==> actions[a] == Fresh(old(actions)[a], now, maxWindow)
        decreases todo
      {
        var a :| a in todo;
        var kept := Fresh(actions[a], now, maxWindow);
        if |kept| > 0 {
          actions := actions[a := kept];
        } else {
          actions := actions - {a};
        }
        todo := todo - {a};
      }
      assert actions == Cleaned(old(actions), now, maxWindow);
      forall m | IsMaxWindow(limits, m) ensures actions == Cleaned(old(actions), now, m) {
        MaxWindowUnique(limits, m, maxWindow);
      }
    }

    /** `record(action)`: appends `now`; more than 60 s after the last save it also cleans up. */
    method Record(action: string, now: real)
      requires Valid()
      modifies this
      ensures Valid() && limits == old(limits)
      ensures now - old(lastSave) <= 60.0 ==>
        actions == old(actions)[action := History(old(actions), action) + [now]] && lastSave == old(lastSave)
      ensures now - old(lastSave) > 60.0 ==> lastSave == now
      ensures now - old(lastSave) > 60.0 ==> forall m :: IsMaxWindow(limits, m) ==>
        actions == Cleaned(old(actions)[action := History(old(actions), action) + [now]], now, m)
    {
      actions := actions[action := History(actions, action) + [now]];
      if now - lastSave > 60.0 {
        CleanupState(now);
        lastSave := now;
      }
    }

    /** `check_and_record(action)`: records exactly when the check allows. */
    method CheckAndRecord(action: string, now: real) returns (d: Decision)
      requires Valid()
      modifies this
      ensures d == old(Check(action, now))
      ensures Valid() && limits == old(limits)
      ensures !d.allowed ==> actions == old(actions) && lastSave == old(lastSave)
      ensures d.allowed ==> lastSave == (if now - old(lastSave) > 60.0 then now else old(lastSave))
      ensures d.allowed && now - old(lastSave) <= 60.0 ==>
        actions == old(actions)[action := History(old(actions), action) + [now]]
      ensures d.allowed && now - old(lastSave) > 60.0 ==>
        forall m :: IsMaxWindow(limits, m) ==>
          actions == Cleaned(old(actions)[action := History(old(actions), action) + [now]], now, m)
    {
      d := Check(action, now);
      if d.allowed {
        Record(action, now);
      }
    }

    /** `reset(action)` forgets one action; `reset()` forgets all. */
    method Reset(action: Option<string>, now: real)
      modifies this
      ensures limits == old(limits) && lastSave == now
      ensures action.Some? && action.value != "" ==> actions == old(actions) - {action.value}
      ensures action.None? || action.value == "" ==> actions == map[]
    {
      if action.Some? && action.value != "" {
        actions := actions - {action.value};
      } else {
        actions := map[];
      }
      lastSave := now;
    }

    /** `set_limit(action, limit, window_seconds, cooldown_seconds)` */
    method SetLimit(action: string, limit: Option<int>, window: Option<int>, cooldown: Option<int>)
      modifies this
      ensures limits == old(limits)[action := UpdatedLimit(
        if action in old(limits) then Some(old(limits)[action]) else None, limit, window, cooldown)]
      ensures actions == old(actions) && lastSave == old(lastSave)
      ensures old(Valid()) ==> Valid()
    {
      var current := if action in limits then Some(limits[action]) else None;
      limits := limits[action := UpdatedLimit(current, limit, window, cooldown)];
    }
  }

  /**
   * The window bound `check_and_record` keeps: a call at `now` that is allowed leaves at most
   * `limit` times in the window ending at `now`, and a refused one adds nothing.
   */
  lemma AllowedStaysWithinLimit(action: string, c: Config, ts: seq<real>, now: real)
    requires Decide(action, Some(c), ts, now).allowed
    ensures |After(ts + [now], now - c.window as real)| <= c.limit
  {
    AfterAppend(ts, [now], now - c.window as real);
    assert |After([now], now - c.window as real)| <= 1 by {
      assert After([now], now - c.window as real) == (if now > now - c.window as real then [now] else []) + After([], now - c.window as real);
    }
  }

  /** Cleaning the state after recording does not change the bound. */
  lemma RecordedWithinLimit(action: string, c: Config, ts: seq<real>, now: real, maxWindow: int)
    requires Decide(action, Some(c), ts, now).allowed
    requires c.window <= maxWindow
    ensures |After(Fresh(ts + [now], now, maxWindow), now - c.window as real)| <= c.limit
  {
    AllowedStaysWithinLimit(action, c, ts, now);
    CleanupKeepsRecent(ts + [now], now, c.window, maxWindow);
  }
}
