/** The login limiter (`internal/adminauth/limiter.go`): pruned queues against the whole history of
    admitted attempts. Instants are nanoseconds after Go's zero instant, read in lock order. */
module Limiter {
  import opened Prelude

  const WINDOW := 60 * SECOND
  const PER_SOURCE := 5
  const GLOBAL := 20
  const DEFAULT_MAX_LOGIN_SOURCES := 4096
  const MAX_LOGIN_SOURCES := 1_000_000

  /** A normalised source address. */
  type Addr = string

  datatype Attempt = Attempt(source: Addr, at: int)

  datatype Scope = LoginGlobal | LoginSource | Capacity

  datatype Decision = Admitted | Refused(scope: Scope, retryAfter: int)

  // ---- the rule over the whole history ----

  /** The instants after `cut` of the attempts of one source, or of all. */
  function Recent(h: seq<Attempt>, p: Option<Addr>, cut: int): (r: seq<int>) {
    if h == [] then []
    else
      var last := h[|h| - 1];
      Recent(h[..|h| - 1], p, cut) + (if (p.None? || p.value == last.source) && last.at > cut then [last.at] else [])
  }

  /** Which attempts of one source, or of all, fall into the minute that ends at `end`. */
  ghost function Held(h: seq<Attempt>, p: Option<Addr>, end: int): (ks: set<int>) {
    set k | 0 <= k < |h| && (p.None? || p.value == h[k].source) && end - 60 * SECOND < h[k].at <= end
  }

  /** The sources of the attempts in the minute that ends at `end`. */
  ghost function Sources(h: seq<Attempt>, end: int): (r: set<Addr>) { set k | k in Held(h, None, end) :: h[k].source }

  ghost predicate Ordered(h: seq<Attempt>) {
    (forall k | 0 <= k < |h| :: 0 < h[k].at) && forall i, j | 0 <= i <= j < |h| :: h[i].at <= h[j].at
  }

  function Limit(p: Option<Addr>): (n: nat) { if p.None? then GLOBAL else PER_SOURCE }

  ghost predicate Rule(h: seq<Attempt>, a: Attempt) {
    |Recent(h, None, a.at - WINDOW)| < GLOBAL && |Recent(h, Some(a.source), a.at - WINDOW)| < PER_SOURCE
  }

  ghost predicate Ruled(h: seq<Attempt>) {
    Ordered(h) && forall k | 0 <= k < |h| :: Rule(h[..k], h[k])
  }

  /** The nonempty queues by source. */
  ghost function Windows(h: seq<Attempt>, cut: int): (m: map<Addr, seq<int>>) {
    if h == [] then map[]
    else
      var m, last := Windows(h[..|h| - 1], cut), h[|h| - 1];
      if last.at <= cut then m
      else m[last.source := (if last.source in m then m[last.source] else []) + [last.at]]
  }

  function RetryAfter(times: seq<int>, now: int): (r: int) {
    if times == [] then SECOND
    else if times[0] + WINDOW - now <= 0 then SECOND
    else times[0] + WINDOW - now
  }

  /** What the limiter answers, as a function of the history alone. */
  ghost function Decide(h: seq<Attempt>, maxSources: nat, source: Addr, now: int): (d: Decision) {
    var cut := now - WINDOW;
    if |Recent(h, None, cut)| >= GLOBAL then Refused(LoginGlobal, RetryAfter(Recent(h, None, cut), now))
    else if Recent(h, Some(source), cut) == [] && |Windows(h, cut)| >= maxSources then
      Refused(Capacity, if Recent(h, None, cut) == [] then WINDOW else RetryAfter(Recent(h, None, cut), now))
    else if |Recent(h, Some(source), cut)| >= PER_SOURCE then
      Refused(LoginSource, RetryAfter(Recent(h, Some(source), cut), now))
    else Admitted
  }

  // ---- facts about the history ----

  lemma {:induction false} RecentInside(h: seq<Attempt>, p: Option<Addr>, cut: int)
    requires Ordered(h)
    ensures forall t | t in Recent(h, p, cut) :: cut < t && 0 < t && (h != [] && t <= h[|h| - 1].at)
  {
    if h != [] {
      RecentInside(h[..|h| - 1], p, cut);
    }
  }

  /** Later cuts keep fewer attempts. */
  lemma {:induction false} RecentShrinks(h: seq<Attempt>, p: Option<Addr>, early: int, late: int)
    requires early <= late
    ensures |Recent(h, p, late)| <= |Recent(h, p, early)|
  {
    if h != [] {
      RecentShrinks(h[..|h| - 1], p, early, late);
    }
  }

  lemma HeldFront(h: seq<Attempt>, p: Option<Addr>, end: int)
    requires h != []
    ensures var rest, n := Held(h[..|h| - 1], p, end), |h| - 1;
      && n !in rest
      && Held(h, p, end) ==
         rest + (if (p.None? || p.value == h[n].source) && end - WINDOW < h[n].at <= end then {n} else {})
  {
    var front, n := h[..|h| - 1], |h| - 1;
    assert forall k | 0 <= k < n :: front[k] == h[k];
  }

  lemma {:induction false} HeldAtMostRecent(h: seq<Attempt>, p: Option<Addr>, end: int)
    ensures |Held(h, p, end)| <= |Recent(h, p, end - WINDOW)|
  {
    if h != [] {
      HeldFront(h, p, end);
      HeldAtMostRecent(h[..|h| - 1], p, end);
    }
  }

  /** Once nothing lies ahead of `now` the recent attempts are the ones held. */
  lemma {:induction false} HeldIsRecent(h: seq<Attempt>, p: Option<Addr>, now: int)
    requires forall k | 0 <= k < |h| :: h[k].at <= now
    ensures |Held(h, p, now)| == |Recent(h, p, now - WINDOW)|
  {
    if h != [] {
      HeldFront(h, p, now);
      HeldIsRecent(h[..|h| - 1], p, now);
    } else {
      assert Held(h, p, now) == {};
    }
  }

  lemma RuledFront(h: seq<Attempt>)
    requires Ruled(h) && h != []
    ensures Ruled(h[..|h| - 1]) && Rule(h[..|h| - 1], h[|h| - 1])
  {
    hide Rule;
    var front, n := h[..|h| - 1], |h| - 1;
    forall k | 0 <= k < n ensures Rule(front[..k], front[k]) {
      assert front[..k] == h[..k] && front[k] == h[k];
    }
  }

  /** No window of 60 seconds, wherever it ends, holds more than the limit. */
  lemma {:induction false} LimitsHold(h: seq<Attempt>, p: Option<Addr>, end: int)
    requires Ruled(h)
    ensures |Held(h, p, end)| <= Limit(p)
  {
    hide Ruled, Held;
    if h == [] {
      HeldAtMostRecent(h, p, end);
    } else {
      var front, last := h[..|h| - 1], h[|h| - 1];
      RuledFront(h);
      LimitsHold(front, p, end);
      HeldFront(h, p, end);
      HeldAtMostRecent(front, p, end);
      if last.at <= end {
        RecentShrinks(front, p, last.at - WINDOW, end - WINDOW);
      }
    }
  }

  /** The queue of a source is exactly its recent history; sources without any have no queue. */
  lemma {:induction false} WindowsAre(h: seq<Attempt>, cut: int, s: Addr)
    ensures s in Windows(h, cut) <==> Recent(h, Some(s), cut) != []
    ensures s in Windows(h, cut) ==> Windows(h, cut)[s] == Recent(h, Some(s), cut)
  {
    if h != [] {
      WindowsAre(h[..|h| - 1], cut, s);
    }
  }

  lemma WindowsEqual(h: seq<Attempt>, cut: int, m: map<Addr, seq<int>>)
    requires forall s :: s in m <==> Recent(h, Some(s), cut) != []
    requires forall s | s in m :: m[s] == Recent(h, Some(s), cut)
    ensures m == Windows(h, cut)
  {
    forall s: Addr ensures s in m <==> s in Windows(h, cut) {
      WindowsAre(h, cut, s);
    }
    forall s | s in m ensures m[s] == Windows(h, cut)[s] {
      WindowsAre(h, cut, s);
    }
  }

  lemma SourcesAreWindows(h: seq<Attempt>, now: int)
    requires forall k | 0 <= k < |h| :: h[k].at <= now
    ensures Windows(h, now - WINDOW).Keys == Sources(h, now)
  {
    hide Windows, Recent;
    forall s: Addr ensures s in Windows(h, now - WINDOW) <==> s in Sources(h, now) {
      WindowsAre(h, now - WINDOW, s);
      HeldIsRecent(h, Some(s), now);
      if s in Sources(h, now) {
        var k :| k in Held(h, None, now) && h[k].source == s;
        assert k in Held(h, Some(s), now);
      }
      if Held(h, Some(s), now) != {} {
        var k :| k in Held(h, Some(s), now);
        assert k in Held(h, None, now) && h[k].source == s;
      }
    }
  }

  /** When a caller is admitted: fewer than 20 attempts in the last minute, fewer than 5 of its own, and room for
      its source; otherwise the first of the three that fails is named, the whole before the source. */
  lemma DecisionMeans(h: seq<Attempt>, maxSources: nat, source: Addr, now: int)
    requires forall k | 0 <= k < |h| :: h[k].at <= now
    ensures var d, all, own := Decide(h, maxSources, source, now), |Held(h, None, now)|, |Held(h, Some(source), now)|;
      var room := source in Sources(h, now) || |Sources(h, now)| < maxSources;
      && (d.Admitted? <==> all < 20 && own < 5 && room)
      && (d.Refused? && d.scope == LoginGlobal <==> all >= 20)
      && (d.Refused? && d.scope == Capacity <==> all < 20 && !room)
      && (d.Refused? && d.scope == LoginSource <==> all < 20 && room && own >= 5)
  {
    hide Windows, Recent, Held, RetryAfter;
    HeldIsRecent(h, None, now);
    HeldIsRecent(h, Some(source), now);
    SourcesAreWindows(h, now);
    WindowsAre(h, now - WINDOW, source);
    assert |Windows(h, now - WINDOW)| == |Windows(h, now - WINDOW).Keys|;
  }

  // ---- conservation ----

  ghost function Total(m: map<Addr, seq<int>>): (n: nat) {
    if m.Keys == {} then 0
    else
      var k :| k in m.Keys;
      |m[k]| + Total(m - {k})
  }

  lemma {:induction false} TotalWithout(m: map<Addr, seq<int>>, k: Addr)
    requires k in m
    ensures Total(m) == |m[k]| + Total(m - {k})
    decreases |m.Keys|
  {
    var j :| j in m.Keys && Total(m) == |m[j]| + Total(m - {j});
    if j != k {
      assert (m - {j}).Keys == m.Keys - {j} && (m - {k}).Keys == m.Keys - {k};
      assert m - {j} - {k} == m - {k} - {j};
      TotalWithout(m - {j}, k);
      TotalWithout(m - {k}, j);
    }
  }

  lemma TotalUpdate(m: map<Addr, seq<int>>, s: Addr, t: int)
    ensures Total(m[s := (if s in m then m[s] else []) + [t]]) == Total(m) + 1
  {
    var n := m[s := (if s in m then m[s] else []) + [t]];
    TotalWithout(n, s);
    if s in m {
      TotalWithout(m, s);
      assert n - {s} == m - {s};
    } else {
      assert n - {s} == m;
    }
  }

  /** The queues by source hold exactly as many attempts as the global queue. */
  lemma {:induction false} QueuesAddUp(h: seq<Attempt>, cut: int)
    ensures Total(Windows(h, cut)) == |Recent(h, None, cut)|
  {
    if h != [] {
      var front, last := h[..|h| - 1], h[|h| - 1];
      QueuesAddUp(front, cut);
      TotalUpdate(Windows(front, cut), last.source, last.at);
    }
  }

  lemma {:induction false} KeysAtMostTotal(m: map<Addr, seq<int>>)
    requires forall s | s in m :: m[s] != []
    ensures |m| <= Total(m)
    decreases |m.Keys|
  {
    if m.Keys != {} {
      var k :| k in m.Keys;
      TotalWithout(m, k);
      assert (m - {k}).Keys == m.Keys - {k};
      KeysAtMostTotal(m - {k});
    }
  }

  lemma SourcesAtMostGlobal(h: seq<Attempt>, cut: int)
    ensures |Windows(h, cut)| <= |Recent(h, None, cut)|
  {
    QueuesAddUp(h, cut);
    forall s | s in Windows(h, cut) ensures Windows(h, cut)[s] != [] {
      WindowsAre(h, cut, s);
    }
    KeysAtMostTotal(Windows(h, cut));
  }

  /** With room for 20 sources, no caller is ever refused for capacity. */
  lemma CapacityUnreachable(h: seq<Attempt>, maxSources: nat, source: Addr, now: int)
    requires GLOBAL <= maxSources
    ensures !(Decide(h, maxSources, source, now).Refused? && Decide(h, maxSources, source, now).scope == Capacity)
  {
    SourcesAtMostGlobal(h, now - WINDOW);
  }

  // ---- Retry-After ----

  /** Until the first recent attempt expires nothing does; then at least that one has. */
  lemma {:induction false} Expiry(h: seq<Attempt>, p: Option<Addr>, cut: int, later: int)
    requires Ordered(h) && cut <= later && Recent(h, p, cut) != []
    ensures later < Recent(h, p, cut)[0] ==> Recent(h, p, later) == Recent(h, p, cut)
    ensures Recent(h, p, cut)[0] <= later ==> |Recent(h, p, later)| < |Recent(h, p, cut)|
  {
    var front := h[..|h| - 1];
    RecentInside(h, p, cut);
    assert Recent(h, p, cut)[0] in Recent(h, p, cut);
    if Recent(front, p, cut) == [] {
      RecentShrinks(front, p, cut, later);
    } else {
      assert Recent(front, p, cut)[0] == Recent(h, p, cut)[0];
      Expiry(front, p, cut, later);
    }
  }

  lemma RetryPositive(h: seq<Attempt>, p: Option<Addr>, now: int)
    requires Ordered(h) && Recent(h, p, now - WINDOW) != []
    ensures RetryAfter(Recent(h, p, now - WINDOW), now) == Recent(h, p, now - WINDOW)[0] + WINDOW - now > 0
  {
    RecentInside(h, p, now - WINDOW);
    assert Recent(h, p, now - WINDOW)[0] in Recent(h, p, now - WINDOW);
  }

  lemma {:induction false} SomeSourceRecent(h: seq<Attempt>, cut: int)
    requires Recent(h, None, cut) != []
    ensures exists s :: Recent(h, Some(s), cut) != [] && Recent(h, Some(s), cut)[0] == Recent(h, None, cut)[0]
  {
    var front, last := h[..|h| - 1], h[|h| - 1];
    if Recent(front, None, cut) == [] {
      NoneRecent(front, last.source, cut);
      assert Recent(h, Some(last.source), cut) == [last.at];
    } else {
      SomeSourceRecent(front, cut);
      var s :| Recent(front, Some(s), cut) != [] && Recent(front, Some(s), cut)[0] == Recent(front, None, cut)[0];
      assert Recent(h, Some(s), cut)[0] == Recent(h, None, cut)[0];
    }
  }

  lemma {:induction false} NoneRecent(h: seq<Attempt>, s: Addr, cut: int)
    requires Recent(h, None, cut) == []
    ensures Recent(h, Some(s), cut) == []
  {
    if h != [] {
      NoneRecent(h[..|h| - 1], s, cut);
    }
  }

  /** With no admission in between, a source-limited caller is refused at every instant before
      RetryAfter and admitted at it. */
  lemma SourceRetryExact(h: seq<Attempt>, maxSources: nat, source: Addr, now: int, later: int)
    requires Ruled(h) && (forall k | 0 <= k < |h| :: h[k].at <= now) && now <= later
    requires |Windows(h, now - WINDOW)| <= maxSources
    requires Decide(h, maxSources, source, now).Refused? && Decide(h, maxSources, source, now).scope == LoginSource
    ensures var retry := Decide(h, maxSources, source, now).retryAfter;
      && 0 < retry <= WINDOW
      && (later < now + retry ==> Decide(h, maxSources, source, later).Refused?)
      && (later == now + retry ==> Decide(h, maxSources, source, later) == Admitted)
  {
    var cut, p := now - WINDOW, Some(source);
    RetryPositive(h, p, now);
    RecentInside(h, p, cut);
    assert Recent(h, p, cut)[0] in Recent(h, p, cut);
    AtMostLimit(h, p, now);
    Expiry(h, p, cut, later - WINDOW);
    RecentShrinks(h, None, cut, later - WINDOW);
    WindowsAre(h, cut, source);
    FewerWindows(h, cut, later - WINDOW, source);
  }

  lemma {:induction false} AtMostLimit(h: seq<Attempt>, p: Option<Addr>, now: int)
    requires Ruled(h) && forall k | 0 <= k < |h| :: h[k].at <= now
    ensures |Recent(h, p, now - WINDOW)| <= Limit(p)
  {
    hide Ruled;
    if h != [] {
      var front, last := h[..|h| - 1], h[|h| - 1];
      RuledFront(h);
      AtMostLimit(front, p, now);
      RecentShrinks(front, p, last.at - WINDOW, now - WINDOW);
    }
  }

  /** Time only removes queues; a source whose queue is gone leaves room. */
  lemma FewerWindows(h: seq<Attempt>, early: int, late: int, source: Addr)
    requires early <= late
    ensures Windows(h, late).Keys <= Windows(h, early).Keys
    ensures |Windows(h, late)| <= |Windows(h, early)|
    ensures source in Windows(h, early) && Recent(h, Some(source), late) == [] ==>
      |Windows(h, late)| < |Windows(h, early)|
  {
    forall s | s in Windows(h, late) ensures s in Windows(h, early) {
      WindowsAre(h, late, s);
      WindowsAre(h, early, s);
      RecentShrinks(h, Some(s), early, late);
    }
    Subset(Windows(h, late).Keys, Windows(h, early).Keys);
    WindowsAre(h, late, source);
    if source in Windows(h, early) && source !in Windows(h, late) {
      Subset(Windows(h, late).Keys, Windows(h, early).Keys - {source});
    }
  }

  lemma {:induction false} Subset(a: set<Addr>, b: set<Addr>)
    requires a <= b
    ensures |a| <= |b|
    ensures |a| == |b| ==> a == b
  {
    if a != {} {
      var x :| x in a;
      Subset(a - {x}, b - {x});
    }
  }

  lemma {:induction false} Missing(a: set<Addr>, b: set<Addr>)
    requires a <= b && |a| < |b|
    ensures exists x :: x in b && x !in a
  {
    if a == {} {
      var x :| x in b;
    } else {
      var x :| x in a;
      Missing(a - {x}, b - {x});
      var y :| y in b - {x} && y !in a - {x};
      assert y in b && y !in a;
    }
  }

  /** A globally limited caller meets that limit until RetryAfter and no longer at it. */
  lemma GlobalRetryExact(h: seq<Attempt>, maxSources: nat, source: Addr, now: int, later: int)
    requires Ruled(h) && (forall k | 0 <= k < |h| :: h[k].at <= now) && now <= later
    requires Decide(h, maxSources, source, now).Refused? && Decide(h, maxSources, source, now).scope == LoginGlobal
    ensures var retry := Decide(h, maxSources, source, now).retryAfter;
      && 0 < retry <= WINDOW
      && (later < now + retry ==> Decide(h, maxSources, source, later).Refused?)
      && (later == now + retry ==> |Recent(h, None, later - WINDOW)| < GLOBAL)
  {
    RetryPositive(h, None, now);
    RecentInside(h, None, now - WINDOW);
    assert Recent(h, None, now - WINDOW)[0] in Recent(h, None, now - WINDOW);
    AtMostLimit(h, None, now);
    Expiry(h, None, now - WINDOW, later - WINDOW);
  }

  predicate Stale(times: seq<int>, t: int) { forall x | x in times :: x <= t }

  /** All attempts of some queue are as old as `t`. */
  ghost predicate Emptied(m: map<Addr, seq<int>>, t: int) { exists s :: s in m && Stale(m[s], t) }

  lemma StaleSnoc(times: seq<int>, x: int, t: int)
    ensures Stale(times + [x], t) <==> Stale(times, t) && x <= t
    ensures Stale([], t)
  {
    assert x in times + [x];
    assert forall y | y in times :: y in times + [x];
  }

  lemma {:induction false} AllExpired(h: seq<Attempt>, p: Option<Addr>, early: int, late: int)
    requires early <= late
    ensures Recent(h, p, late) == [] <==> Stale(Recent(h, p, early), late)
  {
    hide Stale;
    StaleSnoc([], 0, late);
    if h != [] {
      var front, last := h[..|h| - 1], h[|h| - 1];
      AllExpired(front, p, early, late);
      StaleSnoc(Recent(front, p, early), last.at, late);
      assert Recent(front, p, early) + [] == Recent(front, p, early);
    }
  }

  /** A caller refused for capacity stays refused until RetryAfter; at it there is room exactly when some
      source made all its recent attempts at the oldest instant. */
  lemma CapacityRetryExact(h: seq<Attempt>, maxSources: nat, source: Addr, now: int, later: int)
    requires Ruled(h) && 1 <= maxSources && now <= later && |Windows(h, now - WINDOW)| <= maxSources
    requires Decide(h, maxSources, source, now).Refused? && Decide(h, maxSources, source, now).scope == Capacity
    ensures Recent(h, None, now - WINDOW) != []
    ensures var retry, oldest := Decide(h, maxSources, source, now).retryAfter, Recent(h, None, now - WINDOW)[0];
      && retry == oldest + WINDOW - now > 0
      && (later < now + retry ==> Decide(h, maxSources, source, later).Refused?)
      && (later == now + retry ==>
            (Decide(h, maxSources, source, later) == Admitted <==>
             Emptied(Windows(h, now - WINDOW), oldest)))
  {
    hide Ruled, Windows, Recent, Emptied, Ordered;
    RuledOrdered(h);
    var cut := now - WINDOW;
    SourcesAtMostGlobal(h, cut);
    RetryPositive(h, None, now);
    RecentShrinks(h, None, cut, later - WINDOW);
    RecentShrinks(h, Some(source), cut, later - WINDOW);
    if later - WINDOW < Recent(h, None, cut)[0] {
      Expiry(h, None, cut, later - WINDOW);
      SameWindows(h, cut, later - WINDOW);
    } else {
      FewerWindows(h, cut, later - WINDOW, source);
      WindowsLeft(h, cut, later - WINDOW);
    }
  }

  lemma RuledOrdered(h: seq<Attempt>)
    requires Ruled(h)
    ensures Ordered(h)
  {
    hide Rule, Ordered;
  }

  lemma {:induction false} SameWindows(h: seq<Attempt>, early: int, late: int)
    requires early <= late && |Recent(h, None, late)| == |Recent(h, None, early)|
    ensures Windows(h, late) == Windows(h, early)
  {
    if h != [] {
      RecentShrinks(h[..|h| - 1], None, early, late);
      SameWindows(h[..|h| - 1], early, late);
    }
  }

  /** A queue is gone exactly when all its attempts have expired. */
  lemma WindowsLeft(h: seq<Attempt>, early: int, late: int)
    requires early <= late
    ensures |Windows(h, late)| < |Windows(h, early)| <==>
            Emptied(Windows(h, early), late)
  {
    hide Stale, Windows, Recent;
    forall s: Addr ensures s in Windows(h, early) ==> (s !in Windows(h, late) <==> Stale(Windows(h, early)[s], late)) {
      WindowsAre(h, early, s);
      WindowsAre(h, late, s);
      AllExpired(h, Some(s), early, late);
    }
    FewerWindows(h, early, late, "");
    Subset(Windows(h, late).Keys, Windows(h, early).Keys);
    if |Windows(h, late)| < |Windows(h, early)| {
      Missing(Windows(h, late).Keys, Windows(h, early).Keys);
    }
  }

  /** The advertised instant can be too early: with room for one source that tried twice, the caller is
      refused again at it. */
  lemma CapacityRetryTooEarly()
    ensures var h, now := [Attempt("a", 1), Attempt("a", 2)], 3;
      && Ruled(h) && Decide(h, 1, "b", now) == Refused(Capacity, 1 + WINDOW - now)
      && Decide(h, 1, "b", 1 + WINDOW).Refused?
  {
    var one, h := [Attempt("a", 1)], [Attempt("a", 1), Attempt("a", 2)];
    assert h[..1] == one && one[..0] == [] && h[..0] == [];
    forall k | 0 <= k < |h| ensures Rule(h[..k], h[k]) {
      assert h[..k] == [] || h[..k] == one;
      assert Recent([], Some("a"), h[k].at - WINDOW) == [] == Recent([], None, h[k].at - WINDOW);
    }
    TwoByOne(3 - WINDOW);
    TwoByOne(1);
  }

  lemma TwoByOne(cut: int)
    requires cut == 3 - WINDOW || cut == 1
    ensures var h := [Attempt("a", 1), Attempt("a", 2)];
      |Windows(h, cut)| == 1 && Recent(h, Some("b"), cut) == []
        && Recent(h, None, cut) == if cut == 1 then [2] else [1, 2]
  {
    var one, h := [Attempt("a", 1)], [Attempt("a", 1), Attempt("a", 2)];
    assert h[..1] == one && one[..0] == [];
    assert Recent([], None, cut) == [] && Recent([], Some("b"), cut) == [];
    assert Recent(one, None, cut) == if cut == 1 then [] else [1];
    assert "a" != "b";
    assert Recent(one, Some("b"), cut) == [];
    assert Windows([], cut) == map[];
    assert Windows(one, cut).Keys <= {"a"};
    assert Windows(h, cut).Keys == {"a"};
  }

  /** The global queue starts with the smallest head of the queues by source. */
  lemma HeadsInOrder(h: seq<Attempt>, cut: int)
    requires Ordered(h)
    ensures forall s | s in Windows(h, cut) ::
      Windows(h, cut)[s] != [] && 0 < Windows(h, cut)[s][0] && Recent(h, None, cut) != []
        && Recent(h, None, cut)[0] <= Windows(h, cut)[s][0]
    ensures Recent(h, None, cut) != [] ==>
      exists s :: s in Windows(h, cut) && Windows(h, cut)[s][0] == Recent(h, None, cut)[0]
  {
    forall s | s in Windows(h, cut) ensures Windows(h, cut)[s] != [] && 0 < Windows(h, cut)[s][0]
      && Recent(h, None, cut) != [] && Recent(h, None, cut)[0] <= Windows(h, cut)[s][0]
    {
      WindowsAre(h, cut, s);
      RecentInside(h, Some(s), cut);
      assert Windows(h, cut)[s][0] in Recent(h, Some(s), cut);
      HeadAtMost(h, s, cut);
    }
    if Recent(h, None, cut) != [] {
      SomeSourceRecent(h, cut);
      var s :| Recent(h, Some(s), cut) != [] && Recent(h, Some(s), cut)[0] == Recent(h, None, cut)[0];
      WindowsAre(h, cut, s);
    }
  }

  lemma {:induction false} HeadAtMost(h: seq<Attempt>, s: Addr, cut: int)
    requires Ordered(h) && Recent(h, Some(s), cut) != []
    ensures Recent(h, None, cut) != [] && Recent(h, None, cut)[0] <= Recent(h, Some(s), cut)[0]
  {
    var front := h[..|h| - 1];
    if Recent(front, Some(s), cut) != [] {
      HeadAtMost(front, s, cut);
    } else {
      RecentInside(front, None, cut);
      if Recent(front, None, cut) != [] {
        assert Recent(front, None, cut)[0] in Recent(front, None, cut);
      }
    }
  }

  // ---- the limiter itself ----

  function DropOld(times: seq<int>, cutoff: int): (r: seq<int>) {
    if times != [] && times[0] <= cutoff then DropOld(times[1..], cutoff) else times
  }

  lemma {:induction false} DropSnoc(times: seq<int>, t: int, cutoff: int)
    requires forall x | x in times :: x <= t
    ensures DropOld(times + [t], cutoff) == DropOld(times, cutoff) + (if t > cutoff then [t] else [])
  {
    if times == [] {
      assert times + [t] == [t] && [t][1..] == [];
    } else {
      assert times[0] in times && (times + [t])[1..] == times[1..] + [t];
      assert forall x | x in times[1..] :: x in times;
      DropSnoc(times[1..], t, cutoff);
    }
  }

  /** Dropping the old prefix of a queue leaves the recent history. */
  lemma {:induction false} DropIsRecent(h: seq<Attempt>, p: Option<Addr>, cut: int, later: int)
    requires Ordered(h) && cut <= later
    ensures DropOld(Recent(h, p, cut), later) == Recent(h, p, later)
  {
    if h != [] {
      var front, last := h[..|h| - 1], h[|h| - 1];
      DropIsRecent(front, p, cut, later);
      RecentInside(front, p, cut);
      DropSnoc(Recent(front, p, cut), last.at, later);
      assert Recent(front, p, cut) + [] == Recent(front, p, cut)
        && Recent(front, p, later) + [] == Recent(front, p, later);
    }
  }

  /** `attemptWindow.prune`. */
  method Prune(times: seq<int>, cutoff: int) returns (r: seq<int>)
    ensures r == DropOld(times, cutoff)
  {
    var first := 0;
    while first < |times| && times[first] <= cutoff
      invariant 0 <= first <= |times|
      invariant DropOld(times[first..], cutoff) == DropOld(times, cutoff)
    {
      assert times[first..][1..] == times[first + 1..];
      first := first + 1;
    }
    r := times[first..];
  }

  ghost predicate PrunedTo(before: map<Addr, seq<int>>, after: map<Addr, seq<int>>, keys: set<Addr>, cutoff: int) {
    && after.Keys <= before.Keys
    && (forall s | s in before && s !in keys :: s in after && after[s] == before[s])
    && (forall s | s in before && s in keys :: s in after <==> DropOld(before[s], cutoff) != [])
    && (forall s | s in after && s in keys :: after[s] == DropOld(before[s], cutoff))
  }

  /** The loop of `Allow` over all queues: empty ones are deleted. */
  method PruneAll(m: map<Addr, seq<int>>, cutoff: int) returns (r: map<Addr, seq<int>>)
    ensures PrunedTo(m, r, m.Keys, cutoff)
  {
    r := m;
    var keys := m.Keys;
    while keys != {}
      invariant keys <= m.Keys && PrunedTo(m, r, m.Keys - keys, cutoff)
      decreases |keys|
    {
      var k :| k in keys;
      var w := Prune(m[k], cutoff);
      r := if w == [] then r - {k} else r[k := w];
      keys := keys - {k};
    }
  }

  lemma RuledGrows(h: seq<Attempt>, a: Attempt)
    requires Ruled(h) && Rule(h, a) && 0 < a.at && forall k | 0 <= k < |h| :: h[k].at <= a.at
    ensures Ruled(h + [a])
  {
    hide Rule;
    var g := h + [a];
    forall k | 0 <= k < |g| ensures Rule(g[..k], g[k]) {
      assert g[..k] == h[..k];
      assert k == |h| ==> h[..k] == h;
    }
  }

  lemma OneMore(h: seq<Attempt>, maxSources: nat, a: Attempt)
    requires Decide(h, maxSources, a.source, a.at) == Admitted && |Windows(h, a.at - WINDOW)| <= maxSources
    ensures var m, cut := Windows(h, a.at - WINDOW), a.at - WINDOW;
      && Rule(h, a)
      && Recent(h + [a], None, cut) == Recent(h, None, cut) + [a.at]
      && Windows(h + [a], cut) == m[a.source := (if a.source in m then m[a.source] else []) + [a.at]]
      && |Windows(h + [a], cut)| <= maxSources
  {
    var m, cut := Windows(h, a.at - WINDOW), a.at - WINDOW;
    assert (h + [a])[..|h|] == h;
    WindowsAre(h, cut, a.source);
    assert Windows(h + [a], cut).Keys == m.Keys + {a.source};
  }

  lemma PrunedIsWindows(h: seq<Attempt>, cut: int, later: int, r: map<Addr, seq<int>>)
    requires Ordered(h) && cut <= later && PrunedTo(Windows(h, cut), r, Windows(h, cut).Keys, later)
    ensures r == Windows(h, later)
  {
    forall s: Addr
      ensures (s in r <==> Recent(h, Some(s), later) != []) && (s in r ==> r[s] == Recent(h, Some(s), later))
    {
      WindowsAre(h, cut, s);
      DropIsRecent(h, Some(s), cut, later);
      RecentShrinks(h, Some(s), cut, later);
    }
    WindowsEqual(h, later, r);
  }

  /** The smallest head among some queues, 0 for none. */
  ghost predicate Smallest(m: map<Addr, seq<int>>, keys: set<Addr>, oldest: int)
    requires keys <= m.Keys && forall s | s in m :: m[s] != []
  {
    && (oldest == 0 ==> keys == {})
    && (oldest != 0 ==> exists s :: s in keys && m[s][0] == oldest)
    && (forall s | s in keys :: oldest <= m[s][0])
  }

  class LoginLimiter {
    const maxSources: nat
    var global: seq<int>
    var bySource: map<Addr, seq<int>>

    // every admitted attempt, the cutoff of the last pruning, and the last clock reading
    ghost var history: seq<Attempt>
    ghost var horizon: int
    ghost var clock: int

    ghost predicate Valid()
      reads this
    {
      && 1 <= maxSources && Ruled(history) && horizon <= clock - WINDOW
      && (forall k | 0 <= k < |history| :: history[k].at <= clock)
      && global == Recent(history, None, horizon)
      && bySource == Windows(history, horizon) && |bySource| <= maxSources
    }

    constructor (maxSources: nat, now: int)
      requires 1 <= maxSources
      ensures Valid() && history == [] && clock == now && this.maxSources == maxSources
    {
      this.maxSources := maxSources;
      global, bySource := [], map[];
      history, horizon, clock := [], now - WINDOW, now;
    }

    /** `capacityRetryAfter`: the smallest queue head, which is the head of the global queue. */
    method CapacityRetryAfter(now: int) returns (retry: int)
      requires Valid()
      ensures retry == if global == [] then WINDOW else RetryAfter(global, now)
    {
      hide Ruled, Windows, Recent, Ordered;
      RuledOrdered(history);
      HeadsInOrder(history, horizon);
      var keys, oldest := bySource.Keys, 0;
      while keys != {}
        invariant keys <= bySource.Keys && Smallest(bySource, bySource.Keys - keys, oldest)
        decreases |keys|
      {
        var k :| k in keys;
        if |bySource[k]| > 0 && (oldest == 0 || bySource[k][0] < oldest) {
          oldest := bySource[k][0];
        }
        assert bySource.Keys - (keys - {k}) == (bySource.Keys - keys) + {k};
        keys := keys - {k};
      }
      assert bySource.Keys - keys == bySource.Keys;
      if oldest == 0 {
        return WINDOW;
      }
      retry := oldest + WINDOW - now;
      if retry <= 0 {
        retry := SECOND;
      }
    }

    method PruneQueues(now: int)
      requires Valid() && clock == now
      modifies this`global, this`bySource, this`horizon
      ensures Valid() && horizon == now - WINDOW
    {
      hide Ruled, Recent, Windows, DropOld, PrunedTo, Ordered;
      RuledOrdered(history);
      global := Prune(global, now - WINDOW);
      bySource := PruneAll(bySource, now - WINDOW);
      DropIsRecent(history, None, horizon, now - WINDOW);
      PrunedIsWindows(history, horizon, now - WINDOW, bySource);
      FewerWindows(history, horizon, now - WINDOW, "");
      horizon := now - WINDOW;
    }

    /** The three refusals of `Allow`, in its order. */
    method Check(source: Addr, now: int) returns (d: Decision)
      requires Valid() && clock == now && horizon == now - WINDOW
      ensures d == Decide(history, maxSources, source, now)
    {
      hide Ruled, Windows;
      WindowsAre(history, horizon, source);
      if |global| >= GLOBAL {
        return Refused(LoginGlobal, RetryAfter(global, now));
      }
      if source !in bySource && |bySource| >= maxSources {
        var retry := CapacityRetryAfter(now);
        return Refused(Capacity, retry);
      }
      var window := if source in bySource then bySource[source] else [];
      if |window| >= PER_SOURCE {
        return Refused(LoginSource, RetryAfter(window, now));
      }
      return Admitted;
    }

    method Record(source: Addr, now: int)
      requires Valid() && clock == now && 0 < now && horizon == now - WINDOW
      requires Decide(history, maxSources, source, now) == Admitted
      modifies this`global, this`bySource, this`history
      ensures Valid() && history == old(history) + [Attempt(source, now)]
    {
      ghost var a := Attempt(source, now);
      OneMore(history, maxSources, a);
      RuledGrows(history, a);
      hide Ruled, Recent, Windows, Decide;
      bySource := bySource[source := (if source in bySource then bySource[source] else []) + [now]];
      global := global + [now];
      history := history + [a];
    }

    /** `Allow`: what it answers is what the whole history demands, and only an admission is recorded. */
    method Allow(source: Option<Addr>, now: int) returns (d: Decision)
      requires Valid() && clock <= now && 0 < now
      modifies this
      ensures Valid() && clock == now
      ensures source.None? ==> d == Refused(Capacity, WINDOW) && history == old(history)
      ensures source.Some? ==> d == Decide(old(history), maxSources, source.value, now)
      ensures source.Some? ==>
        (d.Admitted? <==>
         |Held(old(history), None, now)| < 20 && |Held(old(history), source, now)| < 5
         && (source.value in Sources(old(history), now) || |Sources(old(history), now)| < maxSources))
      ensures source.Some? ==> history == old(history) + (if d.Admitted? then [Attempt(source.value, now)] else [])
    {
      clock := now;
      if source.None? {
        return Refused(Capacity, WINDOW);
      }
      PruneQueues(now);
      d := Check(source.value, now);
      assert source == Some(source.value);
      DecisionMeans(history, maxSources, source.value, now);
      if d.Admitted? {
        Record(source.value, now);
      }
    }
  }

  /** `NewLoginLimiter`: zero stands for the default bound, anything else outside one to a million is refused. */
  method NewLoginLimiter(maxSources: int, now: int) returns (limiter: LoginLimiter?)
    ensures limiter != null <==> 0 <= maxSources <= MAX_LOGIN_SOURCES
    ensures limiter != null ==>
      && fresh(limiter) && limiter.Valid() && limiter.history == [] && limiter.clock == now
      && limiter.maxSources == if maxSources == 0 then DEFAULT_MAX_LOGIN_SOURCES else maxSources
  {
    var bound := if maxSources == 0 then DEFAULT_MAX_LOGIN_SOURCES else maxSources;
    if bound < 1 || bound > MAX_LOGIN_SOURCES {
      return null;
    }
    limiter := new LoginLimiter(bound, now);
  }
}
