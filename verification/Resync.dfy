/**
 * When a viewer may ask for a resync: a sliding window over the sends of one tab, exponential backoff
 * inside it, and an absorbing storm state that hands the tab to pixel mode.
 */
module ResyncModel {
  import opened Protocol

  datatype Config = Config(windowMs: nat, maxResyncs: nat, backoffBaseMs: nat, backoffMaxMs: nat)

  predicate Valid(cfg: Config) {
    cfg.windowMs >= 1 && cfg.maxResyncs >= 1 && 1 <= cfg.backoffBaseMs <= cfg.backoffMaxMs
  }

  /** `timer` holds the delay it was armed with. */
  datatype TabState = TabState(
    sentAt: seq<int>,
    totalResyncs: nat,
    storm: bool,
    timer: Option<nat>,
    pendingReason: Option<string>,
    backoffMs: nat)

  const FRESH := TabState([], 0, false, None, None, 0)

  function Prune(sentAt: seq<int>, at: int, windowMs: nat): seq<int> {
    if sentAt != [] && sentAt[0] <= at - windowMs then Prune(sentAt[1..], at, windowMs) else sentAt
  }

  function Pruned(cfg: Config, s: TabState, at: int): TabState {
    s.(sentAt := Prune(s.sentAt, at, cfg.windowMs))
  }

  function Degraded(s: TabState): TabState {
    s.(timer := None, pendingReason := None, backoffMs := 0, storm := true)
  }

  /** What leaves the controller during one call. */
  datatype Effect = Nothing | Sent(reason: string) | AutoPx

  /** The clock is read once to prune and once more to stamp the send. */
  function Dispatch(cfg: Config, disposed: bool, s: TabState, prunedAt: int, sentAt: int): (TabState, Effect) {
    var idle := s.(timer := None, pendingReason := None);
    if disposed || s.pendingReason.None? || s.storm then (idle, Nothing)
    else
      var p := Pruned(cfg, idle, prunedAt);
      if |p.sentAt| >= cfg.maxResyncs then (Degraded(p), AutoPx)
      else (p.(sentAt := p.sentAt + [sentAt], totalResyncs := p.totalResyncs + 1, backoffMs := 0),
            Sent(s.pendingReason.value))
  }

  function Delay(cfg: Config, recent: nat): nat {
    if recent == 0 then 0 else Min(cfg.backoffMaxMs, cfg.backoffBaseMs * Pow2(recent - 1))
  }

  function Request(cfg: Config, s: TabState, reason: string, at: int, prunedAt: int, sentAt: int): (TabState, Effect, bool) {
    var p := Pruned(cfg, s, at);
    if p.storm || p.pendingReason.Some? then (p, Nothing, false)
    else if |p.sentAt| >= cfg.maxResyncs then (Degraded(p), AutoPx, false)
    else
      var delay := Delay(cfg, |p.sentAt|);
      var waiting := p.(pendingReason := Some(reason), backoffMs := delay);
      if delay == 0 then
        var (t, e) := Dispatch(cfg, false, waiting, prunedAt, sentAt);
        (t, e, true)
      else (waiting.(timer := Some(delay)), Nothing, true)
  }

  function Recovered(s: TabState): TabState {
    if s.pendingReason.None? then s else s.(timer := None, pendingReason := None, backoffMs := 0)
  }

  // ---- Runs of one tab ----

  datatype Step =
    | Ask(reason: string, at: int, prunedAt: int, sentAt: int)
    | Fires(prunedAt: int, sentAt: int)
    | Repaired
    | Look(at: int)

  /** The tab with its history: every send time, how often pixel mode was asked for, and the last clock reading. */
  datatype Log = Log(tab: TabState, sends: seq<int>, autoPx: nat, clock: int)

  predicate Enabled(s: Log, step: Step) {
    match step
    case Ask(_, at, prunedAt, sentAt) => s.clock <= at <= prunedAt <= sentAt
    case Fires(prunedAt, sentAt) => s.tab.timer.Some? && s.clock <= prunedAt <= sentAt
    case Repaired => true
    case Look(at) => s.clock <= at
  }

  function Noted(s: Log, t: TabState, e: Effect, sentAt: int, clock: int): Log {
    Log(t, if e.Sent? then s.sends + [sentAt] else s.sends, if e.AutoPx? then s.autoPx + 1 else s.autoPx, clock)
  }

  function Apply(cfg: Config, s: Log, step: Step): Log {
    match step
    case Ask(reason, at, prunedAt, sentAt) =>
      var (t, e, _) := Request(cfg, s.tab, reason, at, prunedAt, sentAt); Noted(s, t, e, sentAt, sentAt)
    case Fires(prunedAt, sentAt) =>
      var (t, e) := Dispatch(cfg, false, s.tab, prunedAt, sentAt); Noted(s, t, e, sentAt, sentAt)
    case Repaired => s.(tab := Recovered(s.tab))
    case Look(at) => s.(tab := Pruned(cfg, s.tab, at), clock := at)
  }

  predicate Possible(cfg: Config, s: Log, run: seq<Step>)
    decreases |run|
  {
    run == [] || (Enabled(s, run[0]) && Possible(cfg, Apply(cfg, s, run[0]), run[1..]))
  }

  function After(cfg: Config, s: Log, run: seq<Step>): Log
    requires Possible(cfg, s, run)
    decreases |run|
  {
    if run == [] then s else After(cfg, Apply(cfg, s, run[0]), run[1..])
  }

  // ---- The window ----

  /** Sends in (lo, hi]. */
  function CountIn(sends: seq<int>, lo: int, hi: int): nat {
    if sends == [] then 0
    else CountIn(sends[..|sends| - 1], lo, hi) + (if lo < sends[|sends| - 1] <= hi then 1 else 0)
  }

  predicate Sorted(sends: seq<int>, clock: int) {
    && (forall i, j :: 0 <= i <= j < |sends| ==> sends[i] <= sends[j])
    && (forall i :: 0 <= i < |sends| ==> sends[i] <= clock)
  }

  /** Any `n + 1` sends in a row take at least the window. */
  ghost predicate Spaced(sends: seq<int>, n: nat, windowMs: nat) {
    forall i, j :: 0 <= i <= j < |sends| && j - i == n ==> sends[i] <= sends[j] - windowMs
  }

  /** The queue is the recent end of all sends; everything before it has left the window. */
  ghost predicate IsRecent(sends: seq<int>, sentAt: seq<int>, clock: int, windowMs: nat) {
    && |sentAt| <= |sends| && sentAt == sends[|sends| - |sentAt|..]
    && (|sentAt| < |sends| ==> sends[|sends| - |sentAt| - 1] <= clock - windowMs)
  }

  /** The history is sorted and spaced, and the queue is its recent end. */
  ghost predicate QueueInv(cfg: Config, sends: seq<int>, sentAt: seq<int>, clock: int) {
    && Sorted(sends, clock) && Spaced(sends, cfg.maxResyncs, cfg.windowMs)
    && IsRecent(sends, sentAt, clock, cfg.windowMs) && |sentAt| <= cfg.maxResyncs
  }

  predicate FlagInv(s: Log) {
    && s.tab.totalResyncs == |s.sends|
    && (s.tab.pendingReason.Some? <==> s.tab.timer.Some?)
    && s.autoPx == (if s.tab.storm then 1 else 0)
    && (s.tab.storm ==> s.tab.pendingReason.None? && s.tab.backoffMs == 0)
    && (s.tab.timer.Some? ==> s.tab.timer == Some(s.tab.backoffMs) && s.tab.backoffMs > 0)
  }

  ghost predicate Inv(cfg: Config, s: Log) {
    QueueInv(cfg, s.sends, s.tab.sentAt, s.clock) && FlagInv(s)
  }

  lemma {:induction false} PruneKeepsRecent(sends: seq<int>, sentAt: seq<int>, clock: int, at: int, windowMs: nat)
    requires Sorted(sends, clock) && IsRecent(sends, sentAt, clock, windowMs) && clock <= at
    ensures IsRecent(sends, Prune(sentAt, at, windowMs), at, windowMs)
    ensures |Prune(sentAt, at, windowMs)| <= |sentAt|
    ensures forall i :: 0 <= i < |Prune(sentAt, at, windowMs)| ==> Prune(sentAt, at, windowMs)[i] > at - windowMs
    decreases |sentAt|
  {
    if sentAt != [] && sentAt[0] <= at - windowMs {
      assert sends[|sends| - |sentAt|] == sentAt[0];
      PruneKeepsRecent(sends, sentAt[1..], at, at, windowMs);
    } else if sentAt != [] {
      forall i | 0 <= i < |sentAt|
        ensures sentAt[0] <= sentAt[i]
      {
        assert sentAt[i] == sends[|sends| - |sentAt| + i] && sentAt[0] == sends[|sends| - |sentAt|];
      }
    }
  }

  lemma {:induction false} CountNone(sends: seq<int>, lo: int, hi: int)
    requires forall i :: 0 <= i < |sends| ==> sends[i] <= lo
    ensures CountIn(sends, lo, hi) == 0
    decreases |sends|
  {
    if sends != [] { CountNone(sends[..|sends| - 1], lo, hi); }
  }

  /** What is left after pruning is exactly the sends of the window that ends now. */
  lemma {:induction false} PrunedIsWindow(sends: seq<int>, recent: seq<int>, at: int, windowMs: nat)
    requires Sorted(sends, at) && IsRecent(sends, recent, at, windowMs)
    requires forall i :: 0 <= i < |recent| ==> recent[i] > at - windowMs
    ensures |recent| == CountIn(sends, at - windowMs, at)
  {
    var k := |sends| - |recent|;
    CountNone(sends[..k], at - windowMs, at);
    CountAll(sends, at - windowMs, at, k);
  }

  lemma {:induction false} CountAll(sends: seq<int>, lo: int, hi: int, k: nat)
    requires k <= |sends| && forall i :: k <= i < |sends| ==> lo < sends[i] <= hi
    ensures CountIn(sends, lo, hi) == CountIn(sends[..k], lo, hi) + (|sends| - k)
    decreases |sends|
  {
    if k < |sends| {
      CountAll(sends[..|sends| - 1], lo, hi, k);
      assert sends[..|sends| - 1][..k] == sends[..k];
    } else {
      assert sends[..k] == sends;
    }
  }

  lemma PruneKeepsQueue(cfg: Config, sends: seq<int>, sentAt: seq<int>, clock: int, at: int)
    requires QueueInv(cfg, sends, sentAt, clock) && clock <= at
    ensures QueueInv(cfg, sends, Prune(sentAt, at, cfg.windowMs), at)
    ensures |Prune(sentAt, at, cfg.windowMs)| == CountIn(sends, at - cfg.windowMs, at)
  {
    PruneKeepsRecent(sends, sentAt, clock, at, cfg.windowMs);
    assert Sorted(sends, at);
    PrunedIsWindow(sends, Prune(sentAt, at, cfg.windowMs), at, cfg.windowMs);
  }

  lemma SendKeepsSorted(sends: seq<int>, clock: int, sentAt: int)
    requires Sorted(sends, clock) && clock <= sentAt
    ensures Sorted(sends + [sentAt], sentAt)
  {}

  lemma SendKeepsSpaced(sends: seq<int>, recent: seq<int>, clock: int, sentAt: int, n: nat, windowMs: nat)
    requires Sorted(sends, clock) && Spaced(sends, n, windowMs)
    requires IsRecent(sends, recent, clock, windowMs) && |recent| < n && clock <= sentAt
    ensures Spaced(sends + [sentAt], n, windowMs)
  {
    var more := sends + [sentAt];
    forall i, j | 0 <= i <= j < |more| && j - i == n
      ensures more[i] <= more[j] - windowMs
    {
      if j < |sends| {
        assert sends[i] <= sends[j] - windowMs;
      } else {
        assert sends[i] <= sends[|sends| - |recent| - 1];
      }
    }
  }

  lemma SendKeepsRecent(sends: seq<int>, recent: seq<int>, clock: int, sentAt: int, windowMs: nat)
    requires IsRecent(sends, recent, clock, windowMs) && clock <= sentAt
    ensures IsRecent(sends + [sentAt], recent + [sentAt], sentAt, windowMs)
  {}

  lemma SendKeepsQueue(cfg: Config, sends: seq<int>, recent: seq<int>, clock: int, sentAt: int)
    requires QueueInv(cfg, sends, recent, clock) && |recent| < cfg.maxResyncs && clock <= sentAt
    ensures QueueInv(cfg, sends + [sentAt], recent + [sentAt], sentAt)
  {
    SendKeepsSorted(sends, clock, sentAt);
    SendKeepsSpaced(sends, recent, clock, sentAt, cfg.maxResyncs, cfg.windowMs);
    SendKeepsRecent(sends, recent, clock, sentAt, cfg.windowMs);
  }

  lemma LaterKeepsQueue(cfg: Config, sends: seq<int>, recent: seq<int>, clock: int, later: int)
    requires QueueInv(cfg, sends, recent, clock) && clock <= later
    ensures QueueInv(cfg, sends, recent, later)
  {}

  lemma DispatchShape(cfg: Config, s: Log, prunedAt: int, sentAt: int)
    requires s.tab.pendingReason.Some? && !s.tab.storm
    ensures var (t, e) := Dispatch(cfg, false, s.tab, prunedAt, sentAt); var u := Noted(s, t, e, sentAt, sentAt);
      var recent := Prune(s.tab.sentAt, prunedAt, cfg.windowMs);
      u.clock == sentAt &&
      if |recent| < cfg.maxResyncs then u.sends == s.sends + [sentAt] && u.tab.sentAt == recent + [sentAt]
      else u.sends == s.sends && u.tab.sentAt == recent
  {}

  lemma DispatchKeepsQueue(cfg: Config, s: Log, prunedAt: int, sentAt: int)
    requires QueueInv(cfg, s.sends, s.tab.sentAt, s.clock) && s.clock <= prunedAt <= sentAt
    requires s.tab.pendingReason.Some? && !s.tab.storm
    ensures var (t, e) := Dispatch(cfg, false, s.tab, prunedAt, sentAt); var u := Noted(s, t, e, sentAt, sentAt);
      QueueInv(cfg, u.sends, u.tab.sentAt, u.clock)
  {
    DispatchShape(cfg, s, prunedAt, sentAt);
    RoomKeepsQueue(cfg, s.sends, s.tab.sentAt, s.clock, prunedAt, sentAt);
  }

  lemma RoomKeepsQueue(cfg: Config, sends: seq<int>, queue: seq<int>, clock: int, prunedAt: int, sentAt: int)
    requires QueueInv(cfg, sends, queue, clock) && clock <= prunedAt <= sentAt
    ensures var recent := Prune(queue, prunedAt, cfg.windowMs);
      if |recent| < cfg.maxResyncs then QueueInv(cfg, sends + [sentAt], recent + [sentAt], sentAt)
      else QueueInv(cfg, sends, recent, sentAt)
  {
    PruneKeepsQueue(cfg, sends, queue, clock, prunedAt);
    var recent := Prune(queue, prunedAt, cfg.windowMs);
    if |recent| < cfg.maxResyncs {
      SendKeepsQueue(cfg, sends, recent, prunedAt, sentAt);
    } else {
      LaterKeepsQueue(cfg, sends, recent, prunedAt, sentAt);
    }
  }

  lemma DispatchKeepsFlags(cfg: Config, s: Log, prunedAt: int, sentAt: int)
    requires s.tab.totalResyncs == |s.sends| && s.autoPx == 0 && s.tab.pendingReason.Some? && !s.tab.storm
    ensures var (t, e) := Dispatch(cfg, false, s.tab, prunedAt, sentAt); FlagInv(Noted(s, t, e, sentAt, sentAt))
  {}

  lemma DelayPositive(cfg: Config, n: nat)
    requires Valid(cfg)
    ensures Delay(cfg, n) == 0 <==> n == 0
  {
    if n > 0 { Pow2Positive(n - 1); }
  }

  lemma {:induction false} Pow2Positive(n: nat)
    ensures Pow2(n) >= 1
  {
    if n > 0 { Pow2Positive(n - 1); }
  }

  lemma AskShape(cfg: Config, s: Log, step: Step)
    requires Valid(cfg) && step.Ask?
    ensures var p := Pruned(cfg, s.tab, step.at); var u := Apply(cfg, s, step);
      u.clock == step.sentAt &&
      if !p.storm && p.pendingReason.None? && p.sentAt == [] then
        u.sends == s.sends + [step.sentAt] && u.tab.sentAt == [step.sentAt]
      else
        u.sends == s.sends && u.tab.sentAt == p.sentAt
  {
    DelayPositive(cfg, |Prune(s.tab.sentAt, step.at, cfg.windowMs)|);
  }

  lemma AskKeepsQueue(cfg: Config, s: Log, step: Step)
    requires Valid(cfg) && QueueInv(cfg, s.sends, s.tab.sentAt, s.clock) && step.Ask? && Enabled(s, step)
    ensures var u := Apply(cfg, s, step); QueueInv(cfg, u.sends, u.tab.sentAt, u.clock)
  {
    AskShape(cfg, s, step);
    PruneKeepsQueue(cfg, s.sends, s.tab.sentAt, s.clock, step.at);
    var recent := Prune(s.tab.sentAt, step.at, cfg.windowMs);
    if !s.tab.storm && s.tab.pendingReason.None? && recent == [] {
      SendKeepsQueue(cfg, s.sends, recent, step.at, step.sentAt);
      assert recent + [step.sentAt] == [step.sentAt];
    } else {
      LaterKeepsQueue(cfg, s.sends, recent, step.at, step.sentAt);
    }
  }

  lemma AskKeepsFlags(cfg: Config, s: Log, step: Step)
    requires Valid(cfg) && FlagInv(s) && step.Ask?
    ensures FlagInv(Apply(cfg, s, step))
  {
    var p := Pruned(cfg, s.tab, step.at);
    DelayPositive(cfg, |p.sentAt|);
    if !p.storm && p.pendingReason.None? && p.sentAt == [] {
      DispatchKeepsFlags(cfg, s.(tab := p.(pendingReason := Some(step.reason), backoffMs := 0)), step.prunedAt, step.sentAt);
    }
  }

  lemma StepKeepsInv(cfg: Config, s: Log, step: Step)
    requires Valid(cfg) && Inv(cfg, s) && Enabled(s, step)
    ensures Inv(cfg, Apply(cfg, s, step))
  {
    match step
    case Ask(_, _, _, _) =>
      AskKeepsQueue(cfg, s, step);
      AskKeepsFlags(cfg, s, step);
    case Fires(prunedAt, sentAt) =>
      DispatchKeepsQueue(cfg, s, prunedAt, sentAt);
      DispatchKeepsFlags(cfg, s, prunedAt, sentAt);
    case Repaired =>
    case Look(at) => PruneKeepsQueue(cfg, s.sends, s.tab.sentAt, s.clock, at);
  }

  lemma {:induction false} RunKeepsInv(cfg: Config, s: Log, run: seq<Step>)
    requires Valid(cfg) && Inv(cfg, s) && Possible(cfg, s, run)
    ensures Inv(cfg, After(cfg, s, run))
    decreases |run|
  {
    if run != [] {
      StepKeepsInv(cfg, s, run[0]);
      RunKeepsInv(cfg, Apply(cfg, s, run[0]), run[1..]);
    }
  }

  lemma {:induction false} CountTail(sends: seq<int>, lo: int, hi: int, m: nat)
    requires m <= |sends|
    ensures CountIn(sends, lo, hi) <= CountIn(sends[..m], lo, hi) + (|sends| - m)
    decreases |sends|
  {
    if m < |sends| {
      CountTail(sends[..|sends| - 1], lo, hi, m);
      assert sends[..|sends| - 1][..m] == sends[..m];
    } else {
      assert sends[..m] == sends;
    }
  }

  lemma {:induction false} SpacedBoundsWindow(sends: seq<int>, clock: int, n: nat, windowMs: nat, t: int)
    requires Sorted(sends, clock) && Spaced(sends, n, windowMs)
    ensures CountIn(sends, t - windowMs, t) <= n
    decreases |sends|
  {
    var k := |sends| - 1;
    if sends != [] && sends[k] > t {
      assert Spaced(sends[..k], n, windowMs) by {
        forall i, j | 0 <= i <= j < k && j - i == n
          ensures sends[..k][i] <= sends[..k][j] - windowMs
        {
          assert sends[i] <= sends[j] - windowMs;
        }
      }
      SpacedBoundsWindow(sends[..k], clock, n, windowMs, t);
    } else if |sends| > n {
      var m := |sends| - n;
      assert sends[m - 1] <= sends[m - 1 + n] - windowMs;
      CountTail(sends, t - windowMs, t, m);
      CountNone(sends[..m], t - windowMs, t);
    } else {
      CountTail(sends, t - windowMs, t, 0);
      assert sends[..0] == [];
    }
  }

  // ---- The policy, over whole runs ----

  function Begin(clock: int): Log {
    Log(FRESH, [], 0, clock)
  }

  /**
   * With a monotone clock and any mix of requests, timers, repairs and looks: no window of any position
   * holds more than `maxResyncs` sends, the total is the number of sends, and a reason is pending exactly
   * while a timer is armed.
   */
  lemma NeverTooManySends(cfg: Config, clock: int, run: seq<Step>, t: int)
    requires Valid(cfg) && Possible(cfg, Begin(clock), run)
    ensures var s := After(cfg, Begin(clock), run);
      && CountIn(s.sends, t - cfg.windowMs, t) <= cfg.maxResyncs
      && s.tab.totalResyncs == |s.sends|
      && (s.tab.pendingReason.Some? <==> s.tab.timer.Some?)
      && s.autoPx == (if s.tab.storm then 1 else 0)
  {
    RunKeepsInv(cfg, Begin(clock), run);
    var s := After(cfg, Begin(clock), run);
    SpacedBoundsWindow(s.sends, s.clock, cfg.maxResyncs, cfg.windowMs, t);
  }

  /** A storm is for good: nothing is sent, and pixel mode is not asked for again. */
  lemma {:induction false} StormAbsorbs(cfg: Config, s: Log, run: seq<Step>)
    requires Valid(cfg) && Inv(cfg, s) && s.tab.storm && Possible(cfg, s, run)
    ensures var t := After(cfg, s, run); t.tab.storm && t.sends == s.sends && t.autoPx == s.autoPx
    decreases |run|
  {
    if run != [] {
      StepKeepsInv(cfg, s, run[0]);
      StormAbsorbs(cfg, Apply(cfg, s, run[0]), run[1..]);
    }
  }

  lemma QueueIsWindow(cfg: Config, s: Log, at: int)
    requires Inv(cfg, s) && s.clock <= at
    ensures |Prune(s.tab.sentAt, at, cfg.windowMs)| == CountIn(s.sends, at - cfg.windowMs, at)
  {
    PruneKeepsQueue(cfg, s.sends, s.tab.sentAt, s.clock, at);
  }

  /** The three answers to a request, by the number `n` of sends in the window. */
  predicate Answers(cfg: Config, s: Log, step: Step, n: nat, t: Log)
    requires step.Ask?
  {
    && (n == 0 ==> t.sends == s.sends + [step.sentAt] && !t.tab.storm && t.tab.timer.None?)
    && (0 < n < cfg.maxResyncs ==>
          t.sends == s.sends && !t.tab.storm && t.tab.pendingReason == Some(step.reason)
          && t.tab.timer == Some(Min(cfg.backoffMaxMs, cfg.backoffBaseMs * Pow2(n - 1))))
    && (n >= cfg.maxResyncs ==> t.sends == s.sends && t.tab.storm && t.autoPx == s.autoPx + 1)
  }

  lemma RequestFollowsQueue(cfg: Config, s: Log, step: Step)
    requires Valid(cfg) && step.Ask? && !s.tab.storm && s.tab.pendingReason.None? && s.tab.timer.None?
    ensures Answers(cfg, s, step, |Prune(s.tab.sentAt, step.at, cfg.windowMs)|, Apply(cfg, s, step))
  {
    var recent := Prune(s.tab.sentAt, step.at, cfg.windowMs);
    DelayPositive(cfg, |recent|);
    if recent == [] {
      assert Prune(recent, step.prunedAt, cfg.windowMs) == [];
    }
  }

  /**
   * What a request does is a function of the sends in the window that ends now: with none it sends at
   * once, with fewer than the limit it waits the backoff of their number, and at the limit it storms.
   */
  lemma RequestFollowsWindow(cfg: Config, s: Log, step: Step)
    requires Valid(cfg) && Inv(cfg, s) && step.Ask? && Enabled(s, step)
    requires !s.tab.storm && s.tab.pendingReason.None?
    ensures Answers(cfg, s, step, CountIn(s.sends, step.at - cfg.windowMs, step.at), Apply(cfg, s, step))
  {
    QueueIsWindow(cfg, s, step.at);
    RequestFollowsQueue(cfg, s, step);
  }

  predicate Fired(cfg: Config, s: Log, sentAt: int, n: nat, t: Log) {
    && (n < cfg.maxResyncs ==> t.sends == s.sends + [sentAt] && !t.tab.storm)
    && (n >= cfg.maxResyncs ==> t.sends == s.sends && t.tab.storm)
  }

  lemma TimerFollowsQueue(cfg: Config, s: Log, prunedAt: int, sentAt: int)
    requires s.tab.pendingReason.Some? && !s.tab.storm
    ensures Fired(cfg, s, sentAt, |Prune(s.tab.sentAt, prunedAt, cfg.windowMs)|, Apply(cfg, s, Fires(prunedAt, sentAt)))
  {}

  /** A timer sends unless the limit was reached again while it waited, which only a storm follows. */
  lemma TimerSendsOrStorms(cfg: Config, s: Log, prunedAt: int, sentAt: int)
    requires Inv(cfg, s) && Enabled(s, Fires(prunedAt, sentAt))
    ensures Fired(cfg, s, sentAt, CountIn(s.sends, prunedAt - cfg.windowMs, prunedAt), Apply(cfg, s, Fires(prunedAt, sentAt)))
  {
    QueueIsWindow(cfg, s, prunedAt);
    TimerFollowsQueue(cfg, s, prunedAt, sentAt);
  }
}

module Resync {
  import opened Protocol
  import opened ResyncModel

  class ResyncController {
    const cfg: Config
    var tabs: map<TabId, TabState>
    var disposed: bool

    constructor (cfg: Config)
      ensures tabs == map[] && !disposed && this.cfg == cfg
    {
      this.cfg := cfg;
      tabs, disposed := map[], false;
    }

    function StateOf(tab: TabId): TabState
      reads this
    {
      if tab in tabs then tabs[tab] else FRESH
    }

    method PruneQueue(queue: seq<int>, at: int) returns (sentAt: seq<int>)
      ensures sentAt == Prune(queue, at, cfg.windowMs)
    {
      var cutoff := at - cfg.windowMs;
      sentAt := queue;
      while |sentAt| > 0 && sentAt[0] <= cutoff
        invariant Prune(sentAt, at, cfg.windowMs) == Prune(queue, at, cfg.windowMs)
        decreases |sentAt|
      {
        sentAt := sentAt[1..];
      }
    }

    method DispatchTab(tab: TabId, prunedAt: int, sentAt: int) returns (e: Effect)
      requires tab in tabs
      modifies this`tabs
      ensures var (t, sent) := Dispatch(cfg, disposed, old(tabs)[tab], prunedAt, sentAt);
        tabs == old(tabs)[tab := t] && e == sent
    {
      var state := tabs[tab];
      var reason := state.pendingReason;
      state := state.(timer := None, pendingReason := None);
      tabs := tabs[tab := state];
      if disposed || reason.None? || state.storm { return Nothing; }
      var queue := PruneQueue(state.sentAt, prunedAt);
      if |queue| >= cfg.maxResyncs {
        tabs := tabs[tab := Degraded(state.(sentAt := queue))];
        return AutoPx;
      }
      state := state.(sentAt := queue + [sentAt], totalResyncs := state.totalResyncs + 1, backoffMs := 0);
      tabs := tabs[tab := state];
      return Sent(reason.value);
    }

    method RequestResync(tab: TabId, reason: string, at: int, prunedAt: int, sentAt: int) returns (accepted: bool, e: Effect)
      modifies this`tabs
      ensures disposed ==> !accepted && e == Nothing && tabs == old(tabs)
      ensures !disposed ==>
        var (t, sent, ok) := Request(cfg, old(StateOf(tab)), reason, at, prunedAt, sentAt);
        tabs == old(tabs)[tab := t] && e == sent && accepted == ok
    {
      if disposed { return false, Nothing; }
      var state := StateOf(tab);
      var queue := PruneQueue(state.sentAt, at);
      state := state.(sentAt := queue);
      tabs := tabs[tab := state];
      if state.storm || state.pendingReason.Some? { return false, Nothing; }
      if |state.sentAt| >= cfg.maxResyncs {
        tabs := tabs[tab := Degraded(state)];
        return false, AutoPx;
      }
      var delayMs := if |state.sentAt| == 0 then 0 else Min(cfg.backoffMaxMs, cfg.backoffBaseMs * Pow2(|state.sentAt| - 1));
      state := state.(pendingReason := Some(reason), backoffMs := delayMs);
      tabs := tabs[tab := state];
      if delayMs == 0 {
        e := DispatchTab(tab, prunedAt, sentAt);
      } else {
        tabs := tabs[tab := state.(timer := Some(delayMs))];
        e := Nothing;
      }
      return true, e;
    }

    method RecoveredTab(tab: TabId)
      modifies this`tabs
      ensures tabs == if tab in old(tabs) then old(tabs)[tab := Recovered(old(tabs)[tab])] else old(tabs)
    {
      if tab !in tabs || tabs[tab].pendingReason.None? { return; }
      tabs := tabs[tab := tabs[tab].(timer := None, pendingReason := None, backoffMs := 0)];
    }

    method Dispose()
      modifies this
      ensures disposed && tabs == if old(disposed) then old(tabs) else map[]
    {
      if disposed { return; }
      disposed := true;
      tabs := map[];
    }
  }
}
