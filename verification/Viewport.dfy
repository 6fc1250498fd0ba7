/**
 * Viewport agreement. A driver's `view` locks input at once; the geometry is debounced, sent to the
 * browser, answered by a viewport snapshot, and only an acknowledgement of that snapshot unlocks.
 * Every `await` is two steps, and every timer is a field that says whether it is armed.
 */
module ViewportModel {
  import opened Protocol

  const MAX_VIEWPORT_DIMENSION := 10_000.0
  const MAX_DPR := 10.0

  datatype Geometry = Geometry(w: real, h: real, dpr: real)

  predicate IsInteger(x: real) {
    x.Floor as real == x
  }

  predicate IsValid(g: Geometry) {
    && IsInteger(g.w) && 0.0 < g.w <= MAX_VIEWPORT_DIMENSION
    && IsInteger(g.h) && 0.0 < g.h <= MAX_VIEWPORT_DIMENSION
    && 0.0 < g.dpr <= MAX_DPR
  }

  datatype Requested = Requested(revision: nat, requestedAt: int, geometry: Geometry)

  /** `debounce` is the armed wait; `sending` is what the suspended apply captured. */
  datatype Negotiation = Negotiation(
    desired: Requested,
    appliedRevision: nat,
    applying: bool,
    inFlight: bool,
    debounce: Option<nat>,
    retryArmed: bool,
    sending: Option<Requested>)

  datatype Gate = Gate(
    required: map<TabId, nat>,
    pending: set<TabId>,
    acked: map<ViewerId, map<TabId, nat>>)

  datatype Core = Core(gate: Gate, tabs: map<TabId, Negotiation>, nextRevision: nat, disposed: bool)

  const INITIAL := Core(Gate(map[], {}, map[]), map[], 0, false)

  // ---- The gate ----

  function GateNote(g: Gate, tab: TabId, epoch: nat): Gate {
    g.(required := g.required[tab := epoch], pending := g.pending - {tab})
  }

  predicate GateAccepts(g: Gate, tab: TabId, epoch: nat) {
    tab !in g.pending && tab in g.required && g.required[tab] == epoch
  }

  function AcksOf(g: Gate, viewer: ViewerId): map<TabId, nat> {
    if viewer in g.acked then g.acked[viewer] else map[]
  }

  function GateAcknowledge(g: Gate, viewer: ViewerId, tab: TabId, epoch: nat): Gate {
    if GateAccepts(g, tab, epoch) then g.(acked := g.acked[viewer := AcksOf(g, viewer)[tab := epoch]]) else g
  }

  predicate Allows(g: Gate, viewer: ViewerId, tab: TabId) {
    tab !in g.pending && tab in g.required
    && viewer in g.acked && tab in g.acked[viewer] && g.acked[viewer][tab] == g.required[tab]
  }

  // ---- The negotiation ----

  function Scheduled(n: Negotiation, disposed: bool, debounceMs: nat, now: int): Negotiation {
    if disposed || n.inFlight || n.applying then n
    else n.(debounce := Some(Max(0, n.desired.requestedAt + debounceMs - now)))
  }

  function HandleView(k: Core, isDriver: bool, tab: TabId, g: Geometry, debounceMs: nat, now: int): (Core, bool) {
    if k.disposed || !isDriver || !IsValid(g) then (k, false)
    else
      var desired := Requested(k.nextRevision + 1, now, g);
      var n := if tab in k.tabs then k.tabs[tab].(desired := desired)
               else Negotiation(desired, 0, false, false, None, false, None);
      (Core(k.gate.(pending := k.gate.pending + {tab}), k.tabs[tab := Scheduled(n, false, debounceMs, now)],
            k.nextRevision + 1, false), true)
  }

  function HandleAck(k: Core, viewer: ViewerId, tab: TabId, epoch: nat): (Core, bool) {
    if k.disposed then (k, false)
    else (k.(gate := GateAcknowledge(k.gate, viewer, tab, epoch)), GateAccepts(k.gate, tab, epoch))
  }

  /** The snapshot answers the request in flight, if any. */
  function Settled(n: Negotiation): Negotiation {
    if n.inFlight then n.(inFlight := false, retryArmed := false) else n
  }

  predicate Stale(n: Negotiation) {
    n.desired.revision > n.appliedRevision || n.applying
  }

  function NoteSnapshot(k: Core, tab: TabId, epoch: nat, reason: Option<SnapshotReason>, debounceMs: nat, now: int): Core {
    if reason != Some(Viewport) then k
    else if tab !in k.tabs then k.(gate := GateNote(k.gate, tab, epoch))
    else
      var n := Settled(k.tabs[tab]);
      if Stale(n) then k.(tabs := k.tabs[tab := Scheduled(n, k.disposed, debounceMs, now)])
      else k.(gate := GateNote(k.gate, tab, epoch), tabs := k.tabs[tab := n])
  }

  /** `hasTarget` says whether the tab has a session and a hub when the timer fires. */
  function DebounceFires(k: Core, tab: TabId, hasTarget: bool): Core
    requires tab in k.tabs
  {
    var n := k.tabs[tab].(debounce := None);
    k.(tabs := k.tabs[tab :=
      if k.disposed || n.inFlight || n.applying || !hasTarget then n
      else n.(applying := true, sending := Some(n.desired))])
  }

  /** The device-metrics command resolves or rejects. */
  function SendCompletes(k: Core, tab: TabId, ok: bool, debounceMs: nat, now: int): Core
    requires tab in k.tabs && k.tabs[tab].sending.Some?
  {
    var n := k.tabs[tab];
    var sent := n.sending.value;
    var settled := n.(applying := false, sending := None);
    k.(tabs := k.tabs[tab :=
      if ok && !k.disposed then settled.(appliedRevision := sent.revision, inFlight := true, retryArmed := true)
      else
        var again := if !ok && n.desired.revision == sent.revision
                     then settled.(desired := settled.desired.(requestedAt := now)) else settled;
        Scheduled(again, k.disposed, debounceMs, now)])
  }

  /** What a completed send writes to the hub it captured, before it asks that hub for a viewport snapshot. */
  function HubWrite(k: Core, tab: TabId, ok: bool): Option<Geometry>
    requires tab in k.tabs && k.tabs[tab].sending.Some?
  {
    if ok && !k.disposed then Some(k.tabs[tab].sending.value.geometry) else None
  }

  /** Whether a snapshot retry asks the hub again. */
  predicate AsksAgain(k: Core, tab: TabId)
    requires tab in k.tabs
  {
    !k.disposed && k.tabs[tab].inFlight
  }

  function RetryFires(k: Core, tab: TabId): Core
    requires tab in k.tabs
  {
    var n := k.tabs[tab].(retryArmed := false);
    k.(tabs := k.tabs[tab := if k.disposed || !n.inFlight then n else n.(retryArmed := true)])
  }

  function RemoveViewer(k: Core, viewer: ViewerId): Core {
    k.(gate := k.gate.(acked := k.gate.acked - {viewer}))
  }

  function Dispose(k: Core): Core {
    if k.disposed then k else k.(disposed := true, tabs := map[])
  }

  // ---- Runs ----

  /** What the gate was unlocked for: the epoch it requires, and the revision applied when it was noted. */
  datatype Grant = Grant(epoch: nat, revision: nat)

  /** The hub now serving a tab, and what it believes its viewport is. */
  datatype HubView = HubView(generation: nat, viewport: Option<Geometry>)

  /**
   * The agreement among its environment. `hubs` is the registry the agreement writes through;
   * `captured` is the hub the suspended apply holds on to. `grants`, `ackedAt`, `appliedOn` and
   * `stranded` are history: every unlock, the grant each viewer's last ack answered, the hub the
   * last apply wrote to, and the tabs whose last timer found no session or hub.
   */
  datatype Sys = Sys(
    core: Core,
    hubs: map<TabId, HubView>,
    captured: map<TabId, nat>,
    appliedOn: map<TabId, nat>,
    grants: map<TabId, seq<Grant>>,
    ackedAt: map<ViewerId, map<TabId, nat>>,
    stranded: set<TabId>)

  const START := Sys(INITIAL, map[], map[], map[], map[], map[], {})

  datatype Step =
    | View(isDriver: bool, tab: TabId, geometry: Geometry, now: int)
    | Ack(viewer: ViewerId, tab: TabId, epoch: nat)
    | Note(tab: TabId, epoch: nat, reason: Option<SnapshotReason>, now: int)
    | Debounced(tab: TabId, hasSession: bool)
    | Completes(tab: TabId, ok: bool, now: int)
    | Retry(tab: TabId)
    | Leaves(viewer: ViewerId)
    | ReplaceHub(tab: TabId)
    | Stop

  predicate Enabled(s: Sys, step: Step) {
    match step
    case Debounced(tab, _) => tab in s.core.tabs && s.core.tabs[tab].debounce.Some?
    case Completes(tab, _, _) => tab in s.core.tabs && s.core.tabs[tab].sending.Some?
    case Retry(tab) => tab in s.core.tabs && s.core.tabs[tab].retryArmed
    case _ => true
  }

  function GrantsOf(s: Sys, tab: TabId): seq<Grant> {
    if tab in s.grants then s.grants[tab] else []
  }

  function AckedAtOf(s: Sys, viewer: ViewerId): map<TabId, nat> {
    if viewer in s.ackedAt then s.ackedAt[viewer] else map[]
  }

  /** Whether the note unlocks the gate, with the revision it unlocks for. */
  predicate Unlocks(k: Core, tab: TabId, reason: Option<SnapshotReason>) {
    reason == Some(Viewport) && (tab in k.tabs ==> !Stale(Settled(k.tabs[tab])))
  }

  function ApplyNote(debounceMs: nat, s: Sys, tab: TabId, epoch: nat, reason: Option<SnapshotReason>, now: int): Sys {
    var revision := if tab in s.core.tabs then s.core.tabs[tab].appliedRevision else 0;
    s.(core := NoteSnapshot(s.core, tab, epoch, reason, debounceMs, now),
       stranded := if reason == Some(Viewport) then s.stranded - {tab} else s.stranded,
       grants := if Unlocks(s.core, tab, reason) then s.grants[tab := GrantsOf(s, tab) + [Grant(epoch, revision)]]
                 else s.grants)
  }

  function ApplyCompletes(debounceMs: nat, s: Sys, tab: TabId, ok: bool, now: int): Sys
    requires tab in s.core.tabs && s.core.tabs[tab].sending.Some?
  {
    var s1 := s.(core := SendCompletes(s.core, tab, ok, debounceMs, now));
    if HubWrite(s.core, tab, ok).Some? && tab in s.captured then
      s1.(appliedOn := s.appliedOn[tab := s.captured[tab]],
          hubs := if tab in s.hubs && s.hubs[tab].generation == s.captured[tab]
                  then s.hubs[tab := HubView(s.hubs[tab].generation, HubWrite(s.core, tab, ok))]
                  else s.hubs)
    else s1
  }

  function Apply(debounceMs: nat, s: Sys, step: Step): Sys
    requires Enabled(s, step)
  {
    match step
    case View(isDriver, tab, g, now) =>
      var (core, accepted) := HandleView(s.core, isDriver, tab, g, debounceMs, now);
      s.(core := core, stranded := if accepted then s.stranded - {tab} else s.stranded)
    case Ack(viewer, tab, epoch) =>
      var (core, accepted) := HandleAck(s.core, viewer, tab, epoch);
      if accepted then
        s.(core := core, ackedAt := s.ackedAt[viewer := AckedAtOf(s, viewer)[tab := |GrantsOf(s, tab)|]])
      else s.(core := core)
    case Note(tab, epoch, reason, now) => ApplyNote(debounceMs, s, tab, epoch, reason, now)
    case Debounced(tab, hasSession) =>
      var hasTarget := hasSession && tab in s.hubs;
      s.(core := DebounceFires(s.core, tab, hasTarget),
         captured := if hasTarget then s.captured[tab := s.hubs[tab].generation] else s.captured,
         stranded := if hasTarget then s.stranded else s.stranded + {tab})
    case Completes(tab, ok, now) => ApplyCompletes(debounceMs, s, tab, ok, now)
    case Retry(tab) => s.(core := RetryFires(s.core, tab))
    case Leaves(viewer) => s.(core := RemoveViewer(s.core, viewer), ackedAt := s.ackedAt - {viewer})
    case ReplaceHub(tab) =>
      s.(hubs := s.hubs[tab := HubView(if tab in s.hubs then s.hubs[tab].generation + 1 else 0, None)])
    case Stop => s.(core := Dispose(s.core))
  }

  predicate Possible(debounceMs: nat, s: Sys, run: seq<Step>)
    decreases |run|
  {
    run == [] || (Enabled(s, run[0]) && Possible(debounceMs, Apply(debounceMs, s, run[0]), run[1..]))
  }

  function After(debounceMs: nat, s: Sys, run: seq<Step>): Sys
    requires Possible(debounceMs, s, run)
    decreases |run|
  {
    if run == [] then s else After(debounceMs, Apply(debounceMs, s, run[0]), run[1..])
  }

  // ---- Invariants ----

  /** At most one of debouncing, applying and waiting for the snapshot; nothing older than what was asked. */
  predicate TabInv(n: Negotiation, nextRevision: nat) {
    && (n.applying <==> n.sending.Some?)
    && (n.applying ==> !n.inFlight && n.debounce.None? && n.appliedRevision < n.sending.value.revision <= n.desired.revision)
    && (n.inFlight <==> n.retryArmed)
    && (n.inFlight ==> n.debounce.None?)
    && (n.debounce.Some? ==> n.appliedRevision < n.desired.revision)
    && n.appliedRevision <= n.desired.revision <= nextRevision
    && (n.applying && n.sending.value.revision == n.desired.revision ==>
          n.sending.value.geometry == n.desired.geometry)
  }

  predicate Idle(n: Negotiation) {
    n.desired.revision == n.appliedRevision && !n.applying && !n.inFlight && n.debounce.None?
  }

  predicate Busy(n: Negotiation) {
    n.applying || n.debounce.Some? || (n.inFlight && n.retryArmed)
  }

  /** Everything the run knows about one tab. */
  datatype TabView = TabView(
    negotiation: Option<Negotiation>,
    required: Option<nat>,
    pending: bool,
    hub: Option<HubView>,
    captured: Option<nat>,
    appliedOn: Option<nat>,
    grants: seq<Grant>,
    stranded: bool)

  function Lookup<V>(m: map<TabId, V>, t: TabId): Option<V> {
    if t in m then Some(m[t]) else None
  }

  function TabOf(s: Sys, t: TabId): TabView {
    TabView(Lookup(s.core.tabs, t), Lookup(s.core.gate.required, t), t in s.core.gate.pending,
            Lookup(s.hubs, t), Lookup(s.captured, t), Lookup(s.appliedOn, t), GrantsOf(s, t), t in s.stranded)
  }

  /** An unlocked negotiation is idle, and the last grant was given for exactly the revision asked for. */
  predicate UnlockedInv(v: TabView) {
    && (v.required.Some? <==> v.grants != [])
    && (v.required.Some? ==> v.required.value == v.grants[|v.grants| - 1].epoch)
    && (v.negotiation.Some? && !v.pending ==>
          && Idle(v.negotiation.value)
          && v.required.Some?
          && v.grants[|v.grants| - 1].revision == v.negotiation.value.desired.revision)
  }

  /** The hub that took the last geometry shows it; a hub that replaced it shows none. */
  predicate HubInv(v: TabView) {
    && (v.appliedOn.Some? ==> v.hub.Some? && v.appliedOn.value <= v.hub.value.generation)
    && (v.hub.Some? && (v.appliedOn.None? || v.appliedOn.value != v.hub.value.generation) ==>
          v.hub.value.viewport.None?)
    && (v.negotiation.Some? ==>
          var n := v.negotiation.value;
          && (n.applying ==>
                v.captured.Some? && v.hub.Some? && v.captured.value <= v.hub.value.generation
                && (v.appliedOn.Some? ==> v.appliedOn.value <= v.captured.value))
          && (n.appliedRevision == n.desired.revision ==>
                v.appliedOn.Some?
                && (v.appliedOn.value == v.hub.value.generation ==>
                      v.hub.value.viewport == Some(n.desired.geometry))))
  }

  predicate ViewInv(v: TabView, nextRevision: nat, disposed: bool) {
    && (v.negotiation.Some? ==> !disposed && v.negotiation.value.desired.revision >= 1
                                && TabInv(v.negotiation.value, nextRevision))
    && UnlockedInv(v) && HubInv(v)
    && (!disposed && v.pending ==> v.negotiation.Some? && (Busy(v.negotiation.value) || v.stranded))
    && (!disposed && v.stranded ==> v.negotiation.Some? && v.pending && !Busy(v.negotiation.value))
  }

  /** An acknowledgement on record names the grant it answered. */
  predicate AckInv(s: Sys, viewer: ViewerId, t: TabId) {
    t in AcksOf(s.core.gate, viewer) ==>
      t in AckedAtOf(s, viewer)
      && 1 <= AckedAtOf(s, viewer)[t] <= |GrantsOf(s, t)|
      && GrantsOf(s, t)[AckedAtOf(s, viewer)[t] - 1].epoch == AcksOf(s.core.gate, viewer)[t]
  }

  ghost predicate Inv(s: Sys) {
    && (forall t :: ViewInv(TabOf(s, t), s.core.nextRevision, s.core.disposed))
    && (forall viewer, t :: AckInv(s, viewer, t))
  }

  // ---- Steps, seen from one tab ----

  lemma ViewTab(d: nat, s: Sys, isDriver: bool, tab: TabId, g: Geometry, now: int)
    requires ViewInv(TabOf(s, tab), s.core.nextRevision, s.core.disposed)
    ensures var t := Apply(d, s, View(isDriver, tab, g, now));
      ViewInv(TabOf(t, tab), t.core.nextRevision, t.core.disposed)
  {}

  function NoteView(v: TabView, epoch: nat, reason: Option<SnapshotReason>, disposed: bool, d: nat, now: int): TabView {
    if reason != Some(Viewport) then v
    else if v.negotiation.None? then
      v.(required := Some(epoch), pending := false, stranded := false, grants := v.grants + [Grant(epoch, 0)])
    else
      var n := Settled(v.negotiation.value);
      if Stale(n) then v.(negotiation := Some(Scheduled(n, disposed, d, now)), stranded := false)
      else v.(negotiation := Some(n), required := Some(epoch), pending := false, stranded := false,
              grants := v.grants + [Grant(epoch, n.appliedRevision)])
  }

  lemma NoteProjects(d: nat, s: Sys, tab: TabId, epoch: nat, reason: Option<SnapshotReason>, now: int)
    ensures TabOf(ApplyNote(d, s, tab, epoch, reason, now), tab)
         == NoteView(TabOf(s, tab), epoch, reason, s.core.disposed, d, now)
  {
    var t := NoteSnapshot(s.core, tab, epoch, reason, d, now);
    if reason == Some(Viewport) && tab in s.core.tabs {
      var n := Settled(s.core.tabs[tab]);
      if Stale(n) {
        assert t.tabs[tab] == Scheduled(n, s.core.disposed, d, now);
      } else {
        assert t.tabs[tab] == n;
      }
    }
  }

  lemma NoteViewKeepsInv(v: TabView, epoch: nat, reason: Option<SnapshotReason>, next: nat, disposed: bool, d: nat, now: int)
    requires ViewInv(v, next, disposed)
    ensures ViewInv(NoteView(v, epoch, reason, disposed, d, now), next, disposed)
  {}

  lemma NoteTab(d: nat, s: Sys, tab: TabId, epoch: nat, reason: Option<SnapshotReason>, now: int)
    requires ViewInv(TabOf(s, tab), s.core.nextRevision, s.core.disposed)
    ensures var t := Apply(d, s, Note(tab, epoch, reason, now));
      ViewInv(TabOf(t, tab), t.core.nextRevision, t.core.disposed)
  {
    NoteProjects(d, s, tab, epoch, reason, now);
    NoteViewKeepsInv(TabOf(s, tab), epoch, reason, s.core.nextRevision, s.core.disposed, d, now);
  }

  lemma DebounceTab(d: nat, s: Sys, tab: TabId, hasSession: bool)
    requires ViewInv(TabOf(s, tab), s.core.nextRevision, s.core.disposed)
    requires Enabled(s, Debounced(tab, hasSession))
    ensures var t := Apply(d, s, Debounced(tab, hasSession));
      ViewInv(TabOf(t, tab), t.core.nextRevision, t.core.disposed)
  {}

  lemma CompleteTab(d: nat, s: Sys, tab: TabId, ok: bool, now: int)
    requires ViewInv(TabOf(s, tab), s.core.nextRevision, s.core.disposed)
    requires Enabled(s, Completes(tab, ok, now))
    ensures var t := Apply(d, s, Completes(tab, ok, now));
      ViewInv(TabOf(t, tab), t.core.nextRevision, t.core.disposed)
  {}

  function TabTouched(step: Step): Option<TabId> {
    match step
    case View(_, tab, _, _) => Some(tab)
    case Note(tab, _, _, _) => Some(tab)
    case Debounced(tab, _) => Some(tab)
    case Completes(tab, _, _) => Some(tab)
    case Retry(tab) => Some(tab)
    case ReplaceHub(tab) => Some(tab)
    case _ => None
  }

  lemma OtherTabsNote(d: nat, s: Sys, tab: TabId, epoch: nat, reason: Option<SnapshotReason>, now: int, t: TabId)
    requires t != tab
    ensures var u := ApplyNote(d, s, tab, epoch, reason, now);
      TabOf(u, t) == TabOf(s, t)
      && u.core.nextRevision == s.core.nextRevision && u.core.disposed == s.core.disposed
  {
    var k := NoteSnapshot(s.core, tab, epoch, reason, d, now);
    assert Lookup(k.tabs, t) == Lookup(s.core.tabs, t);
    assert Lookup(k.gate.required, t) == Lookup(s.core.gate.required, t);
  }

  lemma OtherTabsCompletes(d: nat, s: Sys, tab: TabId, ok: bool, now: int, t: TabId)
    requires t != tab && tab in s.core.tabs && s.core.tabs[tab].sending.Some?
    ensures var u := ApplyCompletes(d, s, tab, ok, now);
      TabOf(u, t) == TabOf(s, t)
      && u.core.nextRevision == s.core.nextRevision && u.core.disposed == s.core.disposed
  {}

  lemma OtherTabsTimers(d: nat, s: Sys, step: Step, t: TabId)
    requires step.Debounced? || step.Retry? || step.ReplaceHub? || step.Leaves? || step.Ack?
    requires Enabled(s, step) && TabTouched(step) != Some(t)
    ensures var u := Apply(d, s, step);
      TabOf(u, t) == TabOf(s, t)
      && u.core.nextRevision == s.core.nextRevision && u.core.disposed == s.core.disposed
  {}

  lemma OtherTabs(d: nat, s: Sys, step: Step, t: TabId)
    requires Enabled(s, step) && !step.Stop? && TabTouched(step) != Some(t)
    ensures TabOf(Apply(d, s, step), t) == TabOf(s, t)
    ensures Apply(d, s, step).core.nextRevision >= s.core.nextRevision
    ensures Apply(d, s, step).core.disposed == s.core.disposed
  {
    if step.Note? {
      OtherTabsNote(d, s, step.tab, step.epoch, step.reason, step.now, t);
    } else if step.Completes? {
      OtherTabsCompletes(d, s, step.tab, step.ok, step.now, t);
    } else if !step.View? {
      OtherTabsTimers(d, s, step, t);
    }
  }

  lemma StepTab(d: nat, s: Sys, step: Step, t: TabId)
    requires Enabled(s, step) && ViewInv(TabOf(s, t), s.core.nextRevision, s.core.disposed)
    ensures var u := Apply(d, s, step);
      ViewInv(TabOf(u, t), u.core.nextRevision, u.core.disposed)
  {
    if !step.Stop? && TabTouched(step) != Some(t) {
      OtherTabs(d, s, step, t);
    } else {
      match step
      case View(isDriver, tab, g, now) => ViewTab(d, s, isDriver, tab, g, now);
      case Note(tab, epoch, reason, now) => NoteTab(d, s, tab, epoch, reason, now);
      case Debounced(tab, hasSession) => DebounceTab(d, s, tab, hasSession);
      case Completes(tab, ok, now) => CompleteTab(d, s, tab, ok, now);
      case _ =>
    }
  }

  lemma AckAck(s: Sys, d: nat, who: ViewerId, tab: TabId, epoch: nat, viewer: ViewerId, t: TabId)
    requires AckInv(s, viewer, t) && UnlockedInv(TabOf(s, t))
    ensures AckInv(Apply(d, s, Ack(who, tab, epoch)), viewer, t)
  {}

  /** Acks on record move only with acks and leavers; grants only grow. */
  lemma AcksStay(d: nat, s: Sys, step: Step, viewer: ViewerId, t: TabId)
    requires Enabled(s, step) && !step.Ack? && !step.Leaves?
    ensures var u := Apply(d, s, step);
      AcksOf(u.core.gate, viewer) == AcksOf(s.core.gate, viewer) && AckedAtOf(u, viewer) == AckedAtOf(s, viewer)
      && GrantsOf(s, t) <= GrantsOf(u, t)
  {
    match step
    case Note(tab, epoch, reason, now) => AcksStayOnNote(d, s, tab, epoch, reason, now, viewer, t);
    case Completes(tab, ok, now) => assert Apply(d, s, step).core.gate == s.core.gate;
    case _ =>
  }

  lemma AcksStayOnNote(d: nat, s: Sys, tab: TabId, epoch: nat, reason: Option<SnapshotReason>, now: int,
                       viewer: ViewerId, t: TabId)
    ensures var u := ApplyNote(d, s, tab, epoch, reason, now);
      AcksOf(u.core.gate, viewer) == AcksOf(s.core.gate, viewer) && AckedAtOf(u, viewer) == AckedAtOf(s, viewer)
      && GrantsOf(s, t) <= GrantsOf(u, t)
  {
    var u := ApplyNote(d, s, tab, epoch, reason, now);
    assert u.core.gate.acked == s.core.gate.acked;
    assert GrantsOf(u, t) == GrantsOf(s, t) || exists g :: GrantsOf(u, t) == GrantsOf(s, t) + [g];
  }

  lemma StepAck(d: nat, s: Sys, step: Step, viewer: ViewerId, t: TabId)
    requires Enabled(s, step) && AckInv(s, viewer, t)
    requires UnlockedInv(TabOf(s, t))
    ensures AckInv(Apply(d, s, step), viewer, t)
  {
    if step.Ack? {
      AckAck(s, d, step.viewer, step.tab, step.epoch, viewer, t);
    } else if step.Leaves? {
      assert viewer != step.viewer ==> AcksOf(Apply(d, s, step).core.gate, viewer) == AcksOf(s.core.gate, viewer);
    } else {
      AcksStay(d, s, step, viewer, t);
    }
  }

  lemma StepKeepsInv(d: nat, s: Sys, step: Step)
    requires Inv(s) && Enabled(s, step)
    ensures Inv(Apply(d, s, step))
  {
    var u := Apply(d, s, step);
    forall t
      ensures ViewInv(TabOf(u, t), u.core.nextRevision, u.core.disposed)
    {
      StepTab(d, s, step, t);
    }
    forall viewer, t
      ensures AckInv(u, viewer, t)
    {
      assert ViewInv(TabOf(s, t), s.core.nextRevision, s.core.disposed);
      StepAck(d, s, step, viewer, t);
    }
  }

  lemma {:induction false} RunKeepsInv(d: nat, s: Sys, run: seq<Step>)
    requires Inv(s) && Possible(d, s, run)
    ensures Inv(After(d, s, run))
    decreases |run|
  {
    if run == [] {
    } else {
      StepKeepsInv(d, s, run[0]);
      RunKeepsInv(d, Apply(d, s, run[0]), run[1..]);
    }
  }

  lemma {:induction false} ReachableInv(d: nat, run: seq<Step>, tab: TabId)
    requires Possible(d, START, run)
    ensures var s := After(d, START, run); Inv(s) && ViewInv(TabOf(s, tab), s.core.nextRevision, s.core.disposed)
  {
    RunKeepsInv(d, START, run);
  }

  // ---- Safety ----

  /**
   * Input allowed on a negotiated tab: nothing newer is outstanding, the gate was last unlocked for
   * exactly the geometry asked for, and the hub shows it unless the hub itself was replaced since.
   */
  lemma SafeToInput(d: nat, run: seq<Step>, viewer: ViewerId, tab: TabId)
    requires Possible(d, START, run)
    requires Allows(After(d, START, run).core.gate, viewer, tab) && tab in After(d, START, run).core.tabs
    ensures var s := After(d, START, run); var n := s.core.tabs[tab];
      && n.desired.revision == n.appliedRevision && !n.applying && !n.inFlight && n.debounce.None?
      && GrantsOf(s, tab) != []
      && GrantsOf(s, tab)[|GrantsOf(s, tab)| - 1] == Grant(s.core.gate.required[tab], n.desired.revision)
    ensures var s := After(d, START, run); var n := s.core.tabs[tab];
      && tab in s.hubs && tab in s.appliedOn
      && (s.hubs[tab].viewport == Some(n.desired.geometry) <==> s.hubs[tab].generation == s.appliedOn[tab])
  {
    ReachableInv(d, run, tab);
  }

  /** The viewers that may type right after an unlock: exactly those who still hold an ack of its epoch. */
  lemma UnlockAdmitsHolders(d: nat, s: Sys, tab: TabId, epoch: nat, now: int, viewer: ViewerId)
    requires Unlocks(s.core, tab, Some(Viewport))
    ensures Allows(Apply(d, s, Note(tab, epoch, Some(Viewport), now)).core.gate, viewer, tab)
       <==> tab in AcksOf(s.core.gate, viewer) && AcksOf(s.core.gate, viewer)[tab] == epoch
  {
    var t := NoteSnapshot(s.core, tab, epoch, Some(Viewport), d, now);
    assert t.gate == GateNote(s.core.gate, tab, epoch);
  }

  predicate Holds(s: Sys, viewer: ViewerId, tab: TabId, epoch: nat) {
    tab in AcksOf(s.core.gate, viewer) && AcksOf(s.core.gate, viewer)[tab] == epoch
  }

  /** An unlock whose epoch some viewer already holds an ack of. */
  predicate ReusesHeldEpoch(s: Sys, step: Step) {
    && step.Note? && Unlocks(s.core, step.tab, step.reason)
    && exists viewer :: viewer in s.core.gate.acked && Holds(s, viewer, step.tab, step.epoch)
  }

  predicate NeverReusesHeldEpoch(d: nat, s: Sys, run: seq<Step>)
    requires Possible(d, s, run)
    decreases |run|
  {
    run != [] ==> !ReusesHeldEpoch(s, run[0]) && NeverReusesHeldEpoch(d, Apply(d, s, run[0]), run[1..])
  }

  /** Whoever may type answered the latest unlock of the tab. */
  ghost predicate Answered(s: Sys) {
    forall viewer, t :: Allows(s.core.gate, viewer, t) ==>
      t in AckedAtOf(s, viewer) && AckedAtOf(s, viewer)[t] == |GrantsOf(s, t)|
  }

  ghost predicate AlwaysAnswered(d: nat, s: Sys, run: seq<Step>)
    requires Possible(d, s, run)
    decreases |run|
  {
    Answered(s) && (run != [] ==> AlwaysAnswered(d, Apply(d, s, run[0]), run[1..]))
  }

  /** Locked or not, an ack of the required epoch was given for the latest unlock. */
  predicate AnsweredAt(s: Sys, viewer: ViewerId, t: TabId) {
    t in s.core.gate.required && Holds(s, viewer, t, s.core.gate.required[t]) ==>
      t in AckedAtOf(s, viewer) && AckedAtOf(s, viewer)[t] == |GrantsOf(s, t)|
  }

  lemma StepKeepsAnswered(d: nat, s: Sys, step: Step, viewer: ViewerId, t: TabId)
    requires Enabled(s, step) && AnsweredAt(s, viewer, t) && !ReusesHeldEpoch(s, step)
    ensures AnsweredAt(Apply(d, s, step), viewer, t)
  {
    if step.Note? {
      NoteKeepsAnswered(d, s, step.tab, step.epoch, step.reason, step.now, viewer, t);
    } else if step.Completes? {
      assert Apply(d, s, step).core.gate == s.core.gate;
    }
  }

  lemma NoteKeepsAnswered(d: nat, s: Sys, tab: TabId, epoch: nat, reason: Option<SnapshotReason>, now: int,
                          viewer: ViewerId, t: TabId)
    requires AnsweredAt(s, viewer, t) && !ReusesHeldEpoch(s, Note(tab, epoch, reason, now))
    ensures AnsweredAt(ApplyNote(d, s, tab, epoch, reason, now), viewer, t)
  {
    var u := ApplyNote(d, s, tab, epoch, reason, now);
    assert u.core.gate.acked == s.core.gate.acked && u.ackedAt == s.ackedAt;
    if Unlocks(s.core, tab, reason) {
      assert u.core.gate == GateNote(s.core.gate, tab, epoch);
      assert Holds(s, viewer, tab, epoch) ==> viewer in s.core.gate.acked;
    } else {
      assert u.core.gate.required == s.core.gate.required && u.grants == s.grants;
    }
  }

  lemma {:induction false} NeverReusedIsAnswered(d: nat, s: Sys, run: seq<Step>)
    requires Possible(d, s, run) && NeverReusesHeldEpoch(d, s, run)
    requires forall viewer, t :: AnsweredAt(s, viewer, t)
    ensures AlwaysAnswered(d, s, run)
    decreases |run|
  {
    assert Answered(s) by {
      forall viewer, t | Allows(s.core.gate, viewer, t)
        ensures t in AckedAtOf(s, viewer) && AckedAtOf(s, viewer)[t] == |GrantsOf(s, t)|
      {
        assert AnsweredAt(s, viewer, t);
      }
    }
    if run != [] {
      var u := Apply(d, s, run[0]);
      forall viewer, t
        ensures AnsweredAt(u, viewer, t)
      {
        StepKeepsAnswered(d, s, run[0], viewer, t);
      }
      NeverReusedIsAnswered(d, u, run[1..]);
    }
  }

  /** A holder of the reused epoch may type at once, on the strength of an answer to an earlier unlock. */
  lemma ReusedEpochIsUnanswered(d: nat, s: Sys, step: Step)
    requires Inv(s) && Enabled(s, step) && ReusesHeldEpoch(s, step)
    ensures !Answered(Apply(d, s, step))
  {
    var viewer :| viewer in s.core.gate.acked && Holds(s, viewer, step.tab, step.epoch);
    UnlockAdmitsHolders(d, s, step.tab, step.epoch, step.now, viewer);
    assert AckInv(s, viewer, step.tab);
    var u := Apply(d, s, step);
    assert u.ackedAt == s.ackedAt;
    assert |GrantsOf(u, step.tab)| == |GrantsOf(s, step.tab)| + 1;
    assert Allows(u.core.gate, viewer, step.tab);
  }

  lemma {:induction false} AnsweredNeverReuses(d: nat, s: Sys, run: seq<Step>)
    requires Inv(s) && Possible(d, s, run) && AlwaysAnswered(d, s, run)
    ensures NeverReusesHeldEpoch(d, s, run)
    decreases |run|
  {
    if run != [] {
      if ReusesHeldEpoch(s, run[0]) {
        ReusedEpochIsUnanswered(d, s, run[0]);
        assert false;
      }
      StepKeepsInv(d, s, run[0]);
      AnsweredNeverReuses(d, Apply(d, s, run[0]), run[1..]);
    }
  }

  /**
   * Over every run: at each moment whoever may type answered the latest unlock, if and only if no unlock
   * carries an epoch that some viewer still holds an ack of for that tab.
   */
  lemma AllowedAnsweredTheLastUnlock(d: nat, run: seq<Step>)
    requires Possible(d, START, run)
    ensures AlwaysAnswered(d, START, run) <==> NeverReusesHeldEpoch(d, START, run)
  {
    if NeverReusesHeldEpoch(d, START, run) {
      NeverReusedIsAnswered(d, START, run);
    }
    if AlwaysAnswered(d, START, run) {
      AnsweredNeverReuses(d, START, run);
    }
  }

  /** Whatever was reused before, an unlock with an epoch unlike all earlier ones of its tab admits only who answered it. */
  lemma LastEpochUnusedIsAnswered(d: nat, run: seq<Step>, viewer: ViewerId, tab: TabId)
    requires Possible(d, START, run)
    requires Allows(After(d, START, run).core.gate, viewer, tab)
    requires var grants := GrantsOf(After(d, START, run), tab);
      forall i :: 0 <= i < |grants| - 1 ==> grants[i].epoch != grants[|grants| - 1].epoch
    ensures var s := After(d, START, run);
      tab in AckedAtOf(s, viewer) && AckedAtOf(s, viewer)[tab] == |GrantsOf(s, tab)|
  {
    ReachableInv(d, run, tab);
    var s := After(d, START, run);
    assert AckInv(s, viewer, tab);
  }

  lemma Unfolds(d: nat, s: Sys, step: Step, rest: seq<Step>)
    requires Enabled(s, step) && Possible(d, Apply(d, s, step), rest)
    ensures Possible(d, s, [step] + rest)
    ensures After(d, s, [step] + rest) == After(d, Apply(d, s, step), rest)
  {
    var run := [step] + rest;
    assert run[0] == step && run[1..] == rest;
  }

  /** One negotiation from request to unlock, without the acknowledgement. */
  function Round(tab: TabId, g: Geometry, epoch: nat): seq<Step> {
    [View(true, tab, g, 0)] + ([Debounced(tab, true)] + ([Completes(tab, true, 0)] +
      ([Note(tab, epoch, Some(Viewport), 0)] + [])))
  }

  function RoundNegotiation(s: Sys, g: Geometry): Negotiation {
    var revision := s.core.nextRevision + 1;
    Negotiation(Requested(revision, 0, g), revision, false, false, None, false, None)
  }

  predicate RoundCanStart(s: Sys, tab: TabId) {
    && !s.core.disposed && tab in s.hubs
    && (tab in s.core.tabs ==>
          Idle(s.core.tabs[tab]) && s.core.tabs[tab].sending.None? && !s.core.tabs[tab].retryArmed
          && s.core.tabs[tab].appliedRevision <= s.core.nextRevision)
  }

  function RoundSent(d: nat, s: Sys, tab: TabId, g: Geometry): Sys
    requires RoundCanStart(s, tab) && IsValid(g)
  {
    Apply(d, Apply(d, s, View(true, tab, g, 0)), Debounced(tab, true))
  }

  lemma RoundSends(d: nat, s: Sys, tab: TabId, g: Geometry)
    requires RoundCanStart(s, tab) && IsValid(g)
    ensures var t := RoundSent(d, s, tab, g); var r := Requested(s.core.nextRevision + 1, 0, g);
      && tab in t.core.tabs && t.core.tabs[tab].desired == r && t.core.tabs[tab].sending == Some(r)
      && t.core.tabs[tab].applying && !t.core.tabs[tab].inFlight && !t.core.tabs[tab].retryArmed
      && t.core.tabs[tab].debounce.None?
      && t.core.tabs == s.core.tabs[tab := t.core.tabs[tab]]
      && t.core.gate == s.core.gate.(pending := s.core.gate.pending + {tab})
      && !t.core.disposed && t.core.nextRevision == s.core.nextRevision + 1
      && t.hubs == s.hubs && tab in t.captured && t.captured[tab] == s.hubs[tab].generation
      && t.grants == s.grants && t.ackedAt == s.ackedAt
  {}

  /** A round run on an idle or new tab unlocks it for the geometry of that round. */
  lemma RoundUnlocks(d: nat, s: Sys, tab: TabId, g: Geometry, epoch: nat)
    requires RoundCanStart(s, tab) && IsValid(g)
    ensures Possible(d, s, Round(tab, g, epoch))
    ensures var t := After(d, s, Round(tab, g, epoch));
      && !t.core.disposed && t.core.gate == GateNote(s.core.gate, tab, epoch)
      && t.ackedAt == s.ackedAt
      && t.core.nextRevision == s.core.nextRevision + 1
      && t.core.tabs == s.core.tabs[tab := RoundNegotiation(s, g)]
      && t.hubs == s.hubs[tab := HubView(s.hubs[tab].generation, Some(g))]
      && GrantsOf(t, tab) == GrantsOf(s, tab) + [Grant(epoch, s.core.nextRevision + 1)]
  {
    RoundSends(d, s, tab, g);
    var s1 := Apply(d, s, View(true, tab, g, 0));
    var s2 := RoundSent(d, s, tab, g);
    var note := Note(tab, epoch, Some(Viewport), 0);
    RoundFinishes(d, s2, tab, epoch);
    Unfolds(d, s1, Debounced(tab, true), [Completes(tab, true, 0)] + ([note] + []));
    Unfolds(d, s, View(true, tab, g, 0), [Debounced(tab, true)] + ([Completes(tab, true, 0)] + ([note] + [])));
  }

  lemma RoundFinishes(d: nat, s: Sys, tab: TabId, epoch: nat)
    requires !s.core.disposed && tab in s.core.tabs && tab in s.hubs
    requires tab in s.captured && s.captured[tab] == s.hubs[tab].generation
    requires s.core.tabs[tab].applying && s.core.tabs[tab].sending == Some(s.core.tabs[tab].desired)
    requires s.core.tabs[tab].debounce.None?
    ensures var run := [Completes(tab, true, 0)] + ([Note(tab, epoch, Some(Viewport), 0)] + []);
      Possible(d, s, run)
      && var t := After(d, s, run); var r := s.core.tabs[tab].desired;
      && !t.core.disposed && t.core.gate == GateNote(s.core.gate, tab, epoch)
      && t.ackedAt == s.ackedAt && t.core.nextRevision == s.core.nextRevision
      && t.core.tabs == s.core.tabs[tab := Negotiation(r, r.revision, false, false, None, false, None)]
      && t.hubs == s.hubs[tab := HubView(s.hubs[tab].generation, Some(r.geometry))]
      && GrantsOf(t, tab) == GrantsOf(s, tab) + [Grant(epoch, r.revision)]
  {
    var s3 := Apply(d, s, Completes(tab, true, 0));
    var note := Note(tab, epoch, Some(Viewport), 0);
    Unfolds(d, s3, note, []);
    Unfolds(d, s, Completes(tab, true, 0), [note] + []);
  }

  // ---- No wedge ----

  /** Every timer that fires in the run finds a session and a hub. */
  predicate Served(d: nat, s: Sys, run: seq<Step>)
    requires Possible(d, s, run)
    decreases |run|
  {
    run != [] ==>
      && (run[0].Debounced? ==> run[0].hasSession && run[0].tab in s.hubs)
      && Served(d, Apply(d, s, run[0]), run[1..])
  }

  lemma {:induction false} ServedNeverStrands(d: nat, s: Sys, run: seq<Step>)
    requires Possible(d, s, run) && Served(d, s, run) && s.stranded == {}
    ensures After(d, s, run).stranded == {}
    decreases |run|
  {
    if run != [] {
      ServedNeverStrands(d, Apply(d, s, run[0]), run[1..]);
    }
  }

  /** A locked tab is at work exactly when its last timer found a session and a hub. */
  lemma LockedTabIsBusy(d: nat, run: seq<Step>, tab: TabId)
    requires Possible(d, START, run)
    requires !After(d, START, run).core.disposed && tab in After(d, START, run).core.gate.pending
    ensures var s := After(d, START, run);
      tab in s.core.tabs && (Busy(s.core.tabs[tab]) <==> tab !in s.stranded)
    ensures Served(d, START, run) ==> Busy(After(d, START, run).core.tabs[tab])
  {
    ReachableInv(d, run, tab);
    if Served(d, START, run) {
      ServedNeverStrands(d, START, run);
    }
  }

  /** The code arms nothing after such a timer: the tab stays locked until a new view or a viewport snapshot. */
  lemma StrandedStaysLocked(d: nat, s: Sys, step: Step, tab: TabId)
    requires Enabled(s, step) && ViewInv(TabOf(s, tab), s.core.nextRevision, s.core.disposed)
    requires !s.core.disposed && tab in s.stranded
    requires !step.Stop?
    requires !(step.View? && step.tab == tab && step.isDriver && IsValid(step.geometry))
    requires !(step.Note? && step.tab == tab && step.reason == Some(Viewport))
    ensures var t := Apply(d, s, step);
      tab in t.stranded && tab in t.core.gate.pending && tab in t.core.tabs && !Busy(t.core.tabs[tab])
  {
    if TabTouched(step) != Some(tab) {
      OtherTabs(d, s, step, tab);
      assert TabOf(s, tab).stranded && TabOf(s, tab).pending;
    }
  }

  /** The step that takes a busy tab forward. */
  function Helpful(n: Negotiation, tab: TabId, epoch: nat, now: int): Step {
    if n.applying then Completes(tab, true, now)
    else if n.debounce.Some? then Debounced(tab, true)
    else Note(tab, epoch, Some(Viewport), now)
  }

  function Rank(n: Negotiation): nat {
    if n.applying then (if n.sending.Some? && n.sending.value.revision == n.desired.revision then 2 else 5)
    else if n.debounce.Some? then 3
    else if Stale(n) then 4
    else 1
  }

  lemma HelpfulHelps(d: nat, s: Sys, tab: TabId, epoch: nat, now: int)
    requires Inv(s) && !s.core.disposed && tab in s.core.gate.pending && tab in s.hubs && tab !in s.stranded
    ensures tab in s.core.tabs && Enabled(s, Helpful(s.core.tabs[tab], tab, epoch, now))
    ensures var t := Apply(d, s, Helpful(s.core.tabs[tab], tab, epoch, now));
      && !t.core.disposed && tab in t.hubs && tab !in t.stranded
      && (tab in t.core.gate.pending ==> tab in t.core.tabs && Rank(t.core.tabs[tab]) < Rank(s.core.tabs[tab]))
      && (tab !in t.core.gate.pending ==> tab in t.core.gate.required && t.core.gate.required[tab] == epoch)
      && (tab in t.core.tabs && t.core.tabs[tab].desired == s.core.tabs[tab].desired)
  {
    assert ViewInv(TabOf(s, tab), s.core.nextRevision, s.core.disposed);
  }

  /** From any reachable locked tab that is not stranded, at most five served steps unlock the geometry asked for. */
  lemma {:induction false} LockOpens(d: nat, s: Sys, tab: TabId, epoch: nat, now: int) returns (run: seq<Step>)
    requires Inv(s) && !s.core.disposed && tab in s.core.gate.pending && tab in s.hubs && tab !in s.stranded
    ensures tab in s.core.tabs && |run| <= Rank(s.core.tabs[tab]) <= 5
    ensures Possible(d, s, run)
    ensures var t := After(d, s, run);
      && tab !in t.core.gate.pending && tab in t.core.gate.required && t.core.gate.required[tab] == epoch
      && tab in t.core.tabs && t.core.tabs[tab].desired == s.core.tabs[tab].desired
    decreases Lookup(s.core.tabs, tab).Some?, if tab in s.core.tabs then Rank(s.core.tabs[tab]) else 0
  {
    HelpfulHelps(d, s, tab, epoch, now);
    var step := Helpful(s.core.tabs[tab], tab, epoch, now);
    var t := Apply(d, s, step);
    StepKeepsInv(d, s, step);
    var rest: seq<Step> := [];
    if tab in t.core.gate.pending {
      rest := LockOpens(d, t, tab, epoch, now);
    }
    Unfolds(d, s, step, rest);
    run := [step] + rest;
  }

  // ---- What the code does not promise ----

  const SMALL := Geometry(800.0, 600.0, 1.0)
  const LARGE := Geometry(1600.0, 900.0, 1.0)

  /** A hub replaced under an unlocked tab has no viewport, and input stays allowed. */
  lemma InputAllowedOnReplacedHub(d: nat, viewer: ViewerId, tab: TabId) returns (run: seq<Step>)
    ensures Possible(d, START, run)
    ensures var s := After(d, START, run);
      Allows(s.core.gate, viewer, tab) && tab in s.core.tabs && tab in s.hubs && s.hubs[tab].viewport == None
  {
    var s0 := Apply(d, START, ReplaceHub(tab));
    RoundUnlocks(d, s0, tab, SMALL, 1);
    var s1 := After(d, s0, Round(tab, SMALL, 1));
    var s2 := Apply(d, s1, Ack(viewer, tab, 1));
    var tail := [ReplaceHub(tab)] + [];
    Unfolds(d, s2, ReplaceHub(tab), []);
    Unfolds(d, s1, Ack(viewer, tab, 1), tail);
    RunsCompose(d, s0, Round(tab, SMALL, 1), [Ack(viewer, tab, 1)] + tail);
    Unfolds(d, START, ReplaceHub(tab), Round(tab, SMALL, 1) + ([Ack(viewer, tab, 1)] + tail));
    run := [ReplaceHub(tab)] + (Round(tab, SMALL, 1) + ([Ack(viewer, tab, 1)] + tail));
  }

  lemma {:induction false} RunsCompose(d: nat, s: Sys, first: seq<Step>, second: seq<Step>)
    requires Possible(d, s, first) && Possible(d, After(d, s, first), second)
    ensures Possible(d, s, first + second)
    ensures After(d, s, first + second) == After(d, After(d, s, first), second)
    decreases |first|
  {
    if first == [] {
      assert first + second == second;
    } else {
      RunsCompose(d, Apply(d, s, first[0]), first[1..], second);
      assert (first + second)[1..] == first[1..] + second && (first + second)[0] == first[0];
    }
  }

  /** A replacement hub starts its epochs again, so an old ack can open a lock it never answered. */
  lemma ReusedEpochUnlocksWithoutAck(d: nat, viewer: ViewerId, tab: TabId) returns (run: seq<Step>)
    ensures Possible(d, START, run)
    ensures var s := After(d, START, run);
      && Allows(s.core.gate, viewer, tab) && tab in AckedAtOf(s, viewer)
      && AckedAtOf(s, viewer)[tab] < |GrantsOf(s, tab)|
      && tab in s.core.tabs && s.core.tabs[tab].desired.geometry == LARGE
  {
    var s0 := Apply(d, START, ReplaceHub(tab));
    RoundUnlocks(d, s0, tab, SMALL, 1);
    var s1 := After(d, s0, Round(tab, SMALL, 1));
    var s2 := Apply(d, s1, Ack(viewer, tab, 1));
    var s3 := Apply(d, s2, ReplaceHub(tab));
    RoundUnlocks(d, s3, tab, LARGE, 1);
    Unfolds(d, s2, ReplaceHub(tab), Round(tab, LARGE, 1));
    var tail := [ReplaceHub(tab)] + Round(tab, LARGE, 1);
    Unfolds(d, s1, Ack(viewer, tab, 1), tail);
    RunsCompose(d, s0, Round(tab, SMALL, 1), [Ack(viewer, tab, 1)] + tail);
    Unfolds(d, START, ReplaceHub(tab), Round(tab, SMALL, 1) + ([Ack(viewer, tab, 1)] + tail));
    run := [ReplaceHub(tab)] + (Round(tab, SMALL, 1) + ([Ack(viewer, tab, 1)] + tail));
  }
}

module Viewport {
  import opened Protocol
  import opened ViewportModel

  class ViewportInputGate {
    var requiredEpochs: map<TabId, nat>
    var pendingTabs: set<TabId>
    var acknowledgedEpochs: map<ViewerId, map<TabId, nat>>

    ghost function View(): Gate
      reads this
    {
      Gate(requiredEpochs, pendingTabs, acknowledgedEpochs)
    }

    constructor ()
      ensures View() == INITIAL.gate
    {
      requiredEpochs, pendingTabs, acknowledgedEpochs := map[], {}, map[];
    }

    method BeginViewportChange(tab: TabId)
      modifies this`pendingTabs
      ensures pendingTabs == old(pendingTabs) + {tab}
    {
      pendingTabs := pendingTabs + {tab};
    }

    method NoteSnapshot(tab: TabId, epoch: nat, reason: Option<SnapshotReason>)
      modifies this
      ensures View() == if reason == Some(Viewport) then GateNote(old(View()), tab, epoch) else old(View())
    {
      if reason != Some(Viewport) { return; }
      requiredEpochs := requiredEpochs[tab := epoch];
      pendingTabs := pendingTabs - {tab};
    }

    method Acknowledge(viewer: ViewerId, tab: TabId, epoch: nat) returns (accepted: bool)
      modifies this`acknowledgedEpochs
      ensures accepted == GateAccepts(old(View()), tab, epoch)
      ensures View() == GateAcknowledge(old(View()), viewer, tab, epoch)
      ensures accepted ==> Allows(View(), viewer, tab)
    {
      if tab in pendingTabs || tab !in requiredEpochs || requiredEpochs[tab] != epoch { return false; }
      var viewerEpochs := if viewer in acknowledgedEpochs then acknowledgedEpochs[viewer] else map[];
      acknowledgedEpochs := acknowledgedEpochs[viewer := viewerEpochs[tab := epoch]];
      return true;
    }

    method AllowsInput(viewer: ViewerId, tab: TabId) returns (allowed: bool)
      ensures allowed == Allows(View(), viewer, tab)
    {
      if tab in pendingTabs { return false; }
      if tab !in requiredEpochs || viewer !in acknowledgedEpochs { return false; }
      var viewerEpochs := acknowledgedEpochs[viewer];
      return tab in viewerEpochs && viewerEpochs[tab] == requiredEpochs[tab];
    }

    method RemoveViewer(viewer: ViewerId)
      modifies this`acknowledgedEpochs
      ensures View() == old(View()).(acked := old(View()).acked - {viewer})
      ensures forall v, t :: Allows(View(), v, t) <==> v != viewer && Allows(old(View()), v, t)
    {
      acknowledgedEpochs := acknowledgedEpochs - {viewer};
    }
  }

  class ViewportAgreement {
    const gate: ViewportInputGate
    const debounceMs: nat
    var tabs: map<TabId, Negotiation>
    var nextRevision: nat
    var disposed: bool

    ghost function View(): Core
      reads this, gate
    {
      Core(gate.View(), tabs, nextRevision, disposed)
    }

    constructor (debounceMs: nat)
      ensures View() == INITIAL && fresh(gate) && this.debounceMs == debounceMs
    {
      gate := new ViewportInputGate();
      this.debounceMs := debounceMs;
      tabs, nextRevision, disposed := map[], 0, false;
    }

    method HandleView(isDriver: bool, tab: TabId, g: Geometry, now: int) returns (accepted: bool)
      modifies this, gate
      ensures (View(), accepted) == ViewportModel.HandleView(old(View()), isDriver, tab, g, debounceMs, now)
    {
      if disposed || !isDriver || !IsValid(g) { return false; }
      nextRevision := nextRevision + 1;
      var desired := Requested(nextRevision, now, g);
      var state := Negotiation(desired, 0, false, false, None, false, None);
      if tab in tabs {
        state := tabs[tab].(desired := desired);
      }
      tabs := tabs[tab := state];
      gate.BeginViewportChange(tab);
      ScheduleApply(tab, now);
      assert tabs == old(tabs)[tab := Scheduled(state, false, debounceMs, now)];
      return true;
    }

    method HandleAck(viewer: ViewerId, tab: TabId, epoch: nat) returns (accepted: bool)
      modifies gate
      ensures (View(), accepted) == ViewportModel.HandleAck(old(View()), viewer, tab, epoch)
    {
      if disposed { return false; }
      accepted := gate.Acknowledge(viewer, tab, epoch);
    }

    method NoteSnapshot(tab: TabId, epoch: nat, reason: Option<SnapshotReason>, now: int)
      modifies this`tabs, gate
      ensures View() == ViewportModel.NoteSnapshot(old(View()), tab, epoch, reason, debounceMs, now)
    {
      if reason != Some(Viewport) { return; }
      if tab !in tabs {
        gate.NoteSnapshot(tab, epoch, reason);
        return;
      }
      if tabs[tab].inFlight {
        tabs := tabs[tab := tabs[tab].(inFlight := false, retryArmed := false)];
      }
      if tabs[tab].desired.revision > tabs[tab].appliedRevision || tabs[tab].applying {
        ScheduleApply(tab, now);
        return;
      }
      gate.NoteSnapshot(tab, epoch, reason);
    }

    method ScheduleApply(tab: TabId, now: int)
      requires tab in tabs
      modifies this`tabs
      ensures tabs == old(tabs)[tab := Scheduled(old(tabs)[tab], disposed, debounceMs, now)]
    {
      var state := tabs[tab];
      if disposed || state.inFlight || state.applying { return; }
      tabs := tabs[tab := state.(debounce := Some(Max(0, state.desired.requestedAt + debounceMs - now)))];
    }

    /** The debounce timer: `apply` up to its await. */
    method BeginApply(tab: TabId, hasTarget: bool)
      requires tab in tabs
      modifies this`tabs
      ensures View() == DebounceFires(old(View()), tab, hasTarget)
    {
      var state := tabs[tab].(debounce := None);
      tabs := tabs[tab := state];
      if disposed || state.inFlight || state.applying || !hasTarget { return; }
      tabs := tabs[tab := state.(applying := true, sending := Some(state.desired))];
    }

    /**
     * `apply` from its await on: the command resolved, or it rejected. With a geometry to write, the
     * captured hub takes it and is asked for a viewport snapshot. `dispose` may have come in between: the
     * negotiation the send captured is in no map any more, and nothing is written, asked or armed.
     */
    method FinishApply(tab: TabId, ok: bool, now: int) returns (write: Option<Geometry>)
      requires disposed || (tab in tabs && tabs[tab].sending.Some?)
      modifies this`tabs
      ensures disposed ==> View() == old(View()) && write.None?
      ensures !disposed ==> View() == SendCompletes(old(View()), tab, ok, debounceMs, now)
      ensures !disposed ==> write == HubWrite(old(View()), tab, ok)
    {
      write := None;
      if disposed { return; }
      var state := tabs[tab];
      var desired := state.sending.value;
      state := state.(sending := None);
      if ok {
        write := Some(desired.geometry);
        state := state.(appliedRevision := desired.revision, inFlight := true, retryArmed := true);
      } else if state.desired.revision == desired.revision {
        state := state.(desired := state.desired.(requestedAt := now));
      }
      tabs := tabs[tab := state.(applying := false)];
      if !tabs[tab].inFlight {
        ScheduleApply(tab, now);
      }
    }

    /** The snapshot-retry timer asks the hub again and rearms. */
    method SnapshotRetry(tab: TabId) returns (asks: bool)
      requires tab in tabs
      modifies this`tabs
      ensures View() == RetryFires(old(View()), tab)
      ensures asks == AsksAgain(old(View()), tab)
      ensures asks ==> View().tabs[tab].retryArmed
    {
      tabs := tabs[tab := tabs[tab].(retryArmed := false)];
      if disposed || !tabs[tab].inFlight { return false; }
      tabs := tabs[tab := tabs[tab].(retryArmed := true)];
      return true;
    }

    method RemoveViewer(viewer: ViewerId)
      modifies gate
      ensures View() == ViewportModel.RemoveViewer(old(View()), viewer)
    {
      gate.RemoveViewer(viewer);
    }

    method Dispose()
      modifies this
      ensures View() == ViewportModel.Dispose(old(View()))
    {
      if disposed { return; }
      disposed := true;
      tabs := map[];
    }
  }
}
