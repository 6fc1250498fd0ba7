/**
 * The per-tab event hub: one snapshot, a contiguous delta log since it, and the machine that asks
 * the page for a fresh snapshot and retries until one arrives.
 *
 * `State` and the functions over it say what each operation does; the class `Hub.TabHub` is the
 * mutable object, and every method is proved to do exactly that. All run properties are proved
 * about the functions.
 */
module HubModel {
  import opened Protocol

  /** Constructor options. `wireBytes` is the size of the serialized message. */
  datatype Config = Config(
    tab: TabId,
    maxDeltaEvents: nat,
    maxDeltaBytes: nat,
    retryMs: nat,
    retryMaxMs: nat,
    trimIdleMs: nat,
    wireBytes: Down -> nat)

  /** The constructor rejects every other combination with a RangeError. */
  predicate Legal(c: Config) {
    1 <= c.retryMs <= c.retryMaxMs
  }

  /** The canonical stream: the open document, its snapshot pair and the buffer since. */
  datatype Stream = Stream(
    epoch: nat,
    docId: nat,
    seqNo: nat,
    hasDocument: bool,
    meta: Option<Event>,
    snapshot: Option<Event>,
    deltas: seq<Event>,
    deltaBytes: nat,
    snapshotSeq: nat,
    nextMeta: Option<Event>,
    pendingFull: Option<Event>)

  /** A retry timer remembers what its callback captured. */
  datatype RetryTimer = RetryTimer(reason: SnapshotReason, docId: nat, epoch: nat, delayMs: nat)

  /**
   * The request machine. A timer is `Some` while it is armed; `requestTimer` holds the attempt its
   * callback captured. The last two fields are history: the reasons handed to the listeners, and
   * the retries scheduled since an epoch last opened or a document last arrived.
   */
  datatype Recovery = Recovery(
    requested: bool,
    attempt: nat,
    requestTimer: Option<nat>,
    retryTimer: Option<RetryTimer>,
    retryDelayMs: nat,
    trimTimer: Option<int>,
    pending: Option<SnapshotReason>,
    queued: Option<SnapshotReason>,
    asked: seq<SnapshotReason>,
    retries: nat)

  datatype State = State(log: Stream, rec: Recovery, lastInputAt: Option<int>)

  function Initial(c: Config): State {
    State(Stream(0, 0, 0, false, None, None, [], 0, 0, None, None),
          Recovery(false, 0, None, None, c.retryMs, None, None, None, [], 0), None)
  }

  function Priority(r: SnapshotReason): nat {
    match r
    case Trim => 0
    case Resync => 1
    case Viewport => 2
    case Nav => 3
  }

  function Stronger(current: Option<SnapshotReason>, candidate: SnapshotReason): SnapshotReason {
    if current.None? || Priority(candidate) > Priority(current.value) then candidate else current.value
  }

  function OverLimit(c: Config, log: Stream): bool {
    |log.deltas| > c.maxDeltaEvents || log.deltaBytes > c.maxDeltaBytes
  }

  // ---- The request and retry machine ----

  function ClearRequest(r: Recovery): Recovery {
    r.(requested := false, attempt := r.attempt + 1, requestTimer := None)
  }

  function ScheduleRetry(c: Config, r: Recovery, reason: SnapshotReason, docId: nat, epoch: nat): Recovery {
    r.(retryDelayMs := if r.retryDelayMs >= (c.retryMaxMs + 1) / 2 then c.retryMaxMs else r.retryDelayMs * 2,
       retryTimer := Some(RetryTimer(reason, docId, epoch, r.retryDelayMs)),
       retries := r.retries + 1)
  }

  /** A failed or timed-out request; anything but the attempt in flight is ignored. */
  function Fail(c: Config, r: Recovery, attempt: nat, docId: nat, epoch: nat): Recovery {
    if !r.requested || attempt != r.attempt then r
    else if r.pending == Some(Nav) || r.pending == Some(Resync) then
      ScheduleRetry(c, ClearRequest(r), r.pending.value, docId, epoch)
    else ClearRequest(r)
  }

  function ArmRequest(r: Recovery, reason: SnapshotReason): Recovery {
    var why := Stronger(r.pending, reason);
    r.(pending := Some(why), trimTimer := None, retryTimer := None, requested := true,
       attempt := r.attempt + 1, requestTimer := Some(r.attempt + 1), asked := r.asked + [why])
  }

  /** `throws[i]` says whether the i-th listener throws synchronously. */
  function Request(c: Config, r: Recovery, reason: SnapshotReason, throws: seq<bool>, docId: nat, epoch: nat): Recovery {
    if r.requested then
      if r.pending == Some(reason) then r else r.(queued := Some(Stronger(r.queued, reason)))
    else
      var armed := ArmRequest(r, reason);
      if true in throws then Fail(c, armed, armed.attempt, docId, epoch) else armed
  }

  /** Disarm everything, forget why, and start the backoff chain over. */
  function Settle(c: Config, r: Recovery): Recovery {
    ClearRequest(r).(trimTimer := None, retryTimer := None, retryDelayMs := c.retryMs,
                     pending := None, queued := None, retries := 0)
  }

  /** An answered request; a reason queued behind it starts the next one. */
  function Requeue(c: Config, r: Recovery, throws: seq<bool>, docId: nat, epoch: nat): Recovery {
    var settled := Settle(c, r);
    if r.queued.Some? then Request(c, settled, r.queued.value, throws, docId, epoch) else settled
  }

  function MaybeTrim(c: Config, s: State, now: int, throws: seq<bool>): State {
    if !OverLimit(c, s.log) || s.rec.requested then s
    else if s.lastInputAt.None? || s.lastInputAt.value + c.trimIdleMs - now <= 0 then
      s.(rec := Request(c, s.rec, Trim, throws, s.log.docId, s.log.epoch))
    else s.(rec := s.rec.(trimTimer := Some(s.lastInputAt.value + c.trimIdleMs - now)))
  }

  // ---- The stream ----

  function NewDocument(log: Stream, docId: nat): Stream {
    Stream(log.epoch, docId, log.seqNo, true, None, None, [], 0, 0, None, None)
  }

  predicate PairReady(log: Stream) {
    log.pendingFull.Some? && (log.nextMeta.Some? || log.meta.Some?)
  }

  /** The pair becomes the canonical state and opens an epoch. */
  function Opened(log: Stream): Stream
    requires PairReady(log)
  {
    log.(meta := if log.nextMeta.Some? then log.nextMeta else log.meta, snapshot := log.pendingFull,
         nextMeta := None, pendingFull := None, deltas := [], deltaBytes := 0,
         epoch := log.epoch + 1, seqNo := log.seqNo + 1, snapshotSeq := log.seqNo + 1)
  }

  function OpenPending(c: Config, s: State, throws: seq<bool>): (State, seq<Down>) {
    if !PairReady(s.log) then (s, [])
    else
      var log := Opened(s.log);
      (State(log, Requeue(c, s.rec, throws, log.docId, log.epoch), s.lastInputAt), [Opening(c, s)])
  }

  /** The message that opens the epoch. */
  function Opening(c: Config, s: State): Down
    requires PairReady(s.log)
  {
    var log := Opened(s.log);
    Snapshot(c.tab, log.epoch, log.snapshotSeq, [log.meta.value, log.snapshot.value],
             if s.rec.pending.Some? then s.rec.pending.value else Resync)
  }

  function Append(c: Config, log: Stream, e: Event): (Stream, Down) {
    var down := Delta(c.tab, log.epoch, log.seqNo + 1, [e]);
    (log.(seqNo := log.seqNo + 1, deltas := log.deltas + [e], deltaBytes := log.deltaBytes + c.wireBytes(down)), down)
  }

  function NoteMeta(log: Stream, e: Event): Stream {
    log.(nextMeta := Some(e), meta := if log.snapshot.None? then Some(e) else log.meta)
  }

  function Ingest(c: Config, s: State, msg: AgentMsg, now: int, throws: seq<bool>): (State, seq<Down>) {
    match msg
    case CmdRes(_, _) => (s, [])
    case AgentHello(docId, isTop) =>
      if !isTop || (s.log.hasDocument && docId == s.log.docId) then (s, [])
      else
        var log := NewDocument(s.log, docId);
        (State(log, Request(c, Settle(c, s.rec), Nav, throws, log.docId, log.epoch), s.lastInputAt), [])
    case Rrweb(docId, e) =>
      if !s.log.hasDocument || docId != s.log.docId then (s, [])
      else if e.kind.Meta? then OpenPending(c, s.(log := NoteMeta(s.log, e)), throws)
      else if e.kind.FullSnapshot? then OpenPending(c, s.(log := s.log.(pendingFull := Some(e))), throws)
      else if s.log.meta.None? || s.log.snapshot.None? then (s, [])
      else
        var (log, down) := Append(c, s.log, e);
        (MaybeTrim(c, s.(log := log), now, throws), [down])
  }

  function NoteInput(c: Config, s: State, at: int, now: int, throws: seq<bool>): State {
    MaybeTrim(c, s.(lastInputAt := Some(at)), now, throws)
  }

  /** What a viewer receives when it joins or drains: the notice, the snapshot, the whole buffer. */
  function JoinPayload(c: Config, log: Stream): seq<Down> {
    if log.meta.None? || log.snapshot.None? then [ResyncNotice(c.tab)]
    else
      [ResyncNotice(c.tab), Snapshot(c.tab, log.epoch, log.snapshotSeq, [log.meta.value, log.snapshot.value], Resync)]
      + (if |log.deltas| > 0 then [Delta(c.tab, log.epoch, log.snapshotSeq + 1, log.deltas)] else [])
  }

  // ---- Runs ----

  /** Everything that can happen to a hub. A timer step is possible only while that timer is armed. */
  datatype Step =
    | DoIngest(msg: AgentMsg, now: int, throws: seq<bool>)
    | DoNoteInput(at: int, now: int, throws: seq<bool>)
    | DoRequest(reason: SnapshotReason, throws: seq<bool>)
    | RequestTimerFires
    | RetryTimerFires(throws: seq<bool>)
    | TrimTimerFires(now: int, throws: seq<bool>)
    | ListenerRejects(attempt: nat)

  predicate Enabled(s: State, step: Step) {
    match step
    case RequestTimerFires => s.rec.requestTimer.Some?
    case RetryTimerFires(_) => s.rec.retryTimer.Some?
    case TrimTimerFires(_, _) => s.rec.trimTimer.Some?
    case _ => true
  }

  function RetryFired(c: Config, s: State, throws: seq<bool>): State
    requires s.rec.retryTimer.Some?
  {
    var t := s.rec.retryTimer.value;
    var rec := s.rec.(retryTimer := None);
    if !s.log.hasDocument || s.log.docId != t.docId || s.log.epoch != t.epoch || rec.requested then s.(rec := rec)
    else s.(rec := Request(c, rec, t.reason, throws, s.log.docId, s.log.epoch))
  }

  function Apply(c: Config, s: State, step: Step): (State, seq<Down>)
    requires Enabled(s, step)
  {
    match step
    case DoIngest(msg, now, throws) => Ingest(c, s, msg, now, throws)
    case DoNoteInput(at, now, throws) => (NoteInput(c, s, at, now, throws), [])
    case DoRequest(reason, throws) =>
      (s.(rec := Request(c, s.rec, reason, throws, s.log.docId, s.log.epoch)), [])
    case RequestTimerFires =>
      (s.(rec := Fail(c, s.rec, s.rec.requestTimer.value, s.log.docId, s.log.epoch)), [])
    case RetryTimerFires(throws) => (RetryFired(c, s, throws), [])
    case TrimTimerFires(now, throws) => (MaybeTrim(c, s.(rec := s.rec.(trimTimer := None)), now, throws), [])
    case ListenerRejects(attempt) => (s.(rec := Fail(c, s.rec, attempt, s.log.docId, s.log.epoch)), [])
  }

  /** Every step of the run is possible in the state it is taken in. */
  predicate Possible(c: Config, s: State, run: seq<Step>)
    decreases |run|
  {
    run == [] || (Enabled(s, run[0]) && Possible(c, Apply(c, s, run[0]).0, run[1..]))
  }

  function After(c: Config, s: State, run: seq<Step>): State
    requires Possible(c, s, run)
    decreases |run|
  {
    if run == [] then s else After(c, Apply(c, s, run[0]).0, run[1..])
  }

  function Emitted(c: Config, s: State, run: seq<Step>): seq<Down>
    requires Possible(c, s, run)
    decreases |run|
  {
    if run == [] then [] else Apply(c, s, run[0]).1 + Emitted(c, Apply(c, s, run[0]).0, run[1..])
  }

  // ---- Invariants ----

  function BufferBytes(c: Config, epoch: nat, first: nat, events: seq<Event>): nat
    decreases |events|
  {
    if events == [] then 0
    else
      var n := |events| - 1;
      BufferBytes(c, epoch, first, events[..n]) + c.wireBytes(Delta(c.tab, epoch, first + n, [events[n]]))
  }

  /** The buffer is exactly the numbered log since the snapshot, and its size is what was sent. */
  predicate StreamInv(c: Config, log: Stream) {
    && (log.snapshot.Some? ==> log.hasDocument && log.meta.Some? && 1 <= log.epoch && 1 <= log.snapshotSeq
                               && log.seqNo == log.snapshotSeq + |log.deltas|)
    && (log.snapshot.None? ==> log.deltas == [])
    && log.deltaBytes == BufferBytes(c, log.epoch, log.snapshotSeq + 1, log.deltas)
    && (log.pendingFull.Some? ==> log.snapshot.None? && log.meta.None? && log.nextMeta.None?)
  }

  /** The delay of the k-th retry in a recovery chain. */
  function Backoff(c: Config, k: nat): nat
    requires k >= 1
  {
    Min(c.retryMaxMs, c.retryMs * Pow2(k - 1))
  }

  predicate RequestInv(c: Config, r: Recovery) {
    && (r.requested <==> r.requestTimer.Some?)
    && (r.requestTimer.Some? ==> r.requestTimer.value == r.attempt && r.pending.Some? && r.retryTimer.None?)
    && r.retryDelayMs == Backoff(c, r.retries + 1)
    && (r.retryTimer.Some? ==>
          && r.pending == Some(r.retryTimer.value.reason)
          && r.retryTimer.value.reason in {Nav, Resync}
          && r.retries >= 1
          && r.retryTimer.value.delayMs == Backoff(c, r.retries))
  }

  /** Who is waiting for a snapshot, and which timer keeps them from waiting forever. */
  predicate WaitInv(log: Stream, r: Recovery) {
    && (log.hasDocument && log.snapshot.None? ==> r.pending == Some(Nav))
    && (r.retryTimer.Some? ==> r.retryTimer.value.docId == log.docId && r.retryTimer.value.epoch == log.epoch)
    && (log.hasDocument && (r.pending == Some(Nav) || r.pending == Some(Resync)) ==>
          r.requested || r.retryTimer.Some?)
  }

  predicate Inv(c: Config, s: State) {
    StreamInv(c, s.log) && RequestInv(c, s.rec) && WaitInv(s.log, s.rec)
  }

  lemma InitialInv(c: Config)
    requires Legal(c)
    ensures Inv(c, Initial(c))
  {
    assert Pow2(0) == 1;
  }

  lemma BackoffDoubles(c: Config, k: nat)
    requires Legal(c) && k >= 1
    ensures Backoff(c, k + 1)
         == if Backoff(c, k) >= (c.retryMaxMs + 1) / 2 then c.retryMaxMs else Backoff(c, k) * 2
  {
    var d := c.retryMs * Pow2(k - 1);
    assert Pow2(k) == 2 * Pow2(k - 1);
    assert c.retryMs * Pow2(k) == 2 * d;
  }

  lemma FailKeepsInv(c: Config, log: Stream, r: Recovery, attempt: nat)
    requires Legal(c) && RequestInv(c, r) && WaitInv(log, r)
    ensures var f := Fail(c, r, attempt, log.docId, log.epoch);
      RequestInv(c, f) && WaitInv(log, f)
  {
    BackoffDoubles(c, r.retries + 1);
  }

  lemma FailTwice(c: Config, r: Recovery, attempt: nat, docId: nat, epoch: nat)
    ensures var f := Fail(c, r, attempt, docId, epoch);
      Fail(c, f, attempt, docId, epoch) == f
  {}

  lemma SettleKeepsInv(c: Config, r: Recovery)
    requires Legal(c)
    ensures RequestInv(c, Settle(c, r))
  {
    assert Pow2(0) == 1;
  }

  /** A fresh request is safe even where nothing was armed before it. */
  lemma RequestKeepsInv(c: Config, log: Stream, r: Recovery, reason: SnapshotReason, throws: seq<bool>)
    requires Legal(c) && RequestInv(c, r)
    requires r.requested ==> WaitInv(log, r)
    requires log.hasDocument && log.snapshot.None? ==> reason.Nav? || r.pending == Some(Nav)
    ensures var q := Request(c, r, reason, throws, log.docId, log.epoch);
      RequestInv(c, q) && WaitInv(log, q)
  {
    if !r.requested {
      FailKeepsInv(c, log, ArmRequest(r, reason), r.attempt + 1);
    }
  }

  lemma MaybeTrimKeepsInv(c: Config, s: State, now: int, throws: seq<bool>)
    requires Legal(c) && Inv(c, s)
    ensures Inv(c, MaybeTrim(c, s, now, throws))
  {
    RequestKeepsInv(c, s.log, s.rec, Trim, throws);
  }

  lemma OpenKeepsInv(c: Config, s: State, throws: seq<bool>)
    requires Legal(c) && RequestInv(c, s.rec) && WaitInv(s.log, s.rec) && s.log.hasDocument
    requires StreamInv(c, s.log.(pendingFull := None))
    ensures Inv(c, OpenPending(c, s, throws).0)
  {
    if PairReady(s.log) {
      SettleKeepsInv(c, s.rec);
      if s.rec.queued.Some? {
        RequestKeepsInv(c, Opened(s.log), Settle(c, s.rec), s.rec.queued.value, throws);
      }
    }
  }

  lemma AppendKeepsInv(c: Config, log: Stream, e: Event)
    requires StreamInv(c, log) && log.snapshot.Some?
    ensures StreamInv(c, Append(c, log, e).0)
  {
    assert (log.deltas + [e])[..|log.deltas|] == log.deltas;
  }

  lemma IngestKeepsInv(c: Config, s: State, msg: AgentMsg, now: int, throws: seq<bool>)
    requires Legal(c) && Inv(c, s)
    ensures Inv(c, Ingest(c, s, msg, now, throws).0)
  {
    match msg
    case CmdRes(_, _) =>
    case AgentHello(docId, isTop) =>
      SettleKeepsInv(c, s.rec);
      RequestKeepsInv(c, NewDocument(s.log, docId), Settle(c, s.rec), Nav, throws);
    case Rrweb(docId, e) =>
      if s.log.hasDocument && docId == s.log.docId {
        if e.kind.Meta? {
          OpenKeepsInv(c, s.(log := NoteMeta(s.log, e)), throws);
        } else if e.kind.FullSnapshot? {
          OpenKeepsInv(c, s.(log := s.log.(pendingFull := Some(e))), throws);
        } else if s.log.meta.Some? && s.log.snapshot.Some? {
          AppendKeepsInv(c, s.log, e);
          MaybeTrimKeepsInv(c, s.(log := Append(c, s.log, e).0), now, throws);
        }
      }
  }

  lemma StepKeepsInv(c: Config, s: State, step: Step)
    requires Legal(c) && Inv(c, s) && Enabled(s, step)
    ensures Inv(c, Apply(c, s, step).0)
  {
    match step
    case DoIngest(msg, now, throws) => IngestKeepsInv(c, s, msg, now, throws);
    case DoNoteInput(at, now, throws) => MaybeTrimKeepsInv(c, s.(lastInputAt := Some(at)), now, throws);
    case DoRequest(reason, throws) => RequestKeepsInv(c, s.log, s.rec, reason, throws);
    case RequestTimerFires => FailKeepsInv(c, s.log, s.rec, s.rec.requestTimer.value);
    case RetryTimerFires(throws) =>
      RequestKeepsInv(c, s.log, s.rec.(retryTimer := None), s.rec.retryTimer.value.reason, throws);
    case TrimTimerFires(now, throws) => MaybeTrimKeepsInv(c, s.(rec := s.rec.(trimTimer := None)), now, throws);
    case ListenerRejects(attempt) => FailKeepsInv(c, s.log, s.rec, attempt);
  }

  lemma {:induction false} RunKeepsInv(c: Config, s: State, run: seq<Step>)
    requires Legal(c) && Inv(c, s) && Possible(c, s, run)
    ensures Inv(c, After(c, s, run))
    decreases |run|
  {
    if run != [] {
      StepKeepsInv(c, s, run[0]);
      RunKeepsInv(c, Apply(c, s, run[0]).0, run[1..]);
    }
  }

  // ---- Recovery never stalls ----

  /**
   * In every reachable hub a document without a snapshot is waiting for a `nav` snapshot, with the
   * request timeout or the retry timer armed, and a retry is armed with exactly the delay of its
   * place in the chain.
   */
  lemma NewDocumentNeverStalls(c: Config, run: seq<Step>)
    requires Legal(c) && Possible(c, Initial(c), run)
    ensures var s := After(c, Initial(c), run);
      && (s.log.hasDocument && s.log.snapshot.None? ==>
            s.rec.pending == Some(Nav) && (s.rec.requestTimer.Some? || s.rec.retryTimer.Some?))
      && (s.log.hasDocument && s.rec.pending.Some? && s.rec.pending.value in {Nav, Resync} ==>
            s.rec.requestTimer.Some? || s.rec.retryTimer.Some?)
      && (s.rec.retryTimer.Some? ==>
            s.rec.retries >= 1
            && s.rec.retryTimer.value.delayMs == Min(c.retryMaxMs, c.retryMs * Pow2(s.rec.retries - 1)))
  {
    InitialInv(c);
    RunKeepsInv(c, Initial(c), run);
  }

  /** Let whichever recovery timer is armed run out. */
  function FireArmed(c: Config, s: State, throws: seq<bool>): State {
    if s.rec.requestTimer.Some? then Apply(c, s, RequestTimerFires).0
    else if s.rec.retryTimer.Some? then Apply(c, s, RetryTimerFires(throws)).0
    else s
  }

  /** One expiry after the other; at each the listeners behave as that entry says. */
  function FireTimers(c: Config, s: State, throws: seq<seq<bool>>): State
    decreases |throws|
  {
    if throws == [] then s else FireTimers(c, FireArmed(c, s, throws[0]), throws[1..])
  }

  /** At least `n` further requests, every one of them for that reason. */
  predicate AskedMore(s: State, later: State, n: nat, why: SnapshotReason) {
    && |later.rec.asked| >= |s.rec.asked| + n
    && s.rec.asked == later.rec.asked[..|s.rec.asked|]
    && forall i :: |s.rec.asked| <= i < |later.rec.asked| ==> later.rec.asked[i] == why
  }

  /** A document waits for its first snapshot, or for the answer to a resync. */
  predicate Waits(s: State) {
    s.log.hasDocument && (s.log.snapshot.None? || s.rec.pending == Some(Nav) || s.rec.pending == Some(Resync))
  }

  /**
   * The page never answers: the hub still asks again, for the same reason, at least once every two timer
   * expiries, however its listeners fail each time.
   */
  lemma {:induction false} KeepsAsking(c: Config, s: State, throws: seq<seq<bool>>)
    requires Legal(c) && Inv(c, s) && Waits(s)
    ensures s.rec.pending.Some? && (s.log.snapshot.None? ==> s.rec.pending == Some(Nav))
    ensures AskedMore(s, FireTimers(c, s, throws), |throws| / 2, s.rec.pending.value)
    decreases |throws|
  {
    if |throws| >= 2 {
      var once := FireArmed(c, s, throws[0]);
      var twice := FireArmed(c, once, throws[1]);
      var rest := throws[1..][1..];
      AskOnce(c, s, throws[0]);
      AskOnce(c, once, throws[1]);
      KeepsAsking(c, twice, rest);
      assert FireTimers(c, s, throws) == FireTimers(c, once, throws[1..]) == FireTimers(c, twice, rest);
      AskedMoreAdds(s, twice, FireTimers(c, s, throws), |rest| / 2, s.rec.pending.value);
    } else if throws != [] {
      AskOnce(c, s, throws[0]);
      assert FireTimers(c, FireArmed(c, s, throws[0]), throws[1..]) == FireArmed(c, s, throws[0]);
    }
  }

  lemma AskedMoreAdds(s: State, t: State, u: State, n: nat, why: SnapshotReason)
    requires AskedMore(s, t, 1, why) && AskedMore(t, u, n, why)
    ensures AskedMore(s, u, n + 1, why)
  {
    assert u.rec.asked[..|s.rec.asked|] == u.rec.asked[..|t.rec.asked|][..|s.rec.asked|];
    forall i | |s.rec.asked| <= i < |t.rec.asked|
      ensures u.rec.asked[i] == why
    {
      assert u.rec.asked[i] == u.rec.asked[..|t.rec.asked|][i];
    }
  }

  lemma AskOnce(c: Config, s: State, throws: seq<bool>)
    requires Legal(c) && Inv(c, s) && Waits(s)
    ensures var next := FireArmed(c, s, throws);
      && Inv(c, next) && next.log == s.log && s.rec.pending.Some? && next.rec.pending == s.rec.pending
      && (s.rec.requestTimer.Some? ==> next.rec.asked == s.rec.asked && next.rec.requestTimer.None?)
      && (s.rec.requestTimer.None? ==> next.rec.asked == s.rec.asked + [s.rec.pending.value])
  {
    StepKeepsInv(c, s, if s.rec.requestTimer.Some? then RequestTimerFires else RetryTimerFires(throws));
  }

  /**
   * Without a document the promise fails, and only there: an armed retry that fires leaves the
   * request alive exactly when a document has arrived.
   */
  lemma RetryNeedsDocument(c: Config, s: State, throws: seq<bool>)
    requires Legal(c) && Inv(c, s) && s.rec.retryTimer.Some?
    ensures var next := RetryFired(c, s, throws);
      && next.rec.pending.Some? && next.rec.pending.value in {Nav, Resync}
      && (next.rec.requestTimer.Some? || next.rec.retryTimer.Some? <==> s.log.hasDocument)
  {
    if s.log.hasDocument {
      StepKeepsInv(c, s, RetryTimerFires(throws));
    }
  }

  /** A `resync` asked of a hub before its first document: after one timeout nothing is armed. */
  lemma ResyncBeforeDocumentStalls(c: Config)
    requires Legal(c)
    ensures var run := [DoRequest(Resync, []), RequestTimerFires, RetryTimerFires([])];
      && Possible(c, Initial(c), run)
      && var s := After(c, Initial(c), run);
         s.rec.pending == Some(Resync) && s.rec.requestTimer.None? && s.rec.retryTimer.None?
  {
    var run := [DoRequest(Resync, []), RequestTimerFires, RetryTimerFires([])];
    var s0 := Initial(c);
    var s1 := Apply(c, s0, run[0]).0;
    var s2 := Apply(c, s1, run[1]).0;
    var s3 := Apply(c, s2, run[2]).0;
    var tail := run[1..];
    var last := tail[1..];
    assert last == [run[2]] && last[1..] == [];
    assert Possible(c, s3, last[1..]) && After(c, s3, last[1..]) == s3;
    assert Possible(c, s2, last) && After(c, s2, last) == s3;
    assert Possible(c, s1, tail) && After(c, s1, tail) == s3;
  }

  // ---- Superseded attempts ----

  predicate Superseded(r: Recovery, attempt: nat) {
    attempt <= r.attempt && !(r.requested && attempt == r.attempt)
  }

  /** The attempt counter only grows, and a number that is not in flight is never in flight again. */
  predicate AttemptsAdvance(r: Recovery, q: Recovery) {
    r.attempt <= q.attempt && (q.requested && q.attempt == r.attempt ==> r.requested)
  }

  /** One message numbered next in line, or none; the epoch moves exactly at a snapshot. */
  predicate Numbered(c: Config, log: Stream, next: Stream, downs: seq<Down>) {
    && |downs| <= 1
    && (downs == [] ==> next.seqNo == log.seqNo && next.epoch == log.epoch)
    && (|downs| == 1 ==>
          && (downs[0].Snapshot? || downs[0].Delta?)
          && next.seqNo == log.seqNo + 1
          && next.epoch == log.epoch + (if downs[0].Snapshot? then 1 else 0)
          && downs[0].tab == c.tab && downs[0].first == next.seqNo && downs[0].epoch == next.epoch)
  }

  lemma StepAdvances(c: Config, s: State, step: Step)
    requires Enabled(s, step)
    ensures var (t, downs) := Apply(c, s, step);
      AttemptsAdvance(s.rec, t.rec) && Numbered(c, s.log, t.log, downs)
  {}

  /** How a step may change the stream: append one event, open an epoch, or leave the open epoch alone. */
  lemma StepShape(c: Config, s: State, step: Step)
    requires Legal(c) && Inv(c, s) && Enabled(s, step)
    ensures var (t, downs) := Apply(c, s, step);
      && (downs == [] && t.log.snapshot.Some? ==>
            && t.log.snapshot == s.log.snapshot && t.log.meta == s.log.meta
            && t.log.deltas == s.log.deltas && t.log.snapshotSeq == s.log.snapshotSeq)
      && (downs != [] && downs[0].Delta? ==>
            && s.log.snapshot.Some? && t.log.snapshot == s.log.snapshot && t.log.meta == s.log.meta
            && t.log.snapshotSeq == s.log.snapshotSeq
            && |downs[0].data| == 1 && t.log.deltas == s.log.deltas + downs[0].data)
      && (downs != [] && downs[0].Snapshot? ==>
            && t.log.snapshot.Some? && t.log.deltas == [] && t.log.snapshotSeq == t.log.seqNo
            && downs[0].data == [t.log.meta.value, t.log.snapshot.value])
  {
    StepKeepsInv(c, s, step);
  }

  /** Once an attempt is superseded, its timeout or rejection changes nothing, ever. */
  lemma {:induction false} SupersededForever(c: Config, s: State, run: seq<Step>, attempt: nat)
    requires Possible(c, s, run) && Superseded(s.rec, attempt)
    ensures Superseded(After(c, s, run).rec, attempt)
    ensures Apply(c, After(c, s, run), ListenerRejects(attempt)).0 == After(c, s, run)
    decreases |run|
  {
    if run != [] {
      StepAdvances(c, s, run[0]);
      SupersededForever(c, Apply(c, s, run[0]).0, run[1..], attempt);
    }
  }

  // ---- Numbering ----

  /** Each message is numbered one above the one before it; its epoch is higher by one if it is a snapshot. */
  predicate Contiguous(c: Config, seqNo: nat, epoch: nat, out: seq<Down>)
    decreases |out|
  {
    out != [] ==>
      && (out[0].Snapshot? || out[0].Delta?)
      && out[0].tab == c.tab && out[0].first == seqNo + 1
      && out[0].epoch == epoch + (if out[0].Snapshot? then 1 else 0)
      && Contiguous(c, out[0].first, out[0].epoch, out[1..])
  }

  /** Over any run the hub numbers its messages without a gap, across snapshots and navigations. */
  lemma {:induction false} EmittedAreContiguous(c: Config, s: State, run: seq<Step>)
    requires Possible(c, s, run)
    ensures Contiguous(c, s.log.seqNo, s.log.epoch, Emitted(c, s, run))
    ensures After(c, s, run).log.seqNo == s.log.seqNo + |Emitted(c, s, run)|
    ensures After(c, s, run).log.epoch >= s.log.epoch
    decreases |run|
  {
    if run != [] {
      StepAdvances(c, s, run[0]);
      var (next, downs) := Apply(c, s, run[0]);
      EmittedAreContiguous(c, next, run[1..]);
      var rest := Emitted(c, next, run[1..]);
      assert Emitted(c, s, run) == downs + rest;
      if |downs| == 1 {
        assert (downs + rest)[0] == downs[0] && (downs + rest)[1..] == rest;
      } else {
        assert downs + rest == rest;
      }
    }
  }
}

/** The hub object. Each method does to its fields what the function of the same name says. */
module Hub {
  import opened Protocol
  import opened HubModel

  class TabHub {
    const cfg: Config
    var epoch: nat
    var docId: nat
    var seqNo: nat
    var hasDocument: bool
    var meta: Option<Event>
    var snapshot: Option<Event>
    var deltas: seq<Event>
    var deltaBytes: nat
    var snapshotSeq: nat
    var nextMeta: Option<Event>
    var pendingFullSnapshot: Option<Event>
    var lastInputAt: Option<int>
    var snapshotRequested: bool
    var snapshotRequestAttempt: nat
    var snapshotRequestTimer: Option<nat>
    var snapshotRetryTimer: Option<RetryTimer>
    var snapshotRetryDelayMs: nat
    var trimTimer: Option<int>
    var pendingSnapshotReason: Option<SnapshotReason>
    var queuedSnapshotReason: Option<SnapshotReason>
    ghost var asked: seq<SnapshotReason>
    ghost var retries: nat

    ghost function Log(): Stream
      reads `epoch, `docId, `seqNo, `hasDocument, `meta, `snapshot, `deltas, `deltaBytes, `snapshotSeq,
            `nextMeta, `pendingFullSnapshot
    {
      Stream(epoch, docId, seqNo, hasDocument, meta, snapshot, deltas, deltaBytes, snapshotSeq,
             nextMeta, pendingFullSnapshot)
    }

    ghost function Rec(): Recovery
      reads `snapshotRequested, `snapshotRequestAttempt, `snapshotRequestTimer, `snapshotRetryTimer,
            `snapshotRetryDelayMs, `trimTimer, `pendingSnapshotReason, `queuedSnapshotReason, `asked, `retries
    {
      Recovery(snapshotRequested, snapshotRequestAttempt, snapshotRequestTimer, snapshotRetryTimer,
               snapshotRetryDelayMs, trimTimer, pendingSnapshotReason, queuedSnapshotReason, asked, retries)
    }

    ghost function State(): State
      reads this
    {
      HubModel.State(Log(), Rec(), lastInputAt)
    }

    constructor (cfg: Config)
      requires Legal(cfg)
      ensures this.cfg == cfg && State() == Initial(cfg) && Inv(cfg, State())
    {
      this.cfg := cfg;
      epoch, docId, seqNo, snapshotSeq, hasDocument := 0, 0, 0, 0, false;
      meta, snapshot, nextMeta, pendingFullSnapshot := None, None, None, None;
      deltas, deltaBytes, lastInputAt := [], 0, None;
      snapshotRequested, snapshotRequestAttempt := false, 0;
      snapshotRequestTimer, snapshotRetryTimer, trimTimer := None, None, None;
      snapshotRetryDelayMs := cfg.retryMs;
      pendingSnapshotReason, queuedSnapshotReason := None, None;
      asked, retries := [], 0;
      new;
      InitialInv(cfg);
    }

    method Ingest(msg: AgentMsg, now: int, throws: seq<bool>) returns (downs: seq<Down>)
      requires Legal(cfg) && Inv(cfg, State())
      modifies this
      ensures (State(), downs) == HubModel.Ingest(cfg, old(State()), msg, now, throws)
      ensures Inv(cfg, State())
    {
      IngestKeepsInv(cfg, State(), msg, now, throws);
      match msg
      case CmdRes(_, _) => return [];
      case AgentHello(newDocId, isTop) =>
        if !isTop {
          return [];
        }
        if hasDocument && newDocId == docId {
          return [];
        }
        OpenDocument(newDocId, throws);
        return [];
      case Rrweb(fromDocId, event) =>
        if !hasDocument || fromDocId != docId {
          return [];
        }
        if event.kind.Meta? {
          NoteMeta(event);
          downs := OpenPendingSnapshot(throws);
          return downs;
        }
        if event.kind.FullSnapshot? {
          pendingFullSnapshot := Some(event);
          downs := OpenPendingSnapshot(throws);
          return downs;
        }
        if meta.None? || snapshot.None? {
          return [];
        }
        downs := IngestDelta(event, now, throws);
    }

    method OpenDocument(newDocId: nat, throws: seq<bool>)
      modifies this
      ensures State() == HubModel.State(
                NewDocument(old(Log()), newDocId),
                Request(cfg, Settle(cfg, old(Rec())), Nav, throws, newDocId, old(epoch)), old(lastInputAt))
    {
      ResetStream(newDocId);
      ghost var log := Log();
      SettleRecovery();
      RequestSnapshot(Nav, throws);
      assert Log() == log;
    }

    method NoteMeta(event: Event)
      modifies `meta, `nextMeta
      ensures Log() == HubModel.NoteMeta(old(Log()), event)
    {
      nextMeta := Some(event);
      if snapshot.None? {
        meta := Some(event);
      }
    }

    method IngestDelta(event: Event, now: int, throws: seq<bool>) returns (downs: seq<Down>)
      modifies this
      ensures var (log, down) := Append(cfg, old(Log()), event);
        downs == [down] && State() == MaybeTrim(cfg, old(State()).(log := log), now, throws)
    {
      var down := AppendDelta(event);
      if |deltas| > cfg.maxDeltaEvents || deltaBytes > cfg.maxDeltaBytes {
        MaybeRequestTrimSnapshot(now, throws);
      }
      downs := [down];
    }

    method ResetStream(newDocId: nat)
      modifies `docId, `hasDocument, `meta, `snapshot, `deltas, `deltaBytes, `snapshotSeq, `nextMeta,
               `pendingFullSnapshot
      ensures Log() == NewDocument(old(Log()), newDocId)
    {
      hasDocument, docId := true, newDocId;
      meta, snapshot := None, None;
      deltas, deltaBytes, snapshotSeq := [], 0, 0;
      nextMeta, pendingFullSnapshot := None, None;
    }

    /** Number one event and append it to the buffer. */
    method AppendDelta(event: Event) returns (down: Down)
      modifies `seqNo, `deltas, `deltaBytes
      ensures (Log(), down) == Append(cfg, old(Log()), event)
    {
      seqNo := seqNo + 1;
      down := Delta(cfg.tab, epoch, seqNo, [event]);
      deltas := deltas + [event];
      deltaBytes := deltaBytes + cfg.wireBytes(down);
    }

    method JoinPayload() returns (payload: seq<Down>)
      ensures payload == HubModel.JoinPayload(cfg, Log())
    {
      payload := [ResyncNotice(cfg.tab)];
      if meta.None? || snapshot.None? {
        return;
      }
      payload := payload + [Snapshot(cfg.tab, epoch, snapshotSeq, [meta.value, snapshot.value], Resync)];
      if |deltas| > 0 {
        payload := payload + [Delta(cfg.tab, epoch, snapshotSeq + 1, deltas)];
      }
    }

    method NoteInput(at: int, now: int, throws: seq<bool>)
      requires Legal(cfg) && Inv(cfg, State())
      modifies this
      ensures State() == HubModel.NoteInput(cfg, old(State()), at, now, throws)
      ensures Inv(cfg, State())
    {
      StepKeepsInv(cfg, State(), DoNoteInput(at, now, throws));
      lastInputAt := Some(at);
      var over := IsOverDeltaLimit();
      if over && !snapshotRequested {
        MaybeRequestTrimSnapshot(now, throws);
      }
    }

    method RequestSnapshot(reason: SnapshotReason, throws: seq<bool>)
      modifies `snapshotRequested, `snapshotRequestAttempt, `snapshotRequestTimer, `snapshotRetryTimer,
               `snapshotRetryDelayMs, `trimTimer, `pendingSnapshotReason, `queuedSnapshotReason, `asked, `retries
      ensures Rec() == Request(cfg, old(Rec()), reason, throws, docId, epoch)
    {
      if snapshotRequested {
        if Some(reason) != pendingSnapshotReason {
          queuedSnapshotReason := Some(Stronger(queuedSnapshotReason, reason));
        }
        return;
      }
      var attempt := ArmRequest(reason);
      NotifyListeners(attempt, throws);
    }

    /** The bookkeeping of a new attempt, before the listeners hear of it. */
    method ArmRequest(reason: SnapshotReason) returns (attempt: nat)
      modifies `pendingSnapshotReason, `trimTimer, `snapshotRetryTimer, `snapshotRetryDelayMs,
               `snapshotRequested, `snapshotRequestAttempt, `snapshotRequestTimer, `asked
      ensures Rec() == HubModel.ArmRequest(old(Rec()), reason)
      ensures attempt == snapshotRequestAttempt
    {
      pendingSnapshotReason := Some(Stronger(pendingSnapshotReason, reason));
      ClearTrimTimer();
      ClearSnapshotRetry(false);
      snapshotRequested := true;
      snapshotRequestAttempt := snapshotRequestAttempt + 1;
      attempt := snapshotRequestAttempt;
      snapshotRequestTimer := Some(attempt);
      asked := asked + [pendingSnapshotReason.value];
    }

    /** The listener loop; a listener that throws fails the attempt on the spot. */
    method NotifyListeners(attempt: nat, throws: seq<bool>)
      modifies `snapshotRequested, `snapshotRequestAttempt, `snapshotRequestTimer, `snapshotRetryTimer,
               `snapshotRetryDelayMs, `retries
      ensures Rec() == if true in throws then Fail(cfg, old(Rec()), attempt, docId, epoch) else old(Rec())
    {
      ghost var armed := Rec();
      var failed := false;
      for i := 0 to |throws|
        invariant failed <==> true in throws[..i]
        invariant Rec() == if failed then Fail(cfg, armed, attempt, docId, epoch) else armed
      {
        if throws[i] {
          FailTwice(cfg, armed, attempt, docId, epoch);
          FailSnapshotRequest(attempt);
          failed := true;
        }
        assert throws[..i + 1] == throws[..i] + [throws[i]];
      }
      assert throws[..|throws|] == throws;
    }

    method RequestTimerFires()
      requires Legal(cfg) && Inv(cfg, State()) && snapshotRequestTimer.Some?
      modifies this
      ensures State() == Apply(cfg, old(State()), Step.RequestTimerFires).0 && Inv(cfg, State())
    {
      StepKeepsInv(cfg, State(), Step.RequestTimerFires);
      FailSnapshotRequest(snapshotRequestTimer.value);
    }

    method RetryTimerFires(throws: seq<bool>)
      requires snapshotRetryTimer.Some?
      modifies this
      ensures State() == RetryFired(cfg, old(State()), throws)
    {
      var captured := snapshotRetryTimer.value;
      snapshotRetryTimer := None;
      if !hasDocument || docId != captured.docId || epoch != captured.epoch {
        return;
      }
      if snapshotRequested {
        return;
      }
      RequestSnapshot(captured.reason, throws);
    }

    method TrimTimerFires(now: int, throws: seq<bool>)
      requires Legal(cfg) && Inv(cfg, State()) && trimTimer.Some?
      modifies this
      ensures State() == Apply(cfg, old(State()), Step.TrimTimerFires(now, throws)).0 && Inv(cfg, State())
    {
      StepKeepsInv(cfg, State(), Step.TrimTimerFires(now, throws));
      trimTimer := None;
      MaybeRequestTrimSnapshot(now, throws);
    }

    method OpenPendingSnapshot(throws: seq<bool>) returns (downs: seq<Down>)
      modifies this
      ensures State() == OpenPending(cfg, old(State()), throws).0
      ensures downs == OpenPending(cfg, old(State()), throws).1
    {
      if pendingFullSnapshot.None? {
        return [];
      }
      if nextMeta.None? && meta.None? {
        return [];
      }
      downs := OpenReadyPair(throws);
    }

    method OpenReadyPair(throws: seq<bool>) returns (downs: seq<Down>)
      requires PairReady(Log())
      modifies this
      ensures State() == OpenPending(cfg, old(State()), throws).0
      ensures downs == OpenPending(cfg, old(State()), throws).1
    {
      var down := CommitSnapshot();
      SettleAndRequeue(throws);
      downs := [down];
    }

    /** The request is answered; a reason queued behind it starts the next one. */
    method SettleAndRequeue(throws: seq<bool>)
      modifies `snapshotRequested, `snapshotRequestAttempt, `snapshotRequestTimer, `snapshotRetryTimer,
               `snapshotRetryDelayMs, `trimTimer, `pendingSnapshotReason, `queuedSnapshotReason, `asked, `retries
      ensures Rec() == Requeue(cfg, old(Rec()), throws, docId, epoch)
    {
      var queuedReason := queuedSnapshotReason;
      SettleRecovery();
      if queuedReason.Some? {
        RequestSnapshot(queuedReason.value, throws);
      }
    }

    /** The pair becomes the canonical state and opens an epoch. */
    method CommitSnapshot() returns (down: Down)
      requires PairReady(Log())
      modifies `meta, `snapshot, `nextMeta, `pendingFullSnapshot, `deltas, `deltaBytes, `epoch, `seqNo, `snapshotSeq
      ensures Log() == Opened(old(Log()))
      ensures down == Opening(cfg, old(State()))
    {
      var reason := if pendingSnapshotReason.Some? then pendingSnapshotReason.value else Resync;
      meta := if nextMeta.Some? then nextMeta else meta;
      snapshot := pendingFullSnapshot;
      nextMeta, pendingFullSnapshot := None, None;
      deltas, deltaBytes := [], 0;
      epoch := epoch + 1;
      seqNo := seqNo + 1;
      snapshotSeq := seqNo;
      down := Snapshot(cfg.tab, epoch, snapshotSeq, [meta.value, snapshot.value], reason);
    }

    /** Disarm everything, forget why, and start the backoff chain over. */
    method SettleRecovery()
      modifies `snapshotRequested, `snapshotRequestAttempt, `snapshotRequestTimer, `snapshotRetryTimer,
               `snapshotRetryDelayMs, `trimTimer, `pendingSnapshotReason, `queuedSnapshotReason, `retries
      ensures Rec() == Settle(cfg, old(Rec()))
    {
      pendingSnapshotReason, queuedSnapshotReason := None, None;
      ClearTrimTimer();
      ClearSnapshotRetry(true);
      ClearSnapshotRequest();
      retries := 0;
    }

    method MaybeRequestTrimSnapshot(now: int, throws: seq<bool>)
      modifies this
      ensures State() == MaybeTrim(cfg, old(State()), now, throws)
    {
      var over := IsOverDeltaLimit();
      if !over || snapshotRequested {
        return;
      }
      if lastInputAt.None? || lastInputAt.value + cfg.trimIdleMs - now <= 0 {
        RequestSnapshot(Trim, throws);
        return;
      }
      ClearTrimTimer();
      trimTimer := Some(lastInputAt.value + cfg.trimIdleMs - now);
    }

    method IsOverDeltaLimit() returns (over: bool)
      ensures over == OverLimit(cfg, Log())
    {
      over := |deltas| > cfg.maxDeltaEvents || deltaBytes > cfg.maxDeltaBytes;
    }

    method ClearTrimTimer()
      modifies `trimTimer
      ensures trimTimer == None
    {
      trimTimer := None;
    }

    method FailSnapshotRequest(attempt: nat)
      modifies `snapshotRequested, `snapshotRequestAttempt, `snapshotRequestTimer, `snapshotRetryTimer,
               `snapshotRetryDelayMs, `retries
      ensures Rec() == Fail(cfg, old(Rec()), attempt, docId, epoch)
    {
      if !snapshotRequested || attempt != snapshotRequestAttempt {
        return;
      }
      var reason := pendingSnapshotReason;
      ClearSnapshotRequest();
      if reason == Some(Nav) || reason == Some(Resync) {
        ScheduleSnapshotRetry(reason.value);
      }
    }

    method ClearSnapshotRequest()
      modifies `snapshotRequested, `snapshotRequestAttempt, `snapshotRequestTimer
      ensures Rec() == ClearRequest(old(Rec()))
    {
      snapshotRequested := false;
      snapshotRequestAttempt := snapshotRequestAttempt + 1;
      snapshotRequestTimer := None;
    }

    method ScheduleSnapshotRetry(reason: SnapshotReason)
      modifies `snapshotRetryTimer, `snapshotRetryDelayMs, `retries
      ensures Rec() == ScheduleRetry(cfg, old(Rec()), reason, docId, epoch)
    {
      ClearSnapshotRetry(false);
      var delayMs := snapshotRetryDelayMs;
      snapshotRetryDelayMs := if delayMs >= (cfg.retryMaxMs + 1) / 2 then cfg.retryMaxMs else delayMs * 2;
      snapshotRetryTimer := Some(RetryTimer(reason, docId, epoch, delayMs));
      retries := retries + 1;
    }

    method ClearSnapshotRetry(resetBackoff: bool)
      modifies `snapshotRetryTimer, `snapshotRetryDelayMs
      ensures snapshotRetryTimer == None
      ensures snapshotRetryDelayMs == if resetBackoff then cfg.retryMs else old(snapshotRetryDelayMs)
    {
      snapshotRetryTimer := None;
      if resetBackoff {
        snapshotRetryDelayMs := cfg.retryMs;
      }
    }
  }
}
