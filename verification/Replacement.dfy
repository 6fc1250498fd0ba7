/**
 * What a mirror makes of the hub that replaces the one it followed. Epochs and numbers start over, and
 * the mirror, told nothing, judges the new hub's messages by the epoch and number it last saw.
 */
module Replacement {
  import opened Protocol
  import HubModel
  import MirrorModel
  import LinkModel
  import C = Convergence

  /** History of a hub: the number of its last opening, the pair that begun it and the events since. */
  datatype Trail = Trail(start: nat, pair: seq<Event>, since: seq<Event>)

  function NextTrail(t: Trail, downs: seq<Down>): Trail {
    if downs == [] then t
    else
      match downs[0]
      case Snapshot(_, _, first, data, _) => Trail(first, data, [])
      case Delta(_, _, _, data) => t.(since := t.since + data)
      case _ => t
  }

  ghost predicate Left(log: HubModel.Stream, t: Trail) {
    && log.seqNo == t.start + |t.since| && log.epoch <= t.start
    && (log.epoch == 0 ==> t.start == 0 && t.since == [])
    && (log.snapshot.Some? ==> log.meta.Some? && log.snapshotSeq == t.start && log.deltas == t.since
                               && t.pair == [log.meta.value, log.snapshot.value])
  }

  datatype Verdict = Agrees | Asks | Silent

  /**
   * What becomes of a mirror left at number `n` of epoch `e`. It agrees once the new hub's epochs pass
   * `e`, or one opens after a delta that did not fit. Until then it ignores every snapshot, and the first
   * delta either does not fit, or happens to be numbered `n + 1` in epoch `e`.
   */
  function Judge(e: nat, n: nat, epoch: nat, t: Trail): Verdict {
    if epoch > e || t.start > epoch then Agrees
    else if t.since == [] || (e == epoch && n == epoch) then Silent
    else Asks
  }

  ghost predicate Outcome(was: MirrorModel.Live, epoch: nat, t: Trail, m: MirrorModel.State) {
    && m.activeTab == Some(was.tab)
    && match Judge(was.epoch, was.lastSeq, epoch, t)
       case Agrees =>
         !m.resyncRequested && m.live == Some(MirrorModel.Live(was.tab, epoch, t.start + |t.since|, t.pair + t.since))
       case Asks => m.resyncRequested && m.live == Some(was)
       case Silent =>
         !m.resyncRequested
         && m.live == Some(MirrorModel.Live(was.tab, was.epoch, was.lastSeq + |t.since|, was.applied + t.since))
  }

  lemma StepLeaves(c: HubModel.Config, s: HubModel.State, h: HubModel.Step, t: Trail)
    requires HubModel.Legal(c) && HubModel.Inv(c, s) && HubModel.Enabled(s, h) && Left(s.log, t)
    ensures var (next, downs) := HubModel.Apply(c, s, h); Left(next.log, NextTrail(t, downs))
  {
    HubModel.StepAdvances(c, s, h);
    HubModel.StepShape(c, s, h);
    HubModel.StepKeepsInv(c, s, h);
  }

  lemma SnapshotOutcome(was: MirrorModel.Live, epoch: nat, t: Trail, m: MirrorModel.State, msg: Down)
    requires Outcome(was, epoch, t, m) && epoch <= t.start && (epoch == 0 ==> t.start == 0 && t.since == [])
    requires msg.Snapshot? && msg.tab == was.tab && msg.epoch == epoch + 1 && msg.first == t.start + |t.since| + 1
    ensures Outcome(was, epoch + 1, NextTrail(t, [msg]), MirrorModel.Handle(m, msg, MirrorModel.Works))
  {
    assert msg.data + [] == msg.data;
    assert was.applied + [] == was.applied;
  }

  lemma DeltaOutcome(was: MirrorModel.Live, epoch: nat, t: Trail, m: MirrorModel.State, msg: Down)
    requires Outcome(was, epoch, t, m) && 1 <= epoch <= t.start
    requires msg.Delta? && msg.tab == was.tab && msg.epoch == epoch && msg.first == t.start + |t.since| + 1 && |msg.data| == 1
    ensures Outcome(was, epoch, NextTrail(t, [msg]), MirrorModel.Handle(m, msg, MirrorModel.Works))
  {
    assert t.pair + t.since + msg.data == t.pair + (t.since + msg.data);
    assert was.applied + t.since + msg.data == was.applied + (t.since + msg.data);
    assert was.applied + [] == was.applied;
  }

  lemma StepOutcome(c: HubModel.Config, s: HubModel.State, h: HubModel.Step, t: Trail, was: MirrorModel.Live, m: MirrorModel.State)
    requires HubModel.Legal(c) && HubModel.Inv(c, s) && HubModel.Enabled(s, h) && Left(s.log, t)
    requires was.tab == c.tab && Outcome(was, s.log.epoch, t, m)
    ensures var (next, downs) := HubModel.Apply(c, s, h);
      Outcome(was, next.log.epoch, NextTrail(t, downs), MirrorModel.HandleAll(m, downs))
  {
    var (next, downs) := HubModel.Apply(c, s, h);
    HubModel.StepAdvances(c, s, h);
    HubModel.StepShape(c, s, h);
    if downs != [] {
      assert downs == [downs[0]] && downs[1..] == [];
      assert MirrorModel.HandleAll(m, downs) == MirrorModel.Handle(m, downs[0], MirrorModel.Works);
      if downs[0].Snapshot? {
        SnapshotOutcome(was, s.log.epoch, t, m, downs[0]);
      } else {
        DeltaOutcome(was, s.log.epoch, t, m, downs[0]);
      }
    }
  }

  lemma {:induction false} HandleAllAppends(m: MirrorModel.State, a: seq<Down>, b: seq<Down>)
    ensures MirrorModel.HandleAll(m, a + b) == MirrorModel.HandleAll(MirrorModel.HandleAll(m, a), b)
    decreases |a|
  {
    if a == [] {
      assert a + b == b;
    } else {
      assert (a + b)[1..] == a[1..] + b;
      HandleAllAppends(MirrorModel.Handle(m, a[0], MirrorModel.Works), a[1..], b);
    }
  }

  lemma {:induction false} RunOutcome(c: HubModel.Config, s: HubModel.State, run: seq<HubModel.Step>, t: Trail, was: MirrorModel.Live, m: MirrorModel.State)
    returns (left: Trail)
    requires HubModel.Legal(c) && HubModel.Inv(c, s) && HubModel.Possible(c, s, run) && Left(s.log, t)
    requires was.tab == c.tab && Outcome(was, s.log.epoch, t, m)
    ensures var hub := HubModel.After(c, s, run);
      Left(hub.log, left) && Outcome(was, hub.log.epoch, left, MirrorModel.HandleAll(m, HubModel.Emitted(c, s, run)))
    decreases |run|
  {
    if run == [] {
      left := t;
    } else {
      var (next, downs) := HubModel.Apply(c, s, run[0]);
      HubModel.StepKeepsInv(c, s, run[0]);
      StepLeaves(c, s, run[0], t);
      StepOutcome(c, s, run[0], t, was, m);
      left := RunOutcome(c, next, run[1..], NextTrail(t, downs), was, MirrorModel.HandleAll(m, downs));
      HandleAllAppends(m, downs, HubModel.Emitted(c, next, run[1..]));
    }
  }

  /** The new hub has begun epochs only, none past `e`, and its deltas, if any, began where the mirror stood. */
  predicate Unnoticed(log: HubModel.Stream, e: nat, n: nat) {
    log.snapshotSeq == log.epoch <= e && (log.deltas == [] || (e == log.epoch && n == log.epoch))
  }

  /** As before, but the first delta did not fit. */
  predicate Noticed(log: HubModel.Stream, e: nat, n: nat) {
    log.snapshotSeq == log.epoch <= e && log.deltas != [] && !(e == log.epoch && n == log.epoch)
  }

  ghost predicate HasAll(c: HubModel.Config, log: HubModel.Stream, m: MirrorModel.State)
    requires log.snapshot.Some? && log.meta.Some?
  {
    m.live == Some(MirrorModel.Live(c.tab, log.epoch, log.seqNo, [log.meta.value, log.snapshot.value] + log.deltas))
  }

  /**
   * The exact condition under which agreement survives a replacement, for everything a new hub can do.
   * A mirror left at number `n` of epoch `e` that is given every message of the new hub in order has the
   * new hub's whole document, or has asked for it, or has noticed nothing; and which of the three is
   * decided by `e` and `n` against the new hub's epoch, the number that begun it and its deltas.
   */
  lemma ReplacementOutcome(c: HubModel.Config, run: seq<HubModel.Step>, m: MirrorModel.State)
    requires HubModel.Legal(c) && HubModel.Possible(c, HubModel.Initial(c), run)
    requires m.activeTab == Some(c.tab) && m.live.Some? && m.live.value.tab == c.tab && !m.resyncRequested
    requires HubModel.After(c, HubModel.Initial(c), run).log.snapshot.Some?
    ensures var log := HubModel.After(c, HubModel.Initial(c), run).log;
      var after := MirrorModel.HandleAll(m, HubModel.Emitted(c, HubModel.Initial(c), run));
      var was := m.live.value;
      && log.meta.Some?
      && (after.resyncRequested <==> Noticed(log, was.epoch, was.lastSeq))
      && (!after.resyncRequested ==>
            if Unnoticed(log, was.epoch, was.lastSeq) then
              after.live == Some(MirrorModel.Live(was.tab, was.epoch, was.lastSeq + |log.deltas|, was.applied + log.deltas))
            else HasAll(c, log, after))
  {
    HubModel.InitialInv(c);
    var was := m.live.value;
    assert was.applied + [] == was.applied;
    var left := RunOutcome(c, HubModel.Initial(c), run, Trail(0, [], []), was, m);
  }

  // ---- In the system ----

  /** Connected, drained and flushed, with nothing lost. */
  ghost predicate Playing(w: C.World, s: C.Sys) {
    C.Inv(w, s) && C.Latest(w, s) && s.phase.Open? && s.chan == [] && w.cfg.tab !in s.pending
  }

  lemma {:induction false} RunConcat(w: C.World, s: C.Sys, a: seq<C.Step>, b: seq<C.Step>)
    requires C.Possible(w, s, a) && C.Possible(w, C.After(w, s, a), b)
    ensures C.Possible(w, s, a + b) && C.After(w, s, a + b) == C.After(w, C.After(w, s, a), b)
    decreases |a|
  {
    if a == [] {
      assert a + b == b;
    } else {
      assert (a + b)[0] == a[0] && (a + b)[1..] == a[1..] + b;
      RunConcat(w, C.Apply(w, s, a[0]), a[1..], b);
    }
  }

  lemma OneStep(w: C.World, s: C.Sys, step: C.Step)
    requires C.Enabled(w, s, step)
    ensures C.Possible(w, s, [step]) && C.After(w, s, [step]) == C.Apply(w, s, step)
  {
    assert [step][1..] == [];
    assert C.Possible(w, C.Apply(w, s, step), []);
  }

  lemma AddStep(w: C.World, s: C.Sys, run: seq<C.Step>, step: C.Step)
    requires C.Possible(w, s, run) && C.Enabled(w, C.After(w, s, run), step)
    ensures C.Possible(w, s, run + [step]) && C.After(w, s, run + [step]) == C.Apply(w, C.After(w, s, run), step)
  {
    OneStep(w, C.After(w, s, run), step);
    RunConcat(w, s, run, [step]);
  }

  lemma PublishedSnapshot(w: C.World, s: C.Sys, msg: Down)
    requires msg.Snapshot? && msg.tab == w.cfg.tab && msg.tab !in s.pending && s.phase.Open?
    ensures var t := C.Publish(w, s, msg);
      t.chan == s.chan + [msg] && t.phase.Open? && t.mirror == s.mirror && t.hub == s.hub && t.pending == s.pending
  {
    C.PublishNowShape(w, s, msg);
    assert s.(pending := s.pending) == s;
  }

  lemma PublishedDelta(w: C.World, s: C.Sys, msg: Down)
    requires msg.Delta? && msg.data != [] && msg.tab !in s.pending
    ensures C.Publish(w, s, msg) == s.(pending := s.pending[msg.tab := msg])
  {}

  lemma FlushedDelta(w: C.World, s: C.Sys, msg: Down)
    requires C.Calm(w) && s.phase.Open? && !s.conn.stalled && !s.oldBatch
    requires msg.Delta? && msg.tab == w.cfg.tab && msg.tab in s.pending && s.pending[msg.tab] == msg
    requires !LinkModel.AlreadyReplayed(s.conn, msg)
    ensures var t := C.Apply(w, s, C.FlushTimer(msg.tab));
      t.chan == s.chan + [msg] && t.phase.Open? && t.mirror == s.mirror && t.hub == s.hub && t.pending == s.pending - {msg.tab}
  {
    assert [msg][1..] == [];
    assert !w.choice(s.ticks).drop && w.choice(s.ticks).buffered <= LinkModel.STALL_BYTES;
    var s1 := s.(pending := s.pending - {msg.tab});
    assert C.BroadcastAll(w, s1, [msg]) == C.Broadcast(w, s1, msg);
  }

  lemma DeliveredOne(w: C.World, s: C.Sys, msg: Down)
    requires HubModel.Legal(w.cfg) && C.Calm(w) && C.Inv(w, s) && C.Latest(w, s)
    requires s.phase.Open? && s.chan == [msg] && w.cfg.tab !in s.pending
    ensures var t := C.Apply(w, s, C.Deliver(MirrorModel.Works));
      Playing(w, t) && t.hub == s.hub && t.mirror == MirrorModel.HandleAll(s.mirror, [msg])
  {
    var deliver := C.Deliver(MirrorModel.Works);
    C.StepKeepsInv(w, s, deliver);
    C.StepKeepsLatest(w, s, deliver);
    assert [msg][1..] == [];
    assert MirrorModel.HandleAll(s.mirror, [msg]) == MirrorModel.Handle(s.mirror, msg, MirrorModel.Works);
  }

  /** A hub step, shown, flushed and delivered: the mirror gets exactly what the hub said. */
  lemma PlayStep(w: C.World, s: C.Sys, h: HubModel.Step) returns (run: seq<C.Step>)
    requires HubModel.Legal(w.cfg) && C.Calm(w) && Playing(w, s) && HubModel.Enabled(s.hub, h)
    ensures C.Possible(w, s, run)
    ensures var t := C.After(w, s, run); var (hub, downs) := HubModel.Apply(w.cfg, s.hub, h);
      Playing(w, t) && t.hub == hub && t.mirror == MirrorModel.HandleAll(s.mirror, downs)
  {
    var step := C.HubStep(h, true);
    var downs := HubModel.Apply(w.cfg, s.hub, h).1;
    C.StepKeepsInv(w, s, step);
    C.HubStepKeepsLatest(w, s, h);
    C.HubStepLogs(w, s.hub, s.logs, h);
    OneStep(w, s, step);
    run := [step];
    if downs == [] {
      PlaySilence(w, s, h);
    } else {
      assert downs == [downs[0]];
      if downs[0].Snapshot? {
        PlaySnapshot(w, s, h);
      } else {
        PlayDelta(w, s, h);
        AddStep(w, s, run, C.FlushTimer(w.cfg.tab));
        run := run + [C.FlushTimer(w.cfg.tab)];
      }
      AddStep(w, s, run, C.Deliver(MirrorModel.Works));
      run := run + [C.Deliver(MirrorModel.Works)];
    }
  }

  lemma PlaySilence(w: C.World, s: C.Sys, h: HubModel.Step)
    requires HubModel.Enabled(s.hub, h) && HubModel.Apply(w.cfg, s.hub, h).1 == []
    ensures C.Apply(w, s, C.HubStep(h, true)) == s.(hub := HubModel.Apply(w.cfg, s.hub, h).0)
  {
    C.PublishAtMostOne(w, C.Recorded(w, s, h), []);
  }

  lemma PlaySnapshot(w: C.World, s: C.Sys, h: HubModel.Step)
    requires HubModel.Legal(w.cfg) && C.Calm(w) && Playing(w, s) && HubModel.Enabled(s.hub, h)
    requires var downs := HubModel.Apply(w.cfg, s.hub, h).1; |downs| == 1 && downs[0].Snapshot? && downs[0].tab == w.cfg.tab
    requires var s1 := C.Apply(w, s, C.HubStep(h, true)); C.Inv(w, s1) && C.Latest(w, s1)
    ensures var (hub, downs) := HubModel.Apply(w.cfg, s.hub, h); var s1 := C.Apply(w, s, C.HubStep(h, true));
      C.Enabled(w, s1, C.Deliver(MirrorModel.Works))
      && var t := C.Apply(w, s1, C.Deliver(MirrorModel.Works));
         Playing(w, t) && t.hub == hub && t.mirror == MirrorModel.HandleAll(s.mirror, [downs[0]])
  {
    var downs := HubModel.Apply(w.cfg, s.hub, h).1;
    var recorded := C.Recorded(w, s, h);
    C.PublishAtMostOne(w, recorded, downs);
    PublishedSnapshot(w, recorded, downs[0]);
    assert [] + [downs[0]] == [downs[0]];
    DeliveredOne(w, C.Apply(w, s, C.HubStep(h, true)), downs[0]);
  }

  lemma NotReplayed(w: C.World, s: C.Sys, h: HubModel.Step)
    requires HubModel.Legal(w.cfg) && Playing(w, s) && HubModel.Enabled(s.hub, h)
    requires var downs := HubModel.Apply(w.cfg, s.hub, h).1; |downs| == 1 && downs[0].Delta? && downs[0].tab == w.cfg.tab
    ensures !LinkModel.AlreadyReplayed(s.conn, HubModel.Apply(w.cfg, s.hub, h).1[0])
  {
    HubModel.StepShape(w.cfg, s.hub, h);
    HubModel.StepAdvances(w.cfg, s.hub, h);
    assert C.AtHub(s, s.tail);
  }

  lemma PlayDelta(w: C.World, s: C.Sys, h: HubModel.Step)
    requires HubModel.Legal(w.cfg) && C.Calm(w) && Playing(w, s) && HubModel.Enabled(s.hub, h)
    requires var downs := HubModel.Apply(w.cfg, s.hub, h).1;
      |downs| == 1 && downs[0].Delta? && downs[0].data != [] && downs[0].tab == w.cfg.tab
    requires var s1 := C.Apply(w, s, C.HubStep(h, true)); C.Inv(w, s1) && C.Latest(w, s1)
    ensures var (hub, downs) := HubModel.Apply(w.cfg, s.hub, h);
      var s2 := C.Apply(w, C.Apply(w, s, C.HubStep(h, true)), C.FlushTimer(w.cfg.tab));
      C.Enabled(w, s2, C.Deliver(MirrorModel.Works))
      && var t := C.Apply(w, s2, C.Deliver(MirrorModel.Works));
         Playing(w, t) && t.hub == hub && t.mirror == MirrorModel.HandleAll(s.mirror, [downs[0]])
  {
    var downs := HubModel.Apply(w.cfg, s.hub, h).1;
    var recorded, s1 := C.Recorded(w, s, h), C.Apply(w, s, C.HubStep(h, true));
    NotReplayed(w, s, h);
    C.PublishAtMostOne(w, recorded, downs);
    PublishedDelta(w, recorded, downs[0]);
    assert s1 == recorded.(pending := s.pending[w.cfg.tab := downs[0]]);
    C.FlushTabKeepsLatest(w, s1);
    C.FlushKeepsInv(w, s1, w.cfg.tab);
    FlushedDelta(w, s1, downs[0]);
    var s2 := C.Apply(w, s1, C.FlushTimer(w.cfg.tab));
    assert [] + [downs[0]] == [downs[0]];
    DeliveredOne(w, s2, downs[0]);
  }

  /** Whatever a hub does can be played to the mirror without loss. */
  lemma {:induction false} PlayRun(w: C.World, s: C.Sys, hubRun: seq<HubModel.Step>) returns (run: seq<C.Step>)
    requires HubModel.Legal(w.cfg) && C.Calm(w) && Playing(w, s) && HubModel.Possible(w.cfg, s.hub, hubRun)
    ensures C.Possible(w, s, run)
    ensures var t := C.After(w, s, run);
      && Playing(w, t) && t.hub == HubModel.After(w.cfg, s.hub, hubRun)
      && t.mirror == MirrorModel.HandleAll(s.mirror, HubModel.Emitted(w.cfg, s.hub, hubRun))
    decreases |hubRun|
  {
    if hubRun == [] {
      run := [];
    } else {
      var first := PlayStep(w, s, hubRun[0]);
      var rest := PlayRun(w, C.After(w, s, first), hubRun[1..]);
      RunConcat(w, s, first, rest);
      run := first + rest;
      HandleAllAppends(s.mirror, HubModel.Apply(w.cfg, s.hub, hubRun[0]).1,
                       HubModel.Emitted(w.cfg, HubModel.Apply(w.cfg, s.hub, hubRun[0]).0, hubRun[1..]));
    }
  }

  /**
   * The same condition decides in the running system. From any connected, drained and flushed moment at
   * which the mirror asks for nothing, replace the hub and play to the mirror whatever the new one does:
   * it comes to agree with the new hub, or asks, or, exactly as `Unnoticed` says, does neither.
   */
  lemma ReplacementPlayed(w: C.World, s: C.Sys, hubRun: seq<HubModel.Step>) returns (run: seq<C.Step>)
    requires HubModel.Legal(w.cfg) && C.Calm(w) && Playing(w, s) && C.Quiet(w, s)
    requires HubModel.Possible(w.cfg, HubModel.Initial(w.cfg), hubRun)
    requires HubModel.After(w.cfg, HubModel.Initial(w.cfg), hubRun).log.snapshot.Some?
    ensures C.Possible(w, s, [C.ReplaceHub] + run)
    ensures var t := C.After(w, s, [C.ReplaceHub] + run); var log := t.hub.log; var was := s.mirror.live.value;
      && t.hub == HubModel.After(w.cfg, HubModel.Initial(w.cfg), hubRun)
      && Playing(w, t) && C.AtHub(t, t.tail) && log.meta.Some?
      && (t.mirror.resyncRequested <==> Noticed(log, was.epoch, was.lastSeq))
      && (!t.mirror.resyncRequested ==> C.Quiet(w, t))
      && (!t.mirror.resyncRequested && !Unnoticed(log, was.epoch, was.lastSeq) ==> C.AgreesWithHub(w, t))
      && (Unnoticed(log, was.epoch, was.lastSeq) ==> t.mirror.live.Some? && t.mirror.live.value.applied == was.applied + log.deltas)
  {
    var s1 := C.Apply(w, s, C.ReplaceHub);
    C.StepKeepsInv(w, s, C.ReplaceHub);
    C.StepKeepsLatest(w, s, C.ReplaceHub);
    run := PlayRun(w, s1, hubRun);
    OneStep(w, s, C.ReplaceHub);
    RunConcat(w, s, [C.ReplaceHub], run);
    ReplacementOutcome(w.cfg, hubRun, s.mirror);
  }

  // ---- A replacement that goes unnoticed ----

  /** A viewer that joins before there is a document. */
  lemma JoinsEarly(w: C.World) returns (run: seq<C.Step>)
    requires HubModel.Legal(w.cfg) && C.Calm(w)
    ensures C.Possible(w, C.Start(w), run)
    ensures var t := C.After(w, C.Start(w), run);
      Playing(w, t) && t.hub == HubModel.Initial(w.cfg) && t.mirror.activeTab == Some(w.cfg.tab) && t.mirror.resyncRequested
  {
    var s0 := C.Start(w);
    C.StartInv(w);
    var connect, deliver := C.Connect([], []), C.Deliver(MirrorModel.Works);
    var s1 := C.Apply(w, s0, connect);
    C.StepKeepsInv(w, s0, connect);
    C.StepKeepsLatest(w, s0, connect);
    var notice := ResyncNotice(w.cfg.tab);
    assert s1.chan == [notice] by { assert [] + [notice] + [] == [notice]; }
    var s2 := C.Apply(w, s1, C.ClientOpens);
    C.StepKeepsInv(w, s1, C.ClientOpens);
    C.StepKeepsLatest(w, s1, C.ClientOpens);
    DeliveredOne(w, s2, notice);
    OneStep(w, s0, connect);
    run := [connect];
    AddStep(w, s0, run, C.ClientOpens);
    run := run + [C.ClientOpens];
    AddStep(w, s0, run, deliver);
    run := run + [deliver];
  }

  /** The page says hello, then its meta and full snapshot. */
  function Document(docId: nat, meta: Event, full: Event): seq<HubModel.Step> {
    [HubModel.DoIngest(AgentHello(docId, true), 0, []), HubModel.DoIngest(Rrweb(docId, meta), 0, []),
     HubModel.DoIngest(Rrweb(docId, full), 0, [])]
  }

  lemma HubUnfolds(c: HubModel.Config, s: HubModel.State, step: HubModel.Step, rest: seq<HubModel.Step>)
    requires HubModel.Enabled(s, step) && HubModel.Possible(c, HubModel.Apply(c, s, step).0, rest)
    ensures var t := HubModel.Apply(c, s, step).0; var run := [step] + rest;
      && HubModel.Possible(c, s, run) && HubModel.After(c, s, run) == HubModel.After(c, t, rest)
      && HubModel.Emitted(c, s, run) == HubModel.Apply(c, s, step).1 + HubModel.Emitted(c, t, rest)
  {
    assert ([step] + rest)[1..] == rest;
  }

  /** A new hub's first document opens epoch 1 with number 1. */
  lemma DocumentOpens(c: HubModel.Config, docId: nat, meta: Event, full: Event, rest: seq<HubModel.Step>)
    returns (begun: HubModel.State, msg: Down)
    requires meta.kind.Meta? && full.kind.FullSnapshot?
    requires forall s: HubModel.State :: HubModel.Possible(c, s, rest)
    ensures var s := HubModel.Initial(c); var run := Document(docId, meta, full) + rest;
      && HubModel.Possible(c, s, run) && HubModel.After(c, s, run) == HubModel.After(c, begun, rest)
      && HubModel.Emitted(c, s, run) == [msg] + HubModel.Emitted(c, begun, rest)
    ensures msg.Snapshot? && msg.tab == c.tab && msg.epoch == 1 && msg.first == 1 && msg.data == [meta, full]
    ensures var log := begun.log;
      && log.epoch == 1 && log.seqNo == 1 && log.snapshotSeq == 1 && log.deltas == [] && log.hasDocument && log.docId == docId
      && log.meta == Some(meta) && log.snapshot == Some(full)
  {
    var s := HubModel.Initial(c);
    var steps := Document(docId, meta, full);
    var s1 := HubModel.Apply(c, s, steps[0]).0;
    var s2 := HubModel.Apply(c, s1, steps[1]).0;
    var (s3, downs) := HubModel.Apply(c, s2, steps[2]);
    assert HubModel.Apply(c, s, steps[0]).1 == [] && HubModel.Apply(c, s1, steps[1]).1 == [];
    begun, msg := s3, downs[0];
    HubUnfolds(c, s2, steps[2], rest);
    HubUnfolds(c, s1, steps[1], [steps[2]] + rest);
    HubUnfolds(c, s, steps[0], [steps[1]] + ([steps[2]] + rest));
    assert steps + rest == [steps[0]] + ([steps[1]] + ([steps[2]] + rest));
  }

  lemma FirstDelta(c: HubModel.Config, s: HubModel.State, docId: nat, e: Event)
    requires e.kind.Incremental? && s.log.hasDocument && s.log.docId == docId && s.log.meta.Some? && s.log.snapshot.Some?
    ensures var step := HubModel.DoIngest(Rrweb(docId, e), 0, []); var t := HubModel.After(c, s, [step]).log;
      && t.epoch == s.log.epoch && t.snapshotSeq == s.log.snapshotSeq && t.deltas == s.log.deltas + [e]
      && t.meta == s.log.meta && t.snapshot == s.log.snapshot
  {
    var step := HubModel.DoIngest(Rrweb(docId, e), 0, []);
    assert [step][1..] == [];
    var t := HubModel.Apply(c, s, step).0;
    assert HubModel.After(c, s, [step]) == HubModel.After(c, t, []) == t;
  }

  /**
   * Nothing is lost, the socket is drained, the last message was the hub's latest and the mirror asks for
   * nothing; yet it shows the first page with an event of the second. It had followed one snapshot of the
   * first hub, and the second hub's first delta carries the very number it waits for.
   */
  lemma ReplacementGoesUnnoticed(w: C.World, meta: Event, full: Event, full': Event, e: Event) returns (run: seq<C.Step>)
    requires HubModel.Legal(w.cfg) && C.Calm(w)
    requires meta.kind.Meta? && full.kind.FullSnapshot? && full'.kind.FullSnapshot? && e.kind.Incremental? && full != full'
    ensures C.Possible(w, C.Start(w), run)
    ensures var t := C.After(w, C.Start(w), run);
      C.Quiet(w, t) && w.cfg.tab !in t.pending && t.hub.log.snapshot.Some? && t.hub.log.meta.Some?
      && C.AtHub(t, t.tail) && !C.AgreesWithHub(w, t)
  {
    var watch := FirstPage(w, meta, full);
    var s := C.After(w, C.Start(w), watch);
    var delta := [HubModel.DoIngest(Rrweb(2, e), 0, [])];
    var begun, msg := DocumentOpens(w.cfg, 2, meta, full', delta);
    FirstDelta(w.cfg, begun, 2, e);
    assert begun.log.deltas + [e] == [e];
    var rest := ReplacementPlayed(w, s, Document(2, meta, full') + delta);
    RunConcat(w, C.Start(w), watch, [C.ReplaceHub] + rest);
    run := watch + ([C.ReplaceHub] + rest);
    var t := C.After(w, C.Start(w), run);
    assert t.mirror.live.value.applied[1] == full;
    assert ([meta, full'] + t.hub.log.deltas)[1] == full';
  }

  /** A run without loss after which the mirror follows the first document's opening. */
  lemma FirstPage(w: C.World, meta: Event, full: Event) returns (run: seq<C.Step>)
    requires HubModel.Legal(w.cfg) && C.Calm(w) && meta.kind.Meta? && full.kind.FullSnapshot?
    ensures C.Possible(w, C.Start(w), run)
    ensures var t := C.After(w, C.Start(w), run);
      Playing(w, t) && C.Quiet(w, t) && t.mirror.live == Some(MirrorModel.Live(w.cfg.tab, 1, 1, [meta, full]))
  {
    var join := JoinsEarly(w);
    var s := C.After(w, C.Start(w), join);
    var begun, msg := DocumentOpens(w.cfg, 1, meta, full, []);
    assert Document(1, meta, full) + [] == Document(1, meta, full) && [msg] + [] == [msg];
    var watch := PlayRun(w, s, Document(1, meta, full));
    RunConcat(w, C.Start(w), join, watch);
    run := join + watch;
    assert [msg][1..] == [];
    assert MirrorModel.HandleAll(s.mirror, [msg]) == MirrorModel.Handle(s.mirror, msg, MirrorModel.Works);
  }
}
