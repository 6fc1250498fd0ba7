/** The queue between a target's agent and its consumer: every call of `next` is a numbered ticket. */
module QueueModel {
  import opened Protocol

  datatype Answer<T> = Value(value: T) | Done | Failed(error: string)

  datatype Queue<T> = Queue(
    queued: seq<T>,
    waiters: seq<nat>,
    ended: bool,
    failure: Option<string>,
    tickets: nat,
    answers: map<nat, Answer<T>>)

  function Empty<T>(): Queue<T> {
    Queue([], [], false, None, 0, map[])
  }

  function Push<T>(q: Queue<T>, value: T): Queue<T> {
    if q.ended then q
    else if q.waiters == [] then q.(queued := q.queued + [value])
    else q.(waiters := q.waiters[1..], answers := q.answers[q.waiters[0] := Value(value)])
  }

  /** Every ticket still waiting gets the same answer. */
  function AnswerAll<T>(answers: map<nat, Answer<T>>, waiters: seq<nat>, a: Answer<T>): map<nat, Answer<T>>
    decreases |waiters|
  {
    if waiters == [] then answers else AnswerAll(answers[waiters[0] := a], waiters[1..], a)
  }

  function Close<T>(q: Queue<T>): Queue<T> {
    if q.ended then q else q.(ended := true, waiters := [], answers := AnswerAll(q.answers, q.waiters, Done))
  }

  function Fail<T>(q: Queue<T>, error: string): Queue<T> {
    if q.ended then q
    else q.(ended := true, failure := Some(error), waiters := [], answers := AnswerAll(q.answers, q.waiters, Failed(error)))
  }

  function Next<T>(q: Queue<T>): Queue<T> {
    var t := q.tickets;
    if q.queued != [] then q.(queued := q.queued[1..], tickets := t + 1, answers := q.answers[t := Value(q.queued[0])])
    else if q.failure.Some? then q.(tickets := t + 1, answers := q.answers[t := Failed(q.failure.value)])
    else if q.ended then q.(tickets := t + 1, answers := q.answers[t := Done])
    else q.(tickets := t + 1, waiters := q.waiters + [t])
  }

  datatype Op<T> = DoPush(value: T) | DoNext | DoClose | DoFail(error: string)

  function Do<T>(q: Queue<T>, op: Op<T>): Queue<T> {
    match op
    case DoPush(v) => Push(q, v)
    case DoNext => Next(q)
    case DoClose => Close(q)
    case DoFail(e) => Fail(q, e)
  }

  function Run<T>(ops: seq<Op<T>>): Queue<T> {
    if ops == [] then Empty() else Do(Run(ops[..|ops| - 1]), ops[|ops| - 1])
  }

  /** How the stream ended: nothing yet, `Done`, or the first failure. */
  function Ending<T>(ops: seq<Op<T>>): Option<Answer<T>> {
    if ops == [] then None
    else
      var before, last := ops[..|ops| - 1], ops[|ops| - 1];
      if Ending(before).Some? then Ending(before)
      else if last.DoClose? then Some(Done)
      else if last.DoFail? then Some(Failed(last.error))
      else None
  }

  /** What was pushed before the stream ended. */
  function Pushed<T>(ops: seq<Op<T>>): seq<T> {
    if ops == [] then []
    else
      var before, last := ops[..|ops| - 1], ops[|ops| - 1];
      Pushed(before) + (if last.DoPush? && Ending(before).None? then [last.value] else [])
  }

  function Asked<T>(ops: seq<Op<T>>): nat {
    if ops == [] then 0 else Asked(ops[..|ops| - 1]) + (if ops[|ops| - 1].DoNext? then 1 else 0)
  }

  /** The k-th `next` gets the k-th value, then the ending; until either exists it waits. */
  ghost predicate Refines<T>(q: Queue<T>, pushed: seq<T>, ending: Option<Answer<T>>, asked: nat) {
    var served := Min(|pushed|, asked);
    && q.tickets == asked && (q.ended <==> ending.Some?)
    && q.failure == (if ending.Some? && ending.value.Failed? then Some(ending.value.error) else None)
    && (ending.Some? ==> !ending.value.Value?)
    && q.queued == pushed[served..]
    && q.waiters == (if q.ended then [] else seq(asked - served, i => served + i))
    && (forall k: nat :: k in q.answers <==> k < asked && (k < |pushed| || q.ended))
    && (forall k :: k in q.answers ==> q.answers[k] == if k < |pushed| then Value(pushed[k]) else ending.value)
  }

  lemma {:induction false} AnswerAllAnswers<T>(answers: map<nat, Answer<T>>, waiters: seq<nat>, a: Answer<T>)
    ensures forall k: nat :: k in AnswerAll(answers, waiters, a) <==> k in answers || k in waiters
    ensures forall k: nat :: k in AnswerAll(answers, waiters, a) ==>
      AnswerAll(answers, waiters, a)[k] == if k in waiters then a else answers[k]
    decreases |waiters|
  {
    if waiters != [] {
      var next := answers[waiters[0] := a];
      var r := AnswerAll(answers, waiters, a);
      AnswerAllAnswers(next, waiters[1..], a);
      assert r == AnswerAll(next, waiters[1..], a);
      forall k: nat
        ensures k in waiters <==> k == waiters[0] || k in waiters[1..]
      {
        assert waiters == [waiters[0]] + waiters[1..];
      }
      forall k: nat
        ensures k in r <==> k in answers || k in waiters
        ensures k in r ==> r[k] == if k in waiters then a else answers[k]
      {
        assert k in next <==> k in answers || k == waiters[0];
      }
    }
  }

  lemma PushRefines<T>(q: Queue<T>, pushed: seq<T>, ending: Option<Answer<T>>, asked: nat, value: T)
    requires Refines(q, pushed, ending, asked)
    ensures Refines(Push(q, value), if q.ended then pushed else pushed + [value], ending, asked)
  {
    if !q.ended && q.waiters != [] {
      assert q.waiters[0] == |pushed|;
      assert q.waiters[1..] == seq(asked - |pushed| - 1, i => |pushed| + 1 + i);
    }
  }

  lemma NextRefines<T>(q: Queue<T>, pushed: seq<T>, ending: Option<Answer<T>>, asked: nat)
    requires Refines(q, pushed, ending, asked)
    ensures Refines(Next(q), pushed, ending, asked + 1)
  {}

  lemma EndRefines<T>(q: Queue<T>, pushed: seq<T>, ending: Option<Answer<T>>, asked: nat, a: Answer<T>)
    requires Refines(q, pushed, ending, asked) && !a.Value?
    ensures Refines(if a.Done? then Close(q) else Fail(q, a.error), pushed, if ending.Some? then ending else Some(a), asked)
  {
    AnswerAllAnswers(q.answers, q.waiters, a);
    if !q.ended {
      var served := Min(|pushed|, asked);
      forall k: nat
        ensures k in q.waiters <==> served <= k < asked
      {
        if served <= k < asked { assert q.waiters[k - served] == k; }
      }
    }
  }

  lemma OpRefines<T>(q: Queue<T>, pushed: seq<T>, ending: Option<Answer<T>>, asked: nat, op: Op<T>)
    requires Refines(q, pushed, ending, asked)
    ensures Refines(Do(q, op),
                    if op.DoPush? && ending.None? then pushed + [op.value] else pushed,
                    if ending.Some? then ending else if op.DoClose? then Some(Done)
                    else if op.DoFail? then Some(Failed(op.error)) else None,
                    asked + if op.DoNext? then 1 else 0)
  {
    match op
    case DoPush(v) => PushRefines(q, pushed, ending, asked, v);
    case DoNext => NextRefines(q, pushed, ending, asked);
    case DoClose => EndRefines(q, pushed, ending, asked, Done);
    case DoFail(e) => EndRefines(q, pushed, ending, asked, Failed(e));
  }

  /** For every run of pushes, reads and endings: first in, first out, nothing lost, nothing read twice. */
  lemma {:induction false} Fifo<T>(ops: seq<Op<T>>)
    ensures Refines(Run(ops), Pushed(ops), Ending(ops), Asked(ops))
    ensures Run(ops).queued == [] || Run(ops).waiters == []
  {
    if ops != [] {
      var before, last := ops[..|ops| - 1], ops[|ops| - 1];
      Fifo(before);
      OpRefines(Run(before), Pushed(before), Ending(before), Asked(before), last);
      assert Run(ops) == Do(Run(before), last);
      assert Pushed(ops) == if last.DoPush? && Ending(before).None? then Pushed(before) + [last.value] else Pushed(before);
    }
  }
}

/** One attached target: which agent messages reach its stream, and what becomes of every command. */
module AgentLinkModel {
  import opened Protocol

  /** A message after reassembly. `chunkDoc` is the document number of the frame that completed it. */
  datatype Incoming = Incoming(chunkDoc: nat, body: Body)

  datatype Body =
    | HelloBody(docId: nat, isTop: bool, aboutBlank: bool)
    | RrwebBody(docId: nat, event: Event)
    | CmdResBody(reqId: nat, ok: bool)
    | ClipBody(docId: nat, text: string)

  datatype HowSettled = Resolved(ok: bool) | Navigated | TimedOut | NotEvaluated | Detached

  datatype Settlement = Settlement(reqId: nat, how: HowSettled)

  /**
   * `pending` maps a request to the document it was sent to. `stream`, `clips` and `settled` are
   * everything pushed, published and settled so far.
   */
  datatype Target = Target(
    isPage: bool,
    docId: Option<nat>,
    seenDocIds: set<nat>,
    nextReqId: nat,
    pending: map<nat, nat>,
    attached: bool,
    stream: seq<AgentMsg>,
    clips: seq<string>,
    settled: seq<Settlement>)

  function Attach(isPage: bool): Target {
    Target(isPage, None, {}, 1, map[], true, [], [], [])
  }

  /** Requests are numbered upwards, so insertion order is numeric order. */
  function RejectAll(pending: map<nat, nat>, limit: nat, how: HowSettled): seq<Settlement> {
    if limit == 0 then []
    else RejectAll(pending, limit - 1, how) + (if limit - 1 in pending then [Settlement(limit - 1, how)] else [])
  }

  function RejectPending(s: Target, how: HowSettled): Target {
    s.(pending := map[], settled := s.settled + RejectAll(s.pending, s.nextReqId, how))
  }

  predicate Canonical(s: Target, isTop: bool, aboutBlank: bool) {
    !(!s.isPage && aboutBlank) && !(s.isPage && !isTop)
  }

  function ReceiveHello(s: Target, chunkDoc: nat, docId: nat, isTop: bool, aboutBlank: bool): Target {
    if docId != chunkDoc || !Canonical(s, isTop, aboutBlank) then s
    else if s.docId != Some(docId) && docId in s.seenDocIds then s
    else if s.docId == Some(docId) then s
    else
      var r := if s.docId.Some? then RejectPending(s, Navigated) else s;
      r.(docId := Some(docId), seenDocIds := s.seenDocIds + {docId}, stream := s.stream + [AgentHello(docId, isTop)])
  }

  function ReceiveRrweb(s: Target, chunkDoc: nat, docId: nat, event: Event): Target {
    if docId != chunkDoc || s.docId != Some(docId) then s
    else s.(stream := s.stream + [Rrweb(docId, event)])
  }

  function ReceiveCmdRes(s: Target, chunkDoc: nat, reqId: nat, ok: bool): Target {
    if s.docId != Some(chunkDoc) || reqId !in s.pending || Some(s.pending[reqId]) != s.docId then s
    else Settle(s, reqId, Resolved(ok))
  }

  function ReceiveClip(s: Target, chunkDoc: nat, docId: nat, text: string): Target {
    if docId != chunkDoc || s.docId != Some(docId) then s else s.(clips := s.clips + [text])
  }

  function Receive(s: Target, m: Incoming): Target {
    match m.body
    case HelloBody(docId, isTop, aboutBlank) => ReceiveHello(s, m.chunkDoc, docId, isTop, aboutBlank)
    case RrwebBody(docId, event) => ReceiveRrweb(s, m.chunkDoc, docId, event)
    case CmdResBody(reqId, ok) => ReceiveCmdRes(s, m.chunkDoc, reqId, ok)
    case ClipBody(docId, text) => ReceiveClip(s, m.chunkDoc, docId, text)
  }

  /** One pending command leaves the table: answered, timed out, or refused by the bridge. */
  function Settle(s: Target, reqId: nat, how: HowSettled): Target {
    if reqId !in s.pending then s
    else s.(pending := s.pending - {reqId}, settled := s.settled + [Settlement(reqId, how)])
  }

  /** `sendCmd` after its wait for the bridge, on a target that is still attached. */
  function Register(s: Target): Target
    requires s.docId.Some?
  {
    s.(pending := s.pending[s.nextReqId := s.docId.value], nextReqId := s.nextReqId + 1)
  }

  function Detach(s: Target): Target {
    RejectPending(s, Detached).(attached := false)
  }

  datatype Step =
    | Arrives(m: Incoming)
    | Registers
    | TimesOut(reqId: nat)
    | EvaluationFails(reqId: nat)
    | Detaches

  /** A detached target is out of both maps: nothing reaches it and no command registers. */
  predicate Enabled(s: Target, step: Step) {
    match step
    case Arrives(_) => s.attached
    case Registers => s.attached && s.docId.Some?
    case Detaches => s.attached
    case _ => true
  }

  function Apply(s: Target, step: Step): Target
    requires Enabled(s, step)
  {
    match step
    case Arrives(m) => Receive(s, m)
    case Registers => Register(s)
    case TimesOut(reqId) => Settle(s, reqId, TimedOut)
    case EvaluationFails(reqId) => Settle(s, reqId, NotEvaluated)
    case Detaches => Detach(s)
  }

  predicate Possible(s: Target, run: seq<Step>)
    decreases |run|
  {
    run == [] || (Enabled(s, run[0]) && Possible(Apply(s, run[0]), run[1..]))
  }

  function After(s: Target, run: seq<Step>): Target
    requires Possible(s, run)
    decreases |run|
  {
    if run == [] then s else After(Apply(s, run[0]), run[1..])
  }

  // ---- The stream grammar ----

  /** One document: its hello, then only its own events. */
  predicate IsBlock(block: seq<AgentMsg>) {
    && block != [] && block[0].AgentHello?
    && forall i :: 1 <= i < |block| ==> block[i].Rrweb? && block[i].docId == block[0].docId
  }

  function Flatten(blocks: seq<seq<AgentMsg>>): seq<AgentMsg> {
    if blocks == [] then [] else Flatten(blocks[..|blocks| - 1]) + blocks[|blocks| - 1]
  }

  /** hello(d1) rrweb(d1)* hello(d2) rrweb(d2)* ... with all di distinct. */
  ghost predicate Grammar(stream: seq<AgentMsg>, blocks: seq<seq<AgentMsg>>) {
    && stream == Flatten(blocks)
    && (forall i :: 0 <= i < |blocks| ==> IsBlock(blocks[i]))
    && (forall i, j :: 0 <= i < j < |blocks| ==> blocks[i] != [] && blocks[j] != [] && DocOf(blocks[i]) != DocOf(blocks[j]))
  }

  function DocOf(block: seq<AgentMsg>): nat {
    if block != [] && block[0].AgentHello? then block[0].docId else 0
  }

  /** The document announced last is the target's, and every announced document is in the seen set. */
  ghost predicate StreamInv(s: Target, blocks: seq<seq<AgentMsg>>) {
    && Grammar(s.stream, blocks)
    && (forall i :: 0 <= i < |blocks| ==> DocOf(blocks[i]) in s.seenDocIds)
    && (s.docId.None? <==> blocks == [])
    && (s.docId.Some? ==> blocks != [] && DocOf(blocks[|blocks| - 1]) == s.docId.value)
  }

  lemma HelloExtends(s: Target, blocks: seq<seq<AgentMsg>>, docId: nat, isTop: bool)
    requires StreamInv(s, blocks) && docId !in s.seenDocIds
    ensures StreamInv(s.(docId := Some(docId), seenDocIds := s.seenDocIds + {docId},
                         stream := s.stream + [AgentHello(docId, isTop)]),
                      blocks + [[AgentHello(docId, isTop)]])
  {
    var more := blocks + [[AgentHello(docId, isTop)]];
    assert more[..|more| - 1] == blocks;
  }

  lemma EventExtends(s: Target, blocks: seq<seq<AgentMsg>>, event: Event)
    requires StreamInv(s, blocks) && s.docId.Some?
    ensures var last := blocks[|blocks| - 1] + [Rrweb(s.docId.value, event)];
      StreamInv(s.(stream := s.stream + [Rrweb(s.docId.value, event)]), blocks[..|blocks| - 1] + [last])
  {
    var init, last := blocks[..|blocks| - 1], blocks[|blocks| - 1];
    var more := init + [last + [Rrweb(s.docId.value, event)]];
    assert more[..|more| - 1] == init;
    assert Flatten(more) == Flatten(init) + (last + [Rrweb(s.docId.value, event)]);
    assert DocOf(more[|more| - 1]) == DocOf(last);
    assert forall i :: 0 <= i < |init| ==> more[i] == blocks[i];
  }

  /** Steps that leave the three fields of the stream alone keep its invariant. */
  lemma StepKeepsStream(s: Target, step: Step, blocks: seq<seq<AgentMsg>>) returns (next: seq<seq<AgentMsg>>)
    requires Enabled(s, step) && StreamInv(s, blocks)
    ensures StreamInv(Apply(s, step), next)
  {
    next := blocks;
    if step.Arrives? {
      match step.m.body
      case HelloBody(docId, isTop, aboutBlank) =>
        if Receive(s, step.m).docId != s.docId {
          HelloExtends(s, blocks, docId, isTop);
          next := blocks + [[AgentHello(docId, isTop)]];
        }
      case RrwebBody(docId, event) =>
        if Receive(s, step.m).stream != s.stream {
          EventExtends(s, blocks, event);
          next := blocks[..|blocks| - 1] + [blocks[|blocks| - 1] + [Rrweb(docId, event)]];
        }
      case _ =>
    }
  }

  /** Whatever arrives, stale, duplicated or from child frames, the consumer sees a well-formed stream. */
  lemma {:induction false} StreamIsWellFormed(s: Target, run: seq<Step>, blocks: seq<seq<AgentMsg>>)
    returns (final: seq<seq<AgentMsg>>)
    requires Possible(s, run) && StreamInv(s, blocks)
    ensures StreamInv(After(s, run), final)
    decreases |run|
  {
    if run == [] {
      final := blocks;
    } else {
      var next := StepKeepsStream(s, run[0], blocks);
      final := StreamIsWellFormed(Apply(s, run[0]), run[1..], next);
    }
  }

  // ---- Commands ----

  function Times(settled: seq<Settlement>, reqId: nat): nat {
    if settled == [] then 0
    else Times(settled[..|settled| - 1], reqId) + (if settled[|settled| - 1].reqId == reqId then 1 else 0)
  }

  lemma {:induction false} TimesAdds(a: seq<Settlement>, b: seq<Settlement>, reqId: nat)
    ensures Times(a + b, reqId) == Times(a, reqId) + Times(b, reqId)
  {
    if b == [] {
      assert a + b == a;
    } else {
      TimesAdds(a, b[..|b| - 1], reqId);
      assert (a + b)[..|a + b| - 1] == a + b[..|b| - 1];
    }
  }

  lemma {:induction false} RejectAllOnce(pending: map<nat, nat>, limit: nat, how: HowSettled, reqId: nat)
    ensures Times(RejectAll(pending, limit, how), reqId) == if reqId < limit && reqId in pending then 1 else 0
  {
    if limit > 0 {
      RejectAllOnce(pending, limit - 1, how, reqId);
      var init := RejectAll(pending, limit - 1, how);
      var all := RejectAll(pending, limit, how);
      if limit - 1 in pending {
        assert all == init + [Settlement(limit - 1, how)];
        assert all[..|all| - 1] == init && all[|all| - 1] == Settlement(limit - 1, how);
        assert Times(all, reqId) == Times(init, reqId) + if limit - 1 == reqId then 1 else 0;
      } else {
        assert all == init;
      }
    }
  }

  /** A registered command is pending or settled once; a pending one belongs to the document in view. */
  ghost predicate CommandInv(s: Target) {
    && (forall r :: r in s.pending ==> 1 <= r < s.nextReqId && s.docId == Some(s.pending[r]))
    && (forall r: nat :: Times(s.settled, r) == if 1 <= r < s.nextReqId && r !in s.pending then 1 else 0)
    && (!s.attached ==> s.pending == map[])
    && s.nextReqId >= 1
  }

  lemma RejectKeepsInv(s: Target, how: HowSettled)
    requires CommandInv(s)
    ensures CommandInv(RejectPending(s, how))
  {
    forall r: nat
      ensures Times(RejectPending(s, how).settled, r) == if 1 <= r < s.nextReqId then 1 else 0
    {
      TimesAdds(s.settled, RejectAll(s.pending, s.nextReqId, how), r);
      RejectAllOnce(s.pending, s.nextReqId, how, r);
    }
  }

  lemma SettleKeepsInv(s: Target, reqId: nat, how: HowSettled)
    requires CommandInv(s)
    ensures CommandInv(Settle(s, reqId, how))
  {
    if reqId in s.pending {
      forall r: nat
        ensures Times(s.settled + [Settlement(reqId, how)], r) == Times(s.settled, r) + if r == reqId then 1 else 0
      {
        assert (s.settled + [Settlement(reqId, how)])[..|s.settled|] == s.settled;
      }
    }
  }

  lemma StepKeepsCommands(s: Target, step: Step)
    requires Enabled(s, step) && CommandInv(s)
    ensures CommandInv(Apply(s, step))
  {
    match step
    case Arrives(m) =>
      match m.body {
        case HelloBody(_, _, _) => RejectKeepsInv(s, Navigated);
        case CmdResBody(reqId, ok) => SettleKeepsInv(s, reqId, Resolved(ok));
        case _ =>
      }
    case Registers =>
    case TimesOut(reqId) => SettleKeepsInv(s, reqId, TimedOut);
    case EvaluationFails(reqId) => SettleKeepsInv(s, reqId, NotEvaluated);
    case Detaches => RejectKeepsInv(s, Detached);
  }

  lemma {:induction false} RunKeepsCommands(s: Target, run: seq<Step>)
    requires Possible(s, run) && CommandInv(s)
    ensures CommandInv(After(s, run))
    decreases |run|
  {
    if run != [] {
      StepKeepsCommands(s, run[0]);
      RunKeepsCommands(Apply(s, run[0]), run[1..]);
    }
  }

  /**
   * The two promises of the link, for every run of one attachment: the stream grammar, and that a
   * registered command settles exactly once, at the latest when the target detaches.
   */
  lemma AgentLinkKeepsItsPromises(isPage: bool, run: seq<Step>) returns (blocks: seq<seq<AgentMsg>>)
    requires Possible(Attach(isPage), run)
    ensures var s := After(Attach(isPage), run);
      && Grammar(s.stream, blocks)
      && (forall r :: r in s.pending ==> s.docId == Some(s.pending[r]))
      && (forall r :: 1 <= r < s.nextReqId ==> Times(s.settled, r) == if r in s.pending then 0 else 1)
      && (!s.attached ==> forall r :: 1 <= r < s.nextReqId ==> Times(s.settled, r) == 1)
  {
    blocks := StreamIsWellFormed(Attach(isPage), run, []);
    RunKeepsCommands(Attach(isPage), run);
  }

  /** A new canonical document settles every outstanding command as navigated, and none survives it. */
  lemma NavigationSettlesAll(s: Target, m: Incoming, r: nat)
    requires CommandInv(s) && m.body.HelloBody? && s.docId.Some?
    requires Receive(s, m).docId != s.docId
    ensures Receive(s, m).pending == map[]
    ensures r in s.pending ==> Times(s.settled, r) == 0 && Times(Receive(s, m).settled, r) == 1
  {
    RejectKeepsInv(s, Navigated);
  }
}

module AgentLink {
  import opened Protocol
  import QueueModel
  import opened AgentLinkModel

  class AsyncMessageQueue<T(!new)> {
    var queued: seq<T>
    var waiters: seq<nat>
    var ended: bool
    var failure: Option<string>
    var tickets: nat
    var answers: map<nat, QueueModel.Answer<T>>

    ghost function View(): QueueModel.Queue<T>
      reads this
    {
      QueueModel.Queue(queued, waiters, ended, failure, tickets, answers)
    }

    constructor ()
      ensures View() == QueueModel.Empty()
    {
      queued, waiters, ended, failure, tickets, answers := [], [], false, None, 0, map[];
    }

    method Push(value: T)
      modifies this
      ensures View() == QueueModel.Push(old(View()), value)
    {
      if ended { return; }
      if waiters == [] {
        queued := queued + [value];
      } else {
        var waiter := waiters[0];
        waiters := waiters[1..];
        answers := answers[waiter := QueueModel.Value(value)];
      }
    }

    method Close()
      modifies this
      ensures View() == QueueModel.Close(old(View()))
    {
      if ended { return; }
      ended := true;
      SettleWaiters(QueueModel.Done);
    }

    method Fail(error: string)
      modifies this
      ensures View() == QueueModel.Fail(old(View()), error)
    {
      if ended { return; }
      ended, failure := true, Some(error);
      SettleWaiters(QueueModel.Failed(error));
    }

    method SettleWaiters(a: QueueModel.Answer<T>)
      modifies this`waiters, this`answers
      ensures waiters == []
      ensures answers == QueueModel.AnswerAll(old(answers), old(waiters), a)
    {
      while waiters != []
        invariant QueueModel.AnswerAll(answers, waiters, a) == QueueModel.AnswerAll(old(answers), old(waiters), a)
        decreases |waiters|
      {
        var waiter := waiters[0];
        waiters := waiters[1..];
        answers := answers[waiter := a];
      }
    }

    /** Returns the ticket of this call; its answer, once it has one, is in `answers`. */
    method Next() returns (ticket: nat)
      modifies this
      ensures ticket == old(tickets) && View() == QueueModel.Next(old(View()))
    {
      ticket := tickets;
      tickets := tickets + 1;
      if queued != [] {
        var value := queued[0];
        queued := queued[1..];
        answers := answers[ticket := QueueModel.Value(value)];
      } else if failure.Some? {
        answers := answers[ticket := QueueModel.Failed(failure.value)];
      } else if ended {
        answers := answers[ticket := QueueModel.Done];
      } else {
        waiters := waiters + [ticket];
      }
    }
  }

  class TargetState {
    const isPage: bool
    var docId: Option<nat>
    var seenDocIds: set<nat>
    var nextReqId: nat
    var pending: map<nat, nat>
    var attached: bool
    var stream: seq<AgentMsg>
    var clips: seq<string>
    var settled: seq<Settlement>

    ghost function View(): Target
      reads this
    {
      Target(isPage, docId, seenDocIds, nextReqId, pending, attached, stream, clips, settled)
    }

    constructor (isPage: bool)
      ensures View() == Attach(isPage)
    {
      this.isPage := isPage;
      docId, seenDocIds, nextReqId, pending, attached := None, {}, 1, map[], true;
      stream, clips, settled := [], [], [];
    }

    method RejectPending(how: HowSettled)
      modifies this`pending, this`settled
      ensures pending == map[] && settled == old(settled) + RejectAll(old(pending), nextReqId, how)
    {
      for r := 0 to nextReqId
        invariant settled == old(settled) + RejectAll(pending, r, how)
        invariant pending == old(pending)
      {
        if r in pending {
          settled := settled + [Settlement(r, how)];
        }
      }
      pending := map[];
    }

    method OnHello(chunkDoc: nat, doc: nat, isTop: bool, aboutBlank: bool)
      modifies this
      ensures View() == ReceiveHello(old(View()), chunkDoc, doc, isTop, aboutBlank)
    {
      if doc != chunkDoc { return; }
      if !isPage && aboutBlank { return; }
      if isPage && !isTop { return; }
      if docId != Some(doc) && doc in seenDocIds { return; }
      var navigated := docId.Some? && docId != Some(doc);
      if navigated { RejectPending(Navigated); }
      if !navigated && docId == Some(doc) { return; }
      docId := Some(doc);
      seenDocIds := seenDocIds + {doc};
      stream := stream + [AgentHello(doc, isTop)];
    }

    method OnRrweb(chunkDoc: nat, doc: nat, event: Event)
      modifies this`stream
      ensures View() == ReceiveRrweb(old(View()), chunkDoc, doc, event)
    {
      if doc != chunkDoc || docId != Some(doc) { return; }
      stream := stream + [Rrweb(doc, event)];
    }

    method OnCmdRes(chunkDoc: nat, reqId: nat, ok: bool)
      modifies this`pending, this`settled
      ensures View() == ReceiveCmdRes(old(View()), chunkDoc, reqId, ok)
    {
      if docId != Some(chunkDoc) { return; }
      if reqId !in pending { return; }
      if Some(pending[reqId]) != docId { return; }
      pending := pending - {reqId};
      settled := settled + [Settlement(reqId, Resolved(ok))];
    }

    method OnBindingCalled(m: Incoming)
      modifies this
      ensures View() == Receive(old(View()), m)
    {
      match m.body
      case HelloBody(doc, isTop, aboutBlank) => OnHello(m.chunkDoc, doc, isTop, aboutBlank);
      case RrwebBody(doc, event) => OnRrweb(m.chunkDoc, doc, event);
      case CmdResBody(reqId, ok) => OnCmdRes(m.chunkDoc, reqId, ok);
      case ClipBody(doc, text) =>
        if doc == m.chunkDoc && docId == Some(doc) {
          clips := clips + [text];
        }
    }

    method RegisterCommand() returns (reqId: nat)
      requires attached && docId.Some?
      modifies this`pending, this`nextReqId
      ensures reqId == old(nextReqId) && View() == Register(old(View()))
    {
      reqId := nextReqId;
      nextReqId := nextReqId + 1;
      pending := pending[reqId := docId.value];
    }

    /** The command's timer, or the bridge refusing it. */
    method SettleCommand(reqId: nat, how: HowSettled)
      modifies this`pending, this`settled
      ensures View() == Settle(old(View()), reqId, how)
    {
      if reqId !in pending { return; }
      pending := pending - {reqId};
      settled := settled + [Settlement(reqId, how)];
    }

    method OnDetached()
      modifies this
      ensures View() == Detach(old(View()))
    {
      RejectPending(Detached);
      attached := false;
    }
  }
}
