/**
 * The order of input dispatch: each message waits for the tail of its tab, so that a fast release can
 * never overtake a slow press. Tails that have settled are removed, by whoever still is the tail.
 */
module RelayModel {
  import opened Protocol

  datatype Phase = Waiting | Running | Settled

  /** `prior` is the promise the message was chained to, if its tab had a tail. */
  datatype Job = Job(tab: TabId, prior: Option<nat>, phase: Phase)

  datatype Relay = Relay(tails: map<TabId, nat>, jobs: seq<Job>)

  const EMPTY := Relay(map[], [])

  function Arrive(r: Relay, tab: TabId): Relay {
    Relay(r.tails[tab := |r.jobs|], r.jobs + [Job(tab, if tab in r.tails then Some(r.tails[tab]) else None, Waiting)])
  }

  function SetPhase(r: Relay, j: nat, phase: Phase): Relay
    requires j < |r.jobs|
  {
    r.(jobs := r.jobs[j := r.jobs[j].(phase := phase)])
  }

  /** The `finally` of a tail: it removes the entry only if no later message has replaced it. */
  function CleanUp(r: Relay, j: nat): Relay
    requires j < |r.jobs|
  {
    var tab := r.jobs[j].tab;
    if tab in r.tails && r.tails[tab] == j then r.(tails := r.tails - {tab}) else r
  }

  datatype Step = Arrives(tab: TabId) | Begins(job: nat) | Settles(job: nat) | CleansUp(job: nat)

  predicate PriorSettled(r: Relay, j: nat)
    requires j < |r.jobs|
  {
    r.jobs[j].prior.Some? ==> r.jobs[j].prior.value < |r.jobs| && r.jobs[r.jobs[j].prior.value].phase.Settled?
  }

  /** A dispatch settles whether it succeeds or fails: its tail swallows both. */
  predicate Enabled(r: Relay, step: Step) {
    match step
    case Arrives(_) => true
    case Begins(j) => j < |r.jobs| && r.jobs[j].phase.Waiting? && PriorSettled(r, j)
    case Settles(j) => j < |r.jobs| && r.jobs[j].phase.Running?
    case CleansUp(j) => j < |r.jobs| && r.jobs[j].phase.Settled?
  }

  function Apply(r: Relay, step: Step): Relay
    requires Enabled(r, step)
  {
    match step
    case Arrives(tab) => Arrive(r, tab)
    case Begins(j) => SetPhase(r, j, Running)
    case Settles(j) => SetPhase(r, j, Settled)
    case CleansUp(j) => CleanUp(r, j)
  }

  predicate Possible(r: Relay, run: seq<Step>)
    decreases |run|
  {
    run == [] || (Enabled(r, run[0]) && Possible(Apply(r, run[0]), run[1..]))
  }

  function After(r: Relay, run: seq<Step>): Relay
    requires Possible(r, run)
    decreases |run|
  {
    if run == [] then r else After(Apply(r, run[0]), run[1..])
  }

  /** Everything that arrived on the tab before `j` has settled. */
  predicate EarlierSettled(r: Relay, tab: TabId, j: nat)
    requires j <= |r.jobs|
  {
    forall i :: 0 <= i < j && r.jobs[i].tab == tab ==> r.jobs[i].phase.Settled?
  }

  predicate NoneBetween(r: Relay, tab: TabId, lo: nat, hi: nat)
    requires hi <= |r.jobs|
  {
    forall i :: lo < i < hi ==> r.jobs[i].tab != tab
  }

  /** A job hangs on the one just before it on its tab, or on nothing because all of those had settled. */
  predicate JobOk(r: Relay, j: nat)
    requires j < |r.jobs|
  {
    var job := r.jobs[j];
    && (job.prior.None? ==> EarlierSettled(r, job.tab, j))
    && (job.prior.Some? ==>
          job.prior.value < j && r.jobs[job.prior.value].tab == job.tab && NoneBetween(r, job.tab, job.prior.value, j))
    && (!job.phase.Waiting? ==> EarlierSettled(r, job.tab, j))
  }

  ghost predicate Inv(r: Relay) {
    && (forall j :: 0 <= j < |r.jobs| ==> JobOk(r, j))
    && (forall tab :: tab in r.tails ==>
          r.tails[tab] < |r.jobs| && r.jobs[r.tails[tab]].tab == tab && NoneBetween(r, tab, r.tails[tab], |r.jobs|))
    && (forall j :: 0 <= j < |r.jobs| && r.jobs[j].tab !in r.tails ==> r.jobs[j].phase.Settled?)
  }

  lemma PriorSettledIff(r: Relay, j: nat)
    requires Inv(r) && j < |r.jobs|
    ensures PriorSettled(r, j) <==> EarlierSettled(r, r.jobs[j].tab, j)
  {
    assert JobOk(r, j);
    if r.jobs[j].prior.Some? {
      var p := r.jobs[j].prior.value;
      assert JobOk(r, p);
    }
  }

  lemma ArriveKeepsJob(r: Relay, tab: TabId, j: nat)
    requires Inv(r) && j < |r.jobs|
    ensures JobOk(Arrive(r, tab), j)
  {
    assert JobOk(r, j);
  }

  lemma ArriveKeepsInv(r: Relay, tab: TabId)
    requires Inv(r)
    ensures Inv(Arrive(r, tab))
  {
    var t := Arrive(r, tab);
    forall j | 0 <= j < |t.jobs|
      ensures JobOk(t, j)
    {
      if j < |r.jobs| { ArriveKeepsJob(r, tab, j); }
    }
    forall x | x in t.tails
      ensures t.tails[x] < |t.jobs| && t.jobs[t.tails[x]].tab == x && NoneBetween(t, x, t.tails[x], |t.jobs|)
    {
      if x != tab { assert NoneBetween(r, x, r.tails[x], |r.jobs|); }
    }
  }

  lemma PhaseKeepsInv(r: Relay, j: nat, phase: Phase)
    requires Inv(r) && j < |r.jobs| && !phase.Waiting? && !r.jobs[j].phase.Settled?
    requires EarlierSettled(r, r.jobs[j].tab, j)
    ensures Inv(SetPhase(r, j, phase))
  {
    var t := SetPhase(r, j, phase);
    forall i | 0 <= i < |t.jobs|
      ensures JobOk(t, i)
    {
      assert JobOk(r, i);
    }
    forall x | x in t.tails
      ensures NoneBetween(t, x, t.tails[x], |t.jobs|)
    {
      assert NoneBetween(r, x, r.tails[x], |r.jobs|);
    }
  }

  lemma CleanUpKeepsInv(r: Relay, j: nat)
    requires Inv(r) && j < |r.jobs| && r.jobs[j].phase.Settled?
    ensures Inv(CleanUp(r, j))
  {
    var t := CleanUp(r, j);
    assert JobOk(r, j);
    forall i | 0 <= i < |t.jobs|
      ensures JobOk(t, i)
    {
      assert JobOk(r, i);
    }
    forall i | 0 <= i < |t.jobs| && t.jobs[i].tab !in t.tails
      ensures t.jobs[i].phase.Settled?
    {
      if r.jobs[i].tab in r.tails { assert NoneBetween(r, r.jobs[j].tab, j, |r.jobs|); }
    }
  }

  lemma StepKeepsInv(r: Relay, step: Step)
    requires Inv(r) && Enabled(r, step)
    ensures Inv(Apply(r, step))
  {
    match step
    case Arrives(tab) => ArriveKeepsInv(r, tab);
    case Begins(j) =>
      PriorSettledIff(r, j);
      PhaseKeepsInv(r, j, Running);
    case Settles(j) =>
      assert JobOk(r, j);
      PhaseKeepsInv(r, j, Settled);
    case CleansUp(j) => CleanUpKeepsInv(r, j);
  }

  lemma {:induction false} RunKeepsInv(r: Relay, run: seq<Step>)
    requires Inv(r) && Possible(r, run)
    ensures Inv(After(r, run))
    decreases |run|
  {
    if run == [] {
    } else {
      StepKeepsInv(r, run[0]);
      RunKeepsInv(Apply(r, run[0]), run[1..]);
    }
  }

  /** On one tab messages are dispatched one at a time and in the order they came, across tails removed in between. */
  lemma DispatchedInOrder(run: seq<Step>, a: nat, b: nat)
    requires Possible(EMPTY, run) && a < b < |After(EMPTY, run).jobs|
    requires After(EMPTY, run).jobs[a].tab == After(EMPTY, run).jobs[b].tab
    ensures !After(EMPTY, run).jobs[b].phase.Waiting? ==> After(EMPTY, run).jobs[a].phase.Settled?
  {
    RunKeepsInv(EMPTY, run);
    assert JobOk(After(EMPTY, run), b);
  }

  /** A waiting message can go exactly when every earlier one on its tab has settled: none is stuck or early. */
  lemma BeginsExactlyWhenFirst(run: seq<Step>, j: nat)
    requires Possible(EMPTY, run) && j < |After(EMPTY, run).jobs|
    ensures var r := After(EMPTY, run);
      Enabled(r, Begins(j)) <==> r.jobs[j].phase.Waiting? && EarlierSettled(r, r.jobs[j].tab, j)
  {
    RunKeepsInv(EMPTY, run);
    PriorSettledIff(After(EMPTY, run), j);
  }
}

module InputRelay {
  import opened Protocol
  import opened RelayModel

  class InputRelay {
    var tabTails: map<TabId, nat>
    var jobs: seq<Job>

    ghost function View(): Relay
      reads this
    {
      Relay(tabTails, jobs)
    }

    constructor ()
      ensures View() == EMPTY
    {
      tabTails, jobs := map[], [];
    }

    method Accept(tab: TabId) returns (job: nat)
      modifies this
      ensures job == |old(jobs)| && View() == Arrive(old(View()), tab)
    {
      var prior := if tab in tabTails then Some(tabTails[tab]) else None;
      job := |jobs|;
      jobs := jobs + [Job(tab, prior, Waiting)];
      tabTails := tabTails[tab := job];
    }

    method Begin(job: nat)
      requires Enabled(View(), Begins(job))
      modifies this`jobs
      ensures View() == Apply(old(View()), Begins(job))
    {
      jobs := jobs[job := jobs[job].(phase := Running)];
    }

    method Settle(job: nat)
      requires Enabled(View(), Settles(job))
      modifies this`jobs
      ensures View() == Apply(old(View()), Settles(job))
    {
      jobs := jobs[job := jobs[job].(phase := Settled)];
    }

    method RemoveTail(job: nat)
      requires Enabled(View(), CleansUp(job))
      modifies this`tabTails
      ensures View() == Apply(old(View()), CleansUp(job))
    {
      var tab := jobs[job].tab;
      if tab in tabTails && tabTails[tab] == job { tabTails := tabTails - {tab}; }
    }
  }
}
