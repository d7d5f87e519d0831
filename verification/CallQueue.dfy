/**
 The queues that every repository call of the SPA runs through (frontend/src/api.ts).

 A call is chained onto the promise that is its workbench's tail at the moment it is
 issued, and runs when that promise settles, either way. What the promise chain adds up
 to is nowhere written down in the source: this module proves that it is one FIFO per
 workbench that executes calls one at a time, and that nothing about timing across
 workbenches can be observed through it.

 The checkouts behind the calls are any deterministic machine `exec`: it takes a
 checkout and a call and returns the next checkout and the answer.
 */
module CallQueue {
  import opened Fifo
  import opened Wrappers

  /** How far a call has come. `Executed` is a call its checkout ran, with the answer on its way. */
  datatype Phase<+A> =
    | Waiting
    | Running
    | Executed(answer: A)
    | Settled(outcome: Outcome<A>)

  /** A rejection may follow an execution (the answer was lost) or stand for none. */
  datatype Outcome<+A> = Fulfilled(value: A) | Rejected(lost: Option<A>)

  datatype Call<+Op, +A> = Call(workbench: string, op: Op, behind: Option<nat>, phase: Phase<A>)

  /** The answer the checkout produced, whether or not the caller got it. */
  function Reached<A>(phase: Phase<A>): Option<A> {
    match phase
    case Executed(a) => Some(a)
    case Settled(Fulfilled(a)) => Some(a)
    case Settled(Rejected(lost)) => lost
    case _ => None
  }

  /** The module state of api.ts, with every call ever issued, in issue order. */
  datatype Browser<+Op, +A> = Browser(active: string, tails: map<string, nat>, calls: seq<Call<Op, A>>)

  datatype System<!C, !Op, +A> = System(browser: Browser<Op, A>, checkouts: string -> C)

  datatype Event<+Op> =
    | Switch(id: Option<string>)
    | Issue(op: Op)
    | Start(i: nat)
    | Execute(i: nat)
    | Answer(i: nat)
    | Fail(i: nat)

  // --- the browser's own steps ---

  function SetActive<Op, A>(b: Browser<Op, A>, id: Option<string>): Browser<Op, A> {
    b.(active := id.GetOr(""))
  }

  /** `workspace(call)`: the key is captured now, the call goes behind that key's tail and becomes it. */
  function Chain<Op, A>(b: Browser<Op, A>, op: Op): Browser<Op, A> {
    var tail := if b.active in b.tails then Some(b.tails[b.active]) else None;
    Browser(b.active, b.tails[b.active := |b.calls|], b.calls + [Call(b.active, op, tail, Waiting)])
  }

  /** `tail.then(run, run)` fires: there was no tail, or it has settled, whichever way. */
  predicate Ready<Op, A>(b: Browser<Op, A>, i: nat) {
    && i < |b.calls|
    && b.calls[i].phase.Waiting?
    && (b.calls[i].behind.Some? ==>
          b.calls[i].behind.value < |b.calls| && b.calls[b.calls[i].behind.value].phase.Settled?)
  }

  function SetPhase<Op, A>(b: Browser<Op, A>, i: nat, phase: Phase<A>): Browser<Op, A>
    requires i < |b.calls|
  {
    b.(calls := b.calls[i := b.calls[i].(phase := phase)])
  }

  // --- runs of the browser against the checkouts ---

  predicate Enabled<C, Op, A>(s: System<C, Op, A>, e: Event<Op>) {
    var calls := s.browser.calls;
    match e
    case Switch(_) => true
    case Issue(_) => true
    case Start(i) => Ready(s.browser, i)
    case Execute(i) => i < |calls| && calls[i].phase.Running?
    case Answer(i) => i < |calls| && calls[i].phase.Executed?
    case Fail(i) => i < |calls| && (calls[i].phase.Running? || calls[i].phase.Executed?)
  }

  function Step<C, Op, A>(exec: (C, Op) -> (C, A), s: System<C, Op, A>, e: Event<Op>): System<C, Op, A>
    requires Enabled(s, e)
  {
    var b := s.browser;
    match e
    case Switch(id) => s.(browser := SetActive(b, id))
    case Issue(op) => s.(browser := Chain(b, op))
    case Start(i) => s.(browser := SetPhase(b, i, Running))
    case Execute(i) =>
      var wb := b.calls[i].workbench;
      var (c, a) := exec(s.checkouts(wb), b.calls[i].op);
      System(SetPhase(b, i, Executed(a)), other => if other == wb then c else s.checkouts(other))
    case Answer(i) => s.(browser := SetPhase(b, i, Settled(Fulfilled(b.calls[i].phase.answer))))
    case Fail(i) => s.(browser := SetPhase(b, i, Settled(Rejected(Reached(b.calls[i].phase)))))
  }

  /** A run: a list of events each of which was possible when it happened. */
  predicate Possible<C, Op, A>(exec: (C, Op) -> (C, A), s: System<C, Op, A>, run: seq<Event<Op>>)
    decreases |run|
  {
    run == [] || (Enabled(s, run[0]) && Possible(exec, Step(exec, s, run[0]), run[1..]))
  }

  function After<C, Op, A>(exec: (C, Op) -> (C, A), s: System<C, Op, A>, run: seq<Event<Op>>): System<C, Op, A>
    requires Possible(exec, s, run)
    decreases |run|
  {
    if run == [] then s else After(exec, Step(exec, s, run[0]), run[1..])
  }

  function Opened<C, Op, A>(checkouts: string -> C): System<C, Op, A> {
    System(Browser("", map[], []), checkouts)
  }

  // --- the invariant: the chain is one FIFO per workbench ---

  /** The last of the first n calls that was issued against wb. */
  function LastOf<Op, A>(calls: seq<Call<Op, A>>, n: nat, wb: string): Option<nat>
    requires n <= |calls|
  {
    if n == 0 then None
    else if calls[n - 1].workbench == wb then Some(n - 1)
    else LastOf(calls, n - 1, wb)
  }

  lemma {:induction false} LastOfIsLast<Op, A>(calls: seq<Call<Op, A>>, n: nat, wb: string)
    requires n <= |calls|
    ensures match LastOf(calls, n, wb)
            case None => forall k :: 0 <= k < n ==> calls[k].workbench != wb
            case Some(p) => p < n && calls[p].workbench == wb && forall k :: p < k < n ==> calls[k].workbench != wb
  {
    if n > 0 {
      LastOfIsLast(calls, n - 1, wb);
    }
  }

  ghost predicate EarlierSettled<Op, A>(calls: seq<Call<Op, A>>, i: nat)
    requires i < |calls|
  {
    forall j :: 0 <= j < i && calls[j].workbench == calls[i].workbench ==> calls[j].phase.Settled?
  }

  ghost predicate BehindTheLast<Op, A>(calls: seq<Call<Op, A>>) {
    forall i {:trigger calls[i].behind} :: 0 <= i < |calls| ==> calls[i].behind == LastOf(calls, i, calls[i].workbench)
  }

  ghost predicate InTurn<Op, A>(calls: seq<Call<Op, A>>) {
    forall i {:trigger EarlierSettled(calls, i)} ::
      0 <= i < |calls| ==> calls[i].phase.Waiting? || EarlierSettled(calls, i)
  }

  ghost predicate TailsAreLast<Op, A>(b: Browser<Op, A>) {
    forall wb: string :: (if wb in b.tails then Some(b.tails[wb]) else None) == LastOf(b.calls, |b.calls|, wb)
  }

  ghost predicate Chained<Op, A>(b: Browser<Op, A>) {
    BehindTheLast(b.calls) && InTurn(b.calls) && TailsAreLast(b)
  }

  lemma {:induction false} LastOfAgrees<Op, A>(c1: seq<Call<Op, A>>, c2: seq<Call<Op, A>>, n: nat, wb: string)
    requires n <= |c1| && n <= |c2|
    requires forall k :: 0 <= k < n ==> c1[k].workbench == c2[k].workbench
    ensures LastOf(c1, n, wb) == LastOf(c2, n, wb)
  {
    if n > 0 {
      LastOfAgrees(c1, c2, n - 1, wb);
    }
  }

  /**
   A call waits for exactly the earlier calls of its own workbench: it may start if and
   only if every one of them has settled, fulfilled or rejected, and no other workbench
   is mentioned.
   */
  lemma StartsExactlyAfterItsOwn<Op, A>(b: Browser<Op, A>, i: nat)
    requires Chained(b) && i < |b.calls|
    ensures Ready(b, i) <==> b.calls[i].phase.Waiting? && EarlierSettled(b.calls, i)
  {
    var behind := b.calls[i].behind;
    assert behind == LastOf(b.calls, i, b.calls[i].workbench);
    LastOfIsLast(b.calls, i, b.calls[i].workbench);
    if behind.Some? {
      assert b.calls[behind.value].phase.Waiting? || EarlierSettled(b.calls, behind.value);
      SettledUpToTheTail(b.calls, behind.value, i);
    }
  }

  lemma SettledUpToTheTail<Op, A>(calls: seq<Call<Op, A>>, p: nat, i: nat)
    requires p < i < |calls| && calls[p].workbench == calls[i].workbench
    requires forall k :: p < k < i ==> calls[k].workbench != calls[i].workbench
    requires calls[p].phase.Waiting? || EarlierSettled(calls, p)
    ensures EarlierSettled(calls, i) <==> calls[p].phase.Settled?
  {
  }

  lemma ChainKeepsBehind<Op, A>(b: Browser<Op, A>, op: Op)
    requires BehindTheLast(b.calls) && TailsAreLast(b)
    ensures BehindTheLast(Chain(b, op).calls)
  {
    var calls' := Chain(b, op).calls;
    forall i | 0 <= i < |calls'| ensures calls'[i].behind == LastOf(calls', i, calls'[i].workbench) {
      if i < |b.calls| {
        assert calls'[i].behind == b.calls[i].behind;
      }
      LastOfAgrees(b.calls, calls', i, calls'[i].workbench);
    }
  }

  lemma ChainKeepsTurn<Op, A>(b: Browser<Op, A>, op: Op)
    requires InTurn(b.calls)
    ensures InTurn(Chain(b, op).calls)
  {
    var calls' := Chain(b, op).calls;
    forall i | 0 <= i < |calls'| ensures calls'[i].phase.Waiting? || EarlierSettled(calls', i) {
      if i < |b.calls| {
        assert b.calls[i].phase.Waiting? || EarlierSettled(b.calls, i);
      }
    }
  }

  lemma ChainKeepsTails<Op, A>(b: Browser<Op, A>, op: Op)
    requires TailsAreLast(b)
    ensures TailsAreLast(Chain(b, op))
  {
    var b' := Chain(b, op);
    forall wb: string
      ensures (if wb in b'.tails then Some(b'.tails[wb]) else None) == LastOf(b'.calls, |b'.calls|, wb)
    {
      LastOfAgrees(b.calls, b'.calls, |b.calls|, wb);
    }
  }

  lemma ChainKeepsChained<Op, A>(b: Browser<Op, A>, op: Op)
    requires Chained(b)
    ensures Chained(Chain(b, op))
  {
    ChainKeepsBehind(b, op);
    ChainKeepsTurn(b, op);
    ChainKeepsTails(b, op);
  }

  lemma SetPhaseKeepsTurn<Op, A>(b: Browser<Op, A>, i: nat, phase: Phase<A>)
    requires InTurn(b.calls) && i < |b.calls| && !phase.Waiting?
    requires EarlierSettled(b.calls, i)
    requires b.calls[i].phase.Settled? ==> phase.Settled?
    ensures InTurn(SetPhase(b, i, phase).calls)
  {
    var calls' := SetPhase(b, i, phase).calls;
    forall k | 0 <= k < |calls'| ensures calls'[k].phase.Waiting? || EarlierSettled(calls', k) {
      assert b.calls[k].phase.Waiting? || EarlierSettled(b.calls, k);
    }
  }

  lemma SetPhaseKeepsChained<Op, A>(b: Browser<Op, A>, i: nat, phase: Phase<A>)
    requires Chained(b) && i < |b.calls| && !phase.Waiting?
    requires EarlierSettled(b.calls, i)
    requires b.calls[i].phase.Settled? ==> phase.Settled?
    ensures Chained(SetPhase(b, i, phase))
  {
    var b' := SetPhase(b, i, phase);
    SetPhaseKeepsTurn(b, i, phase);
    forall k | 0 <= k < |b'.calls| ensures b'.calls[k].behind == LastOf(b'.calls, k, b'.calls[k].workbench) {
      assert b'.calls[k].behind == b.calls[k].behind;
      LastOfAgrees(b.calls, b'.calls, k, b.calls[k].workbench);
    }
    forall wb: string
      ensures (if wb in b'.tails then Some(b'.tails[wb]) else None) == LastOf(b'.calls, |b'.calls|, wb)
    {
      LastOfAgrees(b.calls, b'.calls, |b.calls|, wb);
    }
  }

  lemma StepKeepsChained<C, Op, A>(exec: (C, Op) -> (C, A), s: System<C, Op, A>, e: Event<Op>)
    requires Chained(s.browser) && Enabled(s, e)
    ensures Chained(Step(exec, s, e).browser)
  {
    var b := s.browser;
    match e
    case Switch(_) =>
    case Issue(op) => ChainKeepsChained(b, op);
    case Start(i) =>
      StartsExactlyAfterItsOwn(b, i);
      SetPhaseKeepsChained(b, i, Running);
    case Execute(i) =>
      var (c, a) := exec(s.checkouts(b.calls[i].workbench), b.calls[i].op);
      SetPhaseKeepsChained(b, i, Executed(a));
    case Answer(i) => SetPhaseKeepsChained(b, i, Settled(Fulfilled(b.calls[i].phase.answer)));
    case Fail(i) => SetPhaseKeepsChained(b, i, Settled(Rejected(Reached(b.calls[i].phase))));
  }

  lemma {:induction false} RunKeepsChained<C, Op, A>(exec: (C, Op) -> (C, A), s: System<C, Op, A>, run: seq<Event<Op>>)
    requires Chained(s.browser) && Possible(exec, s, run)
    ensures Chained(After(exec, s, run).browser)
    decreases |run|
  {
    if run != [] {
      StepKeepsChained(exec, s, run[0]);
      RunKeepsChained(exec, Step(exec, s, run[0]), run[1..]);
    }
  }

  ghost predicate InFlight<A>(phase: Phase<A>) { phase.Running? || phase.Executed? }

  /** Whatever the run and whatever was switched meanwhile, a workbench never has two calls in flight. */
  lemma OneAtATime<C, Op, A>(exec: (C, Op) -> (C, A), checkouts: string -> C, run: seq<Event<Op>>, i: nat, j: nat)
    requires Possible(exec, Opened(checkouts), run)
    requires var calls := After(exec, Opened(checkouts), run).browser.calls;
             i < j < |calls| && calls[i].workbench == calls[j].workbench
    ensures var calls := After(exec, Opened(checkouts), run).browser.calls;
            !calls[j].phase.Waiting? ==> calls[i].phase.Settled?
    ensures var calls := After(exec, Opened(checkouts), run).browser.calls;
            !(InFlight(calls[i].phase) && InFlight(calls[j].phase))
  {
    RunKeepsChained(exec, Opened(checkouts), run);
    var calls := After(exec, Opened(checkouts), run).browser.calls;
    if !calls[j].phase.Waiting? {
      assert EarlierSettled(calls, j);
    }
  }

  // --- every call runs once, with the workbench it was issued against ---

  /** What a run issued to wb, in order: the calls made while wb was the active workbench. */
  function IssuedTo<Op>(active: string, run: seq<Event<Op>>, wb: string): seq<Op>
    decreases |run|
  {
    if run == [] then []
    else match run[0]
      case Switch(id) => IssuedTo(id.GetOr(""), run[1..], wb)
      case Issue(op) => (if active == wb then [op] else []) + IssuedTo(active, run[1..], wb)
      case _ => IssuedTo(active, run[1..], wb)
  }

  function OpsOf<Op, A>(calls: seq<Call<Op, A>>, wb: string): seq<Op> {
    if calls == [] then []
    else OpsOf(calls[..|calls| - 1], wb) +
         (if calls[|calls| - 1].workbench == wb then [calls[|calls| - 1].op] else [])
  }

  lemma {:induction false} OpsOfIgnoresPhases<Op, A>(c1: seq<Call<Op, A>>, c2: seq<Call<Op, A>>, wb: string)
    requires |c1| == |c2|
    requires forall k :: 0 <= k < |c1| ==> c1[k].workbench == c2[k].workbench && c1[k].op == c2[k].op
    ensures OpsOf(c1, wb) == OpsOf(c2, wb)
  {
    if c1 != [] {
      OpsOfIgnoresPhases(c1[..|c1| - 1], c2[..|c2| - 1], wb);
    }
  }

  /**
   A workbench's calls are the ones issued while it was active, in issue order: what
   `setActiveWorkbench` does between a call's issue and its execution moves nothing.
   */
  lemma {:induction false} CallsKeepTheirWorkbench<C, Op, A>(
    exec: (C, Op) -> (C, A), s: System<C, Op, A>, run: seq<Event<Op>>, wb: string)
    requires Possible(exec, s, run)
    ensures OpsOf(After(exec, s, run).browser.calls, wb)
         == OpsOf(s.browser.calls, wb) + IssuedTo(s.browser.active, run, wb)
    decreases |run|
  {
    if run != [] {
      var s' := Step(exec, s, run[0]);
      CallsKeepTheirWorkbench(exec, s', run[1..], wb);
      match run[0]
      case Issue(op) => assert s'.browser.calls[..|s'.browser.calls| - 1] == s.browser.calls;
      case Switch(_) =>
      case _ => OpsOfIgnoresPhases(s.browser.calls, s'.browser.calls, wb);
    }
  }

  function Starts<Op>(run: seq<Event<Op>>, i: nat): nat {
    if run == [] then 0 else (if run[0] == Start(i) then 1 else 0) + Starts(run[1..], i)
  }

  /** 1 once the call has been run, 0 before. */
  function Begun<Op, A>(calls: seq<Call<Op, A>>, i: nat): nat {
    if i < |calls| && !calls[i].phase.Waiting? then 1 else 0
  }

  /** A call is run at most once in any run, and exactly once as soon as it is past waiting. */
  lemma {:induction false} EachCallRunsOnce<C, Op, A>(
    exec: (C, Op) -> (C, A), s: System<C, Op, A>, run: seq<Event<Op>>, i: nat)
    requires Possible(exec, s, run)
    ensures Begun(s.browser.calls, i) + Starts(run, i) == Begun(After(exec, s, run).browser.calls, i)
    decreases |run|
  {
    if run != [] {
      EachCallRunsOnce(exec, Step(exec, s, run[0]), run[1..], i);
    }
  }

  // --- progress ---

  function Distance<A>(phase: Phase<A>): nat {
    match phase
    case Waiting => 3
    case Running => 2
    case Executed(_) => 1
    case Settled(_) => 0
  }

  /** What is left to do: the turns the calls issued so far can still take. */
  function Work<Op, A>(calls: seq<Call<Op, A>>): nat {
    if calls == [] then 0 else Work(calls[..|calls| - 1]) + Distance(calls[|calls| - 1].phase)
  }

  lemma {:induction false} WorkAtOne<Op, A>(c1: seq<Call<Op, A>>, i: nat, phase: Phase<A>)
    requires i < |c1|
    ensures Work(c1[i := c1[i].(phase := phase)]) + Distance(c1[i].phase) == Work(c1) + Distance(phase)
  {
    var n := |c1| - 1;
    var c2 := c1[i := c1[i].(phase := phase)];
    if i == n {
      assert c1[..n] == c2[..n];
    } else {
      assert c2[..n] == c1[..n][i := c1[i].(phase := phase)];
      WorkAtOne(c1[..n], i, phase);
    }
  }

  /** Every turn uses work up, a switch leaves it alone, and only a new call adds some. */
  lemma TurnsUseWorkUp<C, Op, A>(exec: (C, Op) -> (C, A), s: System<C, Op, A>, e: Event<Op>)
    requires Enabled(s, e)
    ensures var w, w' := Work(s.browser.calls), Work(Step(exec, s, e).browser.calls);
            match e
            case Switch(_) => w' == w
            case Issue(_) => w' == w + 3
            case _ => w' < w
  {
    var calls := s.browser.calls;
    var calls' := Step(exec, s, e).browser.calls;
    match e
    case Switch(_) =>
    case Issue(op) => assert calls'[..|calls|] == calls;
    case Start(i) => WorkAtOne(calls, i, calls'[i].phase);
    case Execute(i) => WorkAtOne(calls, i, calls'[i].phase);
    case Answer(i) => WorkAtOne(calls, i, calls'[i].phase);
    case Fail(i) => WorkAtOne(calls, i, calls'[i].phase);
  }

  function NextTurn<Op, A>(calls: seq<Call<Op, A>>, i: nat): Event<Op>
    requires i < |calls|
  {
    match calls[i].phase
    case Waiting => Start(i)
    case Running => Execute(i)
    case _ => Answer(i)
  }

  /** The oldest unsettled call of a workbench can always take its turn, whatever the others are doing. */
  lemma {:induction false} NeverBlocked<C, Op, A>(s: System<C, Op, A>, i: nat) returns (front: nat)
    requires Chained(s.browser) && i < |s.browser.calls| && !s.browser.calls[i].phase.Settled?
    ensures front <= i && s.browser.calls[front].workbench == s.browser.calls[i].workbench
    ensures Enabled(s, NextTurn(s.browser.calls, front))
    decreases i
  {
    var calls := s.browser.calls;
    if EarlierSettled(calls, i) {
      front := i;
      StartsExactlyAfterItsOwn(s.browser, i);
    } else {
      var j :| 0 <= j < i && calls[j].workbench == calls[i].workbench && !calls[j].phase.Settled?;
      front := NeverBlocked(s, j);
    }
  }

  /** From any reachable state there is a way for every call issued so far to be settled. */
  lemma {:induction false} EverythingCanSettle<C, Op, A>(exec: (C, Op) -> (C, A), s: System<C, Op, A>)
    returns (run: seq<Event<Op>>)
    requires Chained(s.browser)
    ensures Possible(exec, s, run) && |run| <= Work(s.browser.calls)
    ensures var calls := After(exec, s, run).browser.calls;
            |calls| == |s.browser.calls| && forall i :: 0 <= i < |calls| ==> calls[i].phase.Settled?
    decreases Work(s.browser.calls)
  {
    var calls := s.browser.calls;
    if i :| 0 <= i < |calls| && !calls[i].phase.Settled? {
      var front := NeverBlocked(s, i);
      var e := NextTurn(calls, front);
      StepKeepsChained(exec, s, e);
      TurnsUseWorkUp(exec, s, e);
      var rest := EverythingCanSettle(exec, Step(exec, s, e));
      run := [e] + rest;
      assert run[1..] == rest;
    } else {
      run := [];
    }
  }

  // --- sequential consistency ---

  datatype Entry<+Op> = Entry(op: Op, reached: bool)

  /** What a workbench was asked, in issue order, and which of it got there. */
  function Log<Op, A>(calls: seq<Call<Op, A>>, wb: string): seq<Entry<Op>> {
    if calls == [] then []
    else var last := calls[|calls| - 1];
         Log(calls[..|calls| - 1], wb) +
         (if last.workbench == wb then [Entry(last.op, Reached(last.phase).Some?)] else [])
  }

  /** What came of it, in the same order. */
  function Answers<Op, A>(calls: seq<Call<Op, A>>, wb: string): seq<Option<A>> {
    if calls == [] then []
    else var last := calls[|calls| - 1];
         Answers(calls[..|calls| - 1], wb) + (if last.workbench == wb then [Reached(last.phase)] else [])
  }

  /** The reference: one checkout, one call after another, nothing concurrent anywhere. */
  function Serially<C, Op, A>(exec: (C, Op) -> (C, A), c: C, log: seq<Entry<Op>>): (C, seq<Option<A>>) {
    if log == [] then (c, [])
    else
      var (c1, answers) := Serially(exec, c, log[..|log| - 1]);
      var last := log[|log| - 1];
      if last.reached then
        var (c2, a) := exec(c1, last.op);
        (c2, answers + [Some(a)])
      else (c1, answers + [None])
  }

  lemma SeriallyOneMore<C, Op, A>(exec: (C, Op) -> (C, A), c: C, log: seq<Entry<Op>>, last: Entry<Op>)
    ensures var (c1, answers) := Serially(exec, c, log);
            Serially(exec, c, log + [last]) ==
            if last.reached then (exec(c1, last.op).0, answers + [Some(exec(c1, last.op).1)])
            else (c1, answers + [None])
  {
    assert (log + [last])[..|log|] == log;
  }

  /** What `wb` would be after the calls executed so far, done in issue order. */
  function Replayed<C, Op, A>(exec: (C, Op) -> (C, A), c: C, calls: seq<Call<Op, A>>, wb: string): C {
    Serially(exec, c, Log(calls, wb)).0
  }

  ghost predicate Serial<C, Op, A>(exec: (C, Op) -> (C, A), initial: string -> C, s: System<C, Op, A>) {
    && (forall wb: string :: s.checkouts(wb) == Replayed(exec, initial(wb), s.browser.calls, wb))
    && forall i :: 0 <= i < |s.browser.calls| ==> AnsweredSerially(exec, initial, s.browser.calls, i)
  }

  ghost predicate AnsweredSerially<C, Op, A>(
    exec: (C, Op) -> (C, A), initial: string -> C, calls: seq<Call<Op, A>>, i: nat)
    requires i < |calls|
  {
    var wb := calls[i].workbench;
    Reached(calls[i].phase).Some? ==>
      Reached(calls[i].phase).value == exec(Replayed(exec, initial(wb), calls[..i], wb), calls[i].op).1
  }

  /** Two call lists that differ only in how far unexecuted or executed calls have come have one log. */
  lemma {:induction false} LogAgrees<Op, A>(c1: seq<Call<Op, A>>, c2: seq<Call<Op, A>>, wb: string)
    requires |c1| == |c2|
    requires forall k :: 0 <= k < |c1| ==>
               c1[k].workbench == c2[k].workbench && c1[k].op == c2[k].op &&
               (c1[k].workbench == wb ==> Reached(c1[k].phase).Some? == Reached(c2[k].phase).Some?)
    ensures Log(c1, wb) == Log(c2, wb)
  {
    if c1 != [] {
      LogAgrees(c1[..|c1| - 1], c2[..|c2| - 1], wb);
    }
  }

  /** Calls nobody executed yet leave the replay where the executed ones put it. */
  lemma {:induction false} UnreachedTailIsSilent<C, Op, A>(
    exec: (C, Op) -> (C, A), c: C, calls: seq<Call<Op, A>>, n: nat, wb: string)
    requires n <= |calls|
    requires forall k :: n <= k < |calls| && calls[k].workbench == wb ==> Reached(calls[k].phase).None?
    ensures Replayed(exec, c, calls, wb) == Replayed(exec, c, calls[..n], wb)
    decreases |calls|
  {
    var last := |calls| - 1;
    if n == |calls| {
      assert calls[..n] == calls;
    } else {
      UnreachedTailIsSilent(exec, c, calls[..last], n, wb);
      assert calls[..last][..n] == calls[..n];
      assert Log(calls, wb) == Log(calls[..last], wb) || calls[last].workbench == wb;
      SeriallyOneMore(exec, c, Log(calls[..last], wb), Entry(calls[last].op, Reached(calls[last].phase).Some?));
    }
  }

  lemma LaterUnreached<Op, A>(calls: seq<Call<Op, A>>, i: nat)
    requires InTurn(calls) && i < |calls| && !calls[i].phase.Settled?
    ensures forall k :: i < k < |calls| && calls[k].workbench == calls[i].workbench ==> calls[k].phase.Waiting?
  {
    forall k | i < k < |calls| && calls[k].workbench == calls[i].workbench ensures calls[k].phase.Waiting? {
      assert calls[k].phase.Waiting? || EarlierSettled(calls, k);
    }
  }

  /** Executing the call in flight extends its workbench's replay by exactly that call. */
  lemma ExecuteExtendsReplay<C, Op, A>(
    exec: (C, Op) -> (C, A), c: C, calls: seq<Call<Op, A>>, i: nat, a: A)
    requires InTurn(calls) && i < |calls| && calls[i].phase.Running?
    ensures Replayed(exec, c, calls[..i], calls[i].workbench) == Replayed(exec, c, calls, calls[i].workbench)
    ensures Replayed(exec, c, calls[i := calls[i].(phase := Executed(a))], calls[i].workbench)
         == exec(Replayed(exec, c, calls, calls[i].workbench), calls[i].op).0
  {
    var wb := calls[i].workbench;
    var calls' := calls[i := calls[i].(phase := Executed(a))];
    LaterUnreached(calls, i);
    UnreachedTailIsSilent(exec, c, calls, i, wb);
    UnreachedTailIsSilent(exec, c, calls', i + 1, wb);
    assert calls'[..i + 1][..i] == calls[..i];
    SeriallyOneMore(exec, c, Log(calls[..i], wb), Entry(calls[i].op, true));
  }

  lemma ExecuteKeepsAnswers<C, Op, A>(
    exec: (C, Op) -> (C, A), initial: string -> C, calls: seq<Call<Op, A>>, i: nat, a: A, k: nat)
    requires i < |calls| && k < |calls| && k != i && InTurn(calls) && calls[i].phase.Running?
    requires AnsweredSerially(exec, initial, calls, k)
    ensures AnsweredSerially(exec, initial, calls[i := calls[i].(phase := Executed(a))], k)
  {
    var calls' := calls[i := calls[i].(phase := Executed(a))];
    if Reached(calls[k].phase).Some? {
      LaterUnreached(calls, i);
      LogAgrees(calls[..k], calls'[..k], calls[k].workbench);
    }
  }

  lemma ExecuteKeepsSerial<C, Op, A>(
    exec: (C, Op) -> (C, A), initial: string -> C, s: System<C, Op, A>, i: nat)
    requires Chained(s.browser) && Serial(exec, initial, s) && Enabled(s, Execute(i))
    ensures Serial(exec, initial, Step(exec, s, Execute(i)))
  {
    var s' := Step(exec, s, Execute(i));
    var calls, calls' := s.browser.calls, s'.browser.calls;
    var wb := calls[i].workbench;
    var (c, a) := exec(s.checkouts(wb), calls[i].op);
    ExecuteExtendsReplay(exec, initial(wb), calls, i, a);
    forall other: string ensures s'.checkouts(other) == Replayed(exec, initial(other), calls', other) {
      if other != wb {
        LogAgrees(calls, calls', other);
      }
    }
    forall k | 0 <= k < |calls'| ensures AnsweredSerially(exec, initial, calls', k) {
      if k == i {
        assert calls'[..i] == calls[..i];
      } else {
        assert AnsweredSerially(exec, initial, calls, k);
        ExecuteKeepsAnswers(exec, initial, calls, i, a, k);
      }
    }
  }

  lemma SameReachedKeepsSerial<C, Op, A>(
    exec: (C, Op) -> (C, A), initial: string -> C, s: System<C, Op, A>, s': System<C, Op, A>)
    requires Serial(exec, initial, s) && s'.checkouts == s.checkouts
    requires |s'.browser.calls| == |s.browser.calls|
    requires forall k :: 0 <= k < |s.browser.calls| ==>
               var was, now := s.browser.calls[k], s'.browser.calls[k];
               now.workbench == was.workbench && now.op == was.op && Reached(now.phase) == Reached(was.phase)
    ensures Serial(exec, initial, s')
  {
    var calls, calls' := s.browser.calls, s'.browser.calls;
    forall wb: string ensures s'.checkouts(wb) == Replayed(exec, initial(wb), calls', wb) {
      LogAgrees(calls, calls', wb);
    }
    forall k | 0 <= k < |calls'| ensures AnsweredSerially(exec, initial, calls', k) {
      assert AnsweredSerially(exec, initial, calls, k);
      LogAgrees(calls[..k], calls'[..k], calls[k].workbench);
    }
  }

  lemma IssueKeepsSerial<C, Op, A>(
    exec: (C, Op) -> (C, A), initial: string -> C, s: System<C, Op, A>, op: Op)
    requires Serial(exec, initial, s)
    ensures Serial(exec, initial, Step(exec, s, Issue(op)))
  {
    var s' := Step(exec, s, Issue(op));
    var calls, calls' := s.browser.calls, s'.browser.calls;
    assert calls'[..|calls|] == calls;
    forall wb: string ensures s'.checkouts(wb) == Replayed(exec, initial(wb), calls', wb) {
      UnreachedTailIsSilent(exec, initial(wb), calls', |calls|, wb);
    }
    forall k | 0 <= k < |calls'| ensures AnsweredSerially(exec, initial, calls', k) {
      if k < |calls| {
        assert AnsweredSerially(exec, initial, calls, k);
        assert calls'[..k] == calls[..k];
      }
    }
  }

  lemma StepKeepsSerial<C, Op, A>(
    exec: (C, Op) -> (C, A), initial: string -> C, s: System<C, Op, A>, e: Event<Op>)
    requires Chained(s.browser) && Serial(exec, initial, s) && Enabled(s, e)
    ensures Serial(exec, initial, Step(exec, s, e))
  {
    match e
    case Execute(i) => ExecuteKeepsSerial(exec, initial, s, i);
    case Issue(op) => IssueKeepsSerial(exec, initial, s, op);
    case _ => SameReachedKeepsSerial(exec, initial, s, Step(exec, s, e));
  }

  lemma {:induction false} RunKeepsSerial<C, Op, A>(
    exec: (C, Op) -> (C, A), initial: string -> C, s: System<C, Op, A>, run: seq<Event<Op>>)
    requires Chained(s.browser) && Serial(exec, initial, s) && Possible(exec, s, run)
    ensures Serial(exec, initial, After(exec, s, run))
    decreases |run|
  {
    if run != [] {
      StepKeepsSerial(exec, initial, s, run[0]);
      StepKeepsChained(exec, s, run[0]);
      RunKeepsSerial(exec, initial, Step(exec, s, run[0]), run[1..]);
    }
  }

  lemma {:induction false} SerialAnswers<C, Op, A>(
    exec: (C, Op) -> (C, A), initial: string -> C, calls: seq<Call<Op, A>>, wb: string)
    requires forall i :: 0 <= i < |calls| ==> AnsweredSerially(exec, initial, calls, i)
    ensures Serially(exec, initial(wb), Log(calls, wb)).1 == Answers(calls, wb)
  {
    if calls != [] {
      var n := |calls| - 1;
      forall i | 0 <= i < n ensures AnsweredSerially(exec, initial, calls[..n], i) {
        assert AnsweredSerially(exec, initial, calls, i);
        assert calls[..n][..i] == calls[..i];
      }
      SerialAnswers(exec, initial, calls[..n], wb);
      if calls[n].workbench == wb {
        assert AnsweredSerially(exec, initial, calls, n);
        SeriallyOneMore(exec, initial(wb), Log(calls[..n], wb), Entry(calls[n].op, Reached(calls[n].phase).Some?));
      } else {
        assert Log(calls, wb) == Log(calls[..n], wb) && Answers(calls, wb) == Answers(calls[..n], wb);
      }
    }
  }

  /**
   Sequential consistency. After any run at all - issues, starts, executions, answers,
   failures and switches interleaved over any number of workbenches - each checkout and
   every answer it gave are those of running that workbench's own calls one at a time, in
   issue order.
   */
  lemma SequentiallyConsistent<C, Op, A>(
    exec: (C, Op) -> (C, A), checkouts: string -> C, run: seq<Event<Op>>, wb: string)
    requires Possible(exec, Opened(checkouts), run)
    ensures var s := After(exec, Opened(checkouts), run);
            Serially(exec, checkouts(wb), Log(s.browser.calls, wb)) == (s.checkouts(wb), Answers(s.browser.calls, wb))
  {
    RunKeepsSerial(exec, checkouts, Opened(checkouts), run);
    SerialAnswers(exec, checkouts, After(exec, Opened(checkouts), run).browser.calls, wb);
  }

  /** Which of wb's calls were executed, in issue order: the only thing the network decides. */
  function ReachedOf<Op, A>(calls: seq<Call<Op, A>>, wb: string): seq<bool> {
    if calls == [] then []
    else var last := calls[|calls| - 1];
         ReachedOf(calls[..|calls| - 1], wb) + (if last.workbench == wb then [Reached(last.phase).Some?] else [])
  }

  lemma {:induction false} LogIsOpsAndReached<Op, A>(calls: seq<Call<Op, A>>, wb: string)
    ensures |Log(calls, wb)| == |OpsOf(calls, wb)| == |ReachedOf(calls, wb)|
    ensures forall k :: 0 <= k < |Log(calls, wb)| ==>
              Log(calls, wb)[k] == Entry(OpsOf(calls, wb)[k], ReachedOf(calls, wb)[k])
  {
    if calls != [] {
      LogIsOpsAndReached(calls[..|calls| - 1], wb);
    }
  }

  /**
   Confluence. Two runs that issued the same calls to wb and lost the same ones leave wb
   with the same checkout and the same answers, however differently they were timed and
   whatever they did in every other workbench.
   */
  lemma OnlyOwnCallsMatter<C, Op, A>(
    exec: (C, Op) -> (C, A), one: string -> C, other: string -> C,
    run1: seq<Event<Op>>, run2: seq<Event<Op>>, wb: string)
    requires Possible(exec, Opened(one), run1) && Possible(exec, Opened(other), run2)
    requires one(wb) == other(wb)
    requires IssuedTo("", run1, wb) == IssuedTo("", run2, wb)
    requires ReachedOf(After(exec, Opened(one), run1).browser.calls, wb)
          == ReachedOf(After(exec, Opened(other), run2).browser.calls, wb)
    ensures var s1, s2 := After(exec, Opened(one), run1), After(exec, Opened(other), run2);
            s1.checkouts(wb) == s2.checkouts(wb) && Answers(s1.browser.calls, wb) == Answers(s2.browser.calls, wb)
  {
    var s1, s2 := After(exec, Opened(one), run1), After(exec, Opened(other), run2);
    CallsKeepTheirWorkbench(exec, Opened(one), run1, wb);
    CallsKeepTheirWorkbench(exec, Opened(other), run2, wb);
    LogIsOpsAndReached(s1.browser.calls, wb);
    LogIsOpsAndReached(s2.browser.calls, wb);
    assert Log(s1.browser.calls, wb) == Log(s2.browser.calls, wb);
    SequentiallyConsistent(exec, one, run1, wb);
    SequentiallyConsistent(exec, other, run2, wb);
  }

  // --- what the panes see of it ---

  /** The calls not settled yet, oldest first. */
  function Outstanding<Op, A>(calls: seq<Call<Op, A>>): seq<Pending<Op>> {
    if calls == [] then []
    else var last := calls[|calls| - 1];
         Outstanding(calls[..|calls| - 1]) + (if last.phase.Settled? then [] else [Pending(last.workbench, last.op)])
  }

  lemma {:induction false} OutstandingFrom<Op, A>(calls: seq<Call<Op, A>>, j: nat)
    requires j < |calls| && !calls[j].phase.Settled?
    ensures var k := |Outstanding(calls[..j])|;
            k < |Outstanding(calls)| && Outstanding(calls)[..k] == Outstanding(calls[..j]) &&
            Outstanding(calls)[k] == Pending(calls[j].workbench, calls[j].op)
    decreases |calls|
  {
    var n := |calls| - 1;
    if j == n {
      assert calls[..j] == calls[..n];
    } else {
      OutstandingFrom(calls[..n], j);
      assert calls[..n][..j] == calls[..j];
    }
  }

  lemma {:induction false} OutstandingOnlyUnsettled<Op, A>(calls: seq<Call<Op, A>>, wb: string)
    requires forall j :: 0 <= j < |calls| && calls[j].workbench == wb ==> calls[j].phase.Settled?
    ensures forall k :: 0 <= k < |Outstanding(calls)| ==> Outstanding(calls)[k].workbench != wb
  {
    if calls != [] {
      OutstandingOnlyUnsettled(calls[..|calls| - 1], wb);
    }
  }

  lemma {:induction false} SettlingDropsOne<Op, A>(calls: seq<Call<Op, A>>, i: nat, outcome: Outcome<A>)
    requires i < |calls| && !calls[i].phase.Settled?
    ensures |Outstanding(calls[..i])| < |Outstanding(calls)|
    ensures Outstanding(calls[i := calls[i].(phase := Settled(outcome))])
         == Without(Outstanding(calls), |Outstanding(calls[..i])|)
  {
    var n := |calls| - 1;
    var calls' := calls[i := calls[i].(phase := Settled(outcome))];
    var k := |Outstanding(calls[..i])|;
    OutstandingFrom(calls, i);
    if i == n {
      assert calls'[..n] == calls[..n];
    } else {
      SettlingDropsOne(calls[..n], i, outcome);
      assert calls[..n][..i] == calls[..i];
      assert calls'[..n] == calls[..n][i := calls[i].(phase := Settled(outcome))];
      var tail := if calls[n].phase.Settled? then [] else [Pending(calls[n].workbench, calls[n].op)];
      assert Outstanding(calls') == Without(Outstanding(calls[..n]), k) + tail;
      assert Outstanding(calls) == Outstanding(calls[..n]) + tail;
    }
  }

  lemma {:induction false} OutstandingUnchanged<Op, A>(c1: seq<Call<Op, A>>, c2: seq<Call<Op, A>>)
    requires |c1| == |c2|
    requires forall k :: 0 <= k < |c1| ==> c1[k].workbench == c2[k].workbench && c1[k].op == c2[k].op &&
                                           (c1[k].phase.Settled? <==> c2[k].phase.Settled?)
    ensures Outstanding(c1) == Outstanding(c2)
  {
    if c1 != [] {
      OutstandingUnchanged(c1[..|c1| - 1], c2[..|c2| - 1]);
    }
  }

  ghost predicate AnsweredFromTheFront<Op, A>(
    before: seq<Pending<Op>>, after: seq<Pending<Op>>, call: Call<Op, A>)
  {
    exists k: nat ::
      MayAnswer(before, k) && before[k] == Pending(call.workbench, call.op) && after == Without(before, k)
  }

  /**
   The chain of promises refines per-workbench FIFOs: issuing appends, an answer or a
   failure removes an entry no earlier entry of its workbench precedes, and no other event
   changes what is outstanding. The pane models run on this view.
   */
  lemma ChainRefinesFifos<C, Op, A>(exec: (C, Op) -> (C, A), s: System<C, Op, A>, e: Event<Op>)
    requires Chained(s.browser) && Enabled(s, e)
    ensures var before, after := Outstanding(s.browser.calls), Outstanding(Step(exec, s, e).browser.calls);
            match e
            case Issue(op) => after == before + [Pending(s.browser.active, op)]
            case Answer(i) => AnsweredFromTheFront(before, after, s.browser.calls[i])
            case Fail(i) => AnsweredFromTheFront(before, after, s.browser.calls[i])
            case _ => after == before
  {
    var calls := s.browser.calls;
    var calls' := Step(exec, s, e).browser.calls;
    match e
    case Issue(op) => assert calls'[..|calls|] == calls;
    case Answer(i) => SettledFromTheFront(s.browser, i, calls'[i].phase.outcome);
    case Fail(i) => SettledFromTheFront(s.browser, i, calls'[i].phase.outcome);
    case _ => OutstandingUnchanged(calls, calls');
  }

  lemma SettledFromTheFront<Op, A>(b: Browser<Op, A>, i: nat, outcome: Outcome<A>)
    requires Chained(b) && i < |b.calls| && InFlight(b.calls[i].phase)
    ensures AnsweredFromTheFront(
              Outstanding(b.calls), Outstanding(SetPhase(b, i, Settled(outcome)).calls), b.calls[i])
  {
    var before, k := Outstanding(b.calls), |Outstanding(b.calls[..i])|;
    assert EarlierSettled(b.calls, i);
    OutstandingFrom(b.calls, i);
    SettlingDropsOne(b.calls, i, outcome);
    OutstandingOnlyUnsettled(b.calls[..i], b.calls[i].workbench);
    forall j | 0 <= j < k ensures before[j].workbench != before[k].workbench {
      assert before[j] == before[..k][j];
    }
  }

  // --- the module state as the source holds it ---

  class WorkspaceQueues<Op, A> {
    var activeWorkbench: string
    var workspaceQueues: map<string, nat>
    var calls: seq<Call<Op, A>>

    ghost function State(): Browser<Op, A>
      reads this
    {
      Browser(activeWorkbench, workspaceQueues, calls)
    }

    constructor ()
      ensures State() == Browser("", map[], [])
      ensures Chained(State())
    {
      activeWorkbench, workspaceQueues, calls := "", map[], [];
    }

    method SetActiveWorkbench(id: Option<string>)
      requires Chained(State())
      modifies this
      ensures State() == SetActive(old(State()), id)
      ensures Chained(State())
    {
      match id {
        case None => activeWorkbench := "";
        case Some(wb) => activeWorkbench := wb;
      }
    }

    /** Issues a call: it joins the queue of the workbench that is active now, and stays in it. */
    method Workspace(op: Op) returns (call: nat)
      requires Chained(State())
      modifies this
      ensures State() == Chain(old(State()), op)
      ensures call == |old(calls)| && calls[call].workbench == old(activeWorkbench)
      ensures Chained(State())
    {
      ChainKeepsChained(State(), op);
      var key := activeWorkbench;
      var tail := None;
      if key in workspaceQueues {
        tail := Some(workspaceQueues[key]);
      }
      call := |calls|;
      calls := calls + [Call(key, op, tail, Waiting)];
      workspaceQueues := workspaceQueues[key := call];
    }

    /** The promise a call is chained to has settled, so the call is made, with the workbench it was issued against. */
    method Run(call: nat) returns (workbench: string, op: Op)
      requires Chained(State()) && Ready(State(), call)
      modifies this
      ensures State() == SetPhase(old(State()), call, Running)
      ensures workbench == old(calls)[call].workbench && op == old(calls)[call].op
      ensures EarlierSettled(old(calls), call)
      ensures Chained(State())
    {
      StartsExactlyAfterItsOwn(State(), call);
      SetPhaseKeepsChained(State(), call, Running);
      workbench, op := calls[call].workbench, calls[call].op;
      calls := calls[call := calls[call].(phase := Running)];
    }
  }
}
