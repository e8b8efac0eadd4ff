/**
 * In which order conversations are run (Sessions, app/src/sessions.ts:2225-2231,
 * 2697-2734, 2853-2894): where a message, a run's return and a stop leave a
 * lane, what a run takes from it, and that over any run of steps who is queued
 * earlier is taken earlier.
 */
module LanesOrder {
  import opened Options
  import opened Subsequences
  import opened Lanes

  // ---- What each step leaves ---------------------------------------------------------------

  /** A queue that has the conversation: where it was, or new at one end, everyone else in their order. */
  ghost predicate QueuePut(before: seq<nat>, after: seq<nat>, s: nat, first: bool) {
    if s in before then after == before
    else
      && |after| == |before| + 1 && after[if first then 0 else |before|] == s
      && forall i :: 0 <= i < |before| ==> after[if first then i + 1 else i] == before[i]
  }

  /** No other conversation is touched. */
  ghost predicate OthersStay(st: State, st': State, s: nat) {
    |st'.sessions| == |st.sessions| && forall x: nat :: x < |st.sessions| && x != s ==> st'.sessions[x] == st.sessions[x]
  }

  predicate IsCalls(st: State, s: nat)
    requires s < |st.sessions|
  {
    st.sessions[s].kind == OfCall
  }

  function CurrentOf(st: State, calls: bool): Option<nat> {
    if calls then st.calls.current else st.texts.current
  }

  /** Of the two lanes, only this one's queue may change. */
  ghost predicate OneQueue(st: State, st': State, calls: bool) {
    QueueOf(st', !calls) == QueueOf(st, !calls) && st'.calls.current == st.calls.current && st'.texts.current == st.texts.current
  }

  /** The run going on reads what comes: a task's does not, nor one of a call left open. */
  predicate ReadNow(it: Session) {
    it.kind != OfTask && it.phase == Working && !it.leftOpen
  }

  /**
   * A message is the last of what the run going on has to read, and then no
   * queue changes; or the last of what waits, and then its conversation, if it
   * was in no place of its lane, has the last: the first, for the person's own
   * message.
   */
  lemma DeliveredWhere(st: State, s: nat, m: Message, first: bool)
    requires s < |st.sessions|
    ensures
      var it, st' := st.sessions[s], Next(st, Delivers(s, m, first));
      var came := it.came + [m];
      && OthersStay(st, st', s) && OneQueue(st, st', IsCalls(st, s))
      && (if ReadNow(it) then
            st'.sessions[s] == it.(came := came, inbox := it.inbox + [m]) && QueueOf(st', IsCalls(st, s)) == QueueOf(st, IsCalls(st, s))
          else
            && st'.sessions[s] == it.(came := came, waiting := it.waiting + [m])
            && QueuePut(QueueOf(st, IsCalls(st, s)), QueueOf(st', IsCalls(st, s)), s, first))
  {
  }

  /** A flow's task waits last, and its answer is waited for last. */
  lemma AskedWhere(st: State, s: nat, m: Message)
    requires s < |st.sessions| && st.sessions[s].kind == OfTask
    ensures
      var it, st' := st.sessions[s], Next(st, Asks(s, m));
      && OthersStay(st, st', s) && OneQueue(st, st', false) && QueuePut(QueueOf(st, false), QueueOf(st', false), s, false)
      && st'.sessions[s] == it.(came := it.came + [m], waiting := it.waiting + [m], answers := it.answers + [m], asked := it.asked + [m.id])
  {
  }

  /** A run asked for after the one going on: never read into that one, last in its lane. */
  lemma QueuedWhere(st: State, s: nat, m: Message)
    requires s < |st.sessions|
    ensures
      var it, st' := st.sessions[s], Next(st, Queues(s, m));
      && OthersStay(st, st', s) && OneQueue(st, st', IsCalls(st, s)) && QueuePut(QueueOf(st, IsCalls(st, s)), QueueOf(st', IsCalls(st, s)), s, false)
      && st'.sessions[s] == it.(came := it.came + [m], waiting := it.waiting + [m])
  {
  }

  /** What a run that ended left unread waits after what waits already, its conversation last in its lane; and the lane is free. */
  lemma ReturnedWhere(st: State, s: nat)
    requires s < |st.sessions| && st.sessions[s].phase == Saving
    ensures
      var it, st', calls := st.sessions[s], Next(st, Returns(s)), IsCalls(st, s);
      && OthersStay(st, st', s) && QueueOf(st', !calls) == QueueOf(st, !calls)
      && CurrentOf(st', calls) == None && CurrentOf(st', !calls) == CurrentOf(st, !calls)
      && st'.sessions[s] == it.(phase := Idle, unread := [], waiting := it.waiting + it.unread)
      && (if it.unread == [] then QueueOf(st', calls) == QueueOf(st, calls) else QueuePut(QueueOf(st, calls), QueueOf(st', calls), s, false))
  {
    var it := st.sessions[s];
    assert it.waiting + [] == it.waiting;
  }

  /**
   * The head of a lane's queue is run: all that waits for it, in its order, is
   * the run's prompt; of a flow's tasks the first alone, and then it is queued
   * again, last, for the others. The rest of the queue moves up one.
   */
  lemma TakenWhat(st: State, kind: Kind)
    requires Kept(st) && CanCome(st, Pumps(kind))
    ensures
      var calls := kind == OfCall;
      var s := QueueOf(st, calls)[0];
      var it, st', queue := st.sessions[s], Next(st, Pumps(kind)), QueueOf(st, calls)[1..];
      && OthersStay(st, st', s) && QueueOf(st', !calls) == QueueOf(st, !calls)
      && CurrentOf(st', calls) == Some(s) && CurrentOf(st', !calls) == CurrentOf(st, !calls)
      && var to := st'.sessions[s];
         && to.phase == Starting && to.prompt != [] && to.prompt + to.waiting == it.waiting
         && (if it.kind == OfTask then |to.prompt| == 1 else to.waiting == [])
         && to.onCall == it.callId && !to.leftOpen && to == it.(phase := to.phase, prompt := to.prompt, waiting := to.waiting, onCall := to.onCall, leftOpen := false, outcomes := to.outcomes)
         && |to.outcomes| == |it.outcomes| + |to.prompt| && to.outcomes[..|it.outcomes|] == it.outcomes
         && (forall i :: 0 <= i < |to.prompt| ==> to.outcomes[|it.outcomes| + i] == Outcome(to.prompt[i], TookByRun))
         && QueueOf(st', calls) == if to.waiting == [] then queue else queue + [s]
  {
    hide SessionOk, NoRepeats;
    var calls := kind == OfCall;
    var s := QueueOf(st, calls)[0];
    QueueParts(st, calls);
    assert s in QueueOf(st, calls);
    var it := st.sessions[s];
    var to := Next(st, Pumps(kind)).sessions[s];
    assert to.prompt + to.waiting == it.waiting;
  }

  /** The agent reads all that came while it worked, in its order. */
  lemma ReadWhat(st: State, s: nat)
    requires s < |st.sessions| && st.sessions[s].phase == Working
    ensures
      var it, to := st.sessions[s], Next(st, Reads(s)).sessions[s];
      && OthersStay(st, Next(st, Reads(s)), s) && Next(st, Reads(s)).texts == st.texts && Next(st, Reads(s)).calls == st.calls
      && to == it.(inbox := [], outcomes := to.outcomes)
      && |to.outcomes| == |it.outcomes| + |it.inbox| && to.outcomes[..|it.outcomes|] == it.outcomes
      && forall i :: 0 <= i < |it.inbox| ==> to.outcomes[|it.outcomes| + i] == Outcome(it.inbox[i], ReadByRun)
  {
  }

  /** As its run ends, what its agent did not read is left unread; but of a call that is over, or another than the run's, it is let go. */
  lemma EndedWhat(st: State, s: nat)
    requires Kept(st) && s < |st.sessions| && st.sessions[s].phase == Stopping
    ensures
      var it, st' := st.sessions[s], Next(st, Finishes(s));
      var over := it.onCall.Some? && it.callId != it.onCall;
      var to := st'.sessions[s];
      && OthersStay(st, st', s) && st'.texts == st.texts && st'.calls == st.calls
      && to.phase == Saving && to.prompt == [] && to.inbox == [] && to.unread == (if over then [] else it.inbox) && to.waiting == it.waiting
      && to.came == it.came && to.asked == it.asked
      && (if over then
            && |to.outcomes| == |it.outcomes| + |it.inbox| && to.outcomes[..|it.outcomes|] == it.outcomes
            && forall i :: 0 <= i < |it.inbox| ==> to.outcomes[|it.outcomes| + i] == Outcome(it.inbox[i], CallWasOver)
          else to.outcomes == it.outcomes)
  {
    hide FindAnswer, Words, NoneLost, TasksKept, QueueOk, OneRun;
    assert SessionOk(st.sessions[s]);
  }

  lemma {:induction false} WithoutIsOnly(queue: seq<nat>, s: nat)
    requires NoRepeats(queue)
    ensures Without(queue, s) == Only(queue, Elements(queue) - {s})
  {
    if queue != [] {
      var rest := queue[1..];
      assert forall i :: 0 <= i < |rest| ==> rest[i] == queue[i + 1];
      assert queue == [queue[0]] + rest;
      if queue[0] == s {
        forall x | x in rest
          ensures x in Elements(queue) - {s}
        {
          assert x in queue;
        }
        OnlyAll(rest, Elements(queue) - {s});
      } else {
        WithoutIsOnly(rest, s);
        OnlySame(rest, Elements(queue) - {s}, Elements(rest) - {s});
      }
    }
  }

  /** Stopped: what waited is let go, in its order, the flows are told, and no lane has it; everyone else keeps their order. */
  lemma StoppedWhat(st: State, s: nat)
    requires Kept(st) && s < |st.sessions|
    ensures
      var it, st' := st.sessions[s], Next(st, Stops(s));
      var to := st'.sessions[s];
      && OthersStay(st, st', s) && st'.texts.current == st.texts.current && st'.calls.current == st.calls.current
      && (forall calls :: QueueOf(st', calls) == Only(QueueOf(st, calls), Elements(QueueOf(st, calls)) - {s}))
      && to == it.(waiting := [], answers := [], outcomes := to.outcomes, settled := to.settled)
      && |to.outcomes| == |it.outcomes| + |it.waiting| && to.outcomes[..|it.outcomes|] == it.outcomes
      && (forall i :: 0 <= i < |it.waiting| ==> to.outcomes[|it.outcomes| + i] == Outcome(it.waiting[i], WasStopped))
      && |to.settled| == |it.settled| + |it.answers| && to.settled[..|it.settled|] == it.settled
      && (forall i :: 0 <= i < |it.answers| ==> to.settled[|it.settled| + i] == Settled(it.answers[i].id, None))
  {
    hide SessionOk, NoRepeats, Without, Only;
    QueueParts(st, true);
    QueueParts(st, false);
    var st' := Next(st, Stops(s));
    WithoutIsOnly(st.texts.queue, s);
    WithoutIsOnly(st.calls.queue, s);
    assert QueueOf(st', true) == Without(st.calls.queue, s) && QueueOf(st', false) == Without(st.texts.queue, s);
    forall calls
      ensures QueueOf(st', calls) == Only(QueueOf(st, calls), Elements(QueueOf(st, calls)) - {s})
    {
      if calls {
        assert QueueOf(st, calls) == st.calls.queue;
      } else {
        assert QueueOf(st, calls) == st.texts.queue;
      }
    }
  }

  // ---- First queued, first taken --------------------------------------------------------------

  /** Nothing in this lane is put first, and the conversation is not stopped. */
  predicate LeavesTurn(st: State, step: Step, calls: bool, a: nat) {
    match step
    case Delivers(s, _, first) => !(first && s < |st.sessions| && IsCalls(st, s) == calls)
    case Stops(s) => s != a
    case CallEnds(s) => s != a
    case _ => true
  }

  /** This step takes a conversation of the lane. */
  predicate Takes(step: Step, calls: bool) {
    step.Pumps? && (step.kind == OfCall) == calls
  }

  /** In the queue, with at most `p` before it. */
  ghost predicate AtMostAt(queue: seq<nat>, a: nat, p: int) {
    exists i :: 0 <= i < |queue| && i <= p && queue[i] == a
  }

  /** One step: a conversation that is not taken by it is no further back, and one place further on when another of its lane is. */
  lemma OneStepOn(st: State, step: Step, calls: bool, a: nat, p: int)
    requires Kept(st) && CanCome(st, step) && LeavesTurn(st, step, calls, a)
    requires AtMostAt(QueueOf(st, calls), a, p) && !(Takes(step, calls) && QueueOf(st, calls)[0] == a)
    ensures AtMostAt(QueueOf(Next(st, step), calls), a, if Takes(step, calls) then p - 1 else p)
  {
    hide Kept, Next, OthersStay;
    var queue := QueueOf(st, calls);
    var i :| 0 <= i < |queue| && i <= p && queue[i] == a;
    match step
    case Delivers(s, m, first) => DeliveredWhere(st, s, m, first); StillThere(st, Next(st, step), calls, a, i, s);
    case Queues(s, m) => QueuedWhere(st, s, m); StillThere(st, Next(st, step), calls, a, i, s);
    case Asks(s, m) => AskedWhere(st, s, m); StillThere(st, Next(st, step), calls, a, i, s);
    case Pumps(kind) => MovedUp(st, kind, calls, a, i);
    case Returns(s) => ReturnLeaves(st, s, calls, a, i);
    case Stops(s) => StopLeaves(st, s, calls, a, i);
    case CallEnds(s) => StopLeaves(st, s, calls, a, i); CallEndIs(st, s);
    case _ => SameQueues(st, step);
  }

  lemma StillThere(st: State, st': State, calls: bool, a: nat, i: nat, s: nat)
    requires i < |QueueOf(st, calls)| && QueueOf(st, calls)[i] == a
    requires QueueOf(st', calls) == QueueOf(st, calls) || QueuePut(QueueOf(st, calls), QueueOf(st', calls), s, false)
    ensures i < |QueueOf(st', calls)| && QueueOf(st', calls)[i] == a
  {
  }

  lemma MovedUp(st: State, kind: Kind, calls: bool, a: nat, i: nat)
    requires Kept(st) && CanCome(st, Pumps(kind)) && i < |QueueOf(st, calls)| && QueueOf(st, calls)[i] == a
    requires (kind == OfCall) == calls ==> QueueOf(st, calls)[0] != a
    ensures
      var queue := QueueOf(Next(st, Pumps(kind)), calls);
      var j := if (kind == OfCall) == calls then i - 1 else i;
      0 <= j < |queue| && queue[j] == a
  {
    hide Kept, Next, OthersStay;
    TakenWhat(st, kind);
  }

  lemma ReturnLeaves(st: State, s: nat, calls: bool, a: nat, i: nat)
    requires s < |st.sessions| && i < |QueueOf(st, calls)| && QueueOf(st, calls)[i] == a
    ensures i < |QueueOf(Next(st, Returns(s)), calls)| && QueueOf(Next(st, Returns(s)), calls)[i] == a
  {
    if st.sessions[s].phase == Saving {
      ReturnedWhere(st, s);
      hide Next;
      StillThere(st, Next(st, Returns(s)), calls, a, i, s);
    }
  }

  lemma StopLeaves(st: State, s: nat, calls: bool, a: nat, i: nat)
    requires Kept(st) && s < |st.sessions| && s != a && i < |QueueOf(st, calls)| && QueueOf(st, calls)[i] == a
    ensures AtMostAt(QueueOf(Next(st, Stops(s)), calls), a, i)
  {
    hide Kept, Next, OthersStay, Only;
    StoppedWhat(st, s);
    var queue := QueueOf(st, calls);
    assert a in queue;
    OnlyNoLater(queue, Elements(queue) - {s}, i);
  }

  /** Letting others go moves no one back. */
  lemma {:induction false} OnlyNoLater(queue: seq<nat>, keep: set<nat>, i: nat)
    requires i < |queue| && queue[i] in keep
    ensures AtMostAt(Only(queue, keep), queue[i], i)
  {
    var first, rest := if queue[0] in keep then [queue[0]] else [], queue[1..];
    if i == 0 {
      assert Only(queue, keep)[0] == queue[0];
    } else {
      OnlyNoLater(rest, keep, i - 1);
      var j :| 0 <= j < |Only(rest, keep)| && j <= i - 1 && Only(rest, keep)[j] == rest[i - 1];
      assert Only(queue, keep)[|first| + j] == queue[i];
    }
  }

  lemma CallEndIs(st: State, s: nat)
    requires s < |st.sessions|
    ensures forall calls :: QueueOf(Next(st, CallEnds(s)), calls) == QueueOf(Next(st, Stops(s)), calls)
  {
  }

  lemma SameQueues(st: State, step: Step)
    requires CanCome(st, step)
    requires !(step.Delivers? || step.Queues? || step.Asks? || step.Pumps? || step.Returns? || step.Stops? || step.CallEnds?)
    ensures forall calls :: QueueOf(Next(st, step), calls) == QueueOf(st, calls)
  {
    hide FindAnswer, Words;
  }

  /** How many conversations of the lane the steps take. */
  function TakenBetween(r: Run, i: nat, k: nat, calls: bool): nat
    requires i <= k <= |r.steps|
    decreases k
  {
    if k == i then 0 else TakenBetween(r, i, k - 1, calls) + if Takes(r.steps[k - 1], calls) then 1 else 0
  }

  /** From step `i` to `k` nothing in the lane is put first, and `a` is not stopped. */
  ghost predicate TurnLeft(r: Run, i: nat, k: nat, calls: bool, a: nat)
    requires IsRun(r) && i <= k <= |r.steps|
  {
    forall j :: i <= j < k ==> LeavesTurn(r.states[j], r.steps[j], calls, a)
  }

  ghost predicate IsTaken(r: Run, j: nat, calls: bool, a: nat)
    requires IsRun(r) && j < |r.steps|
  {
    Takes(r.steps[j], calls) && QueueOf(r.states[j], calls) != [] && QueueOf(r.states[j], calls)[0] == a
  }

  /**
   * Over any run of steps with no message put first in the lane: a conversation
   * with `p` others before it, and not stopped, is taken within the next `p + 1`
   * that the lane takes.
   */
  lemma {:induction false} TakenInTurn(r: Run, i: nat, k: nat, calls: bool, a: nat, p: nat)
    requires IsRun(r) && i <= k <= |r.steps| && TurnLeft(r, i, k, calls, a)
    requires p < |QueueOf(r.states[i], calls)| && QueueOf(r.states[i], calls)[p] == a
    requires forall j :: i <= j < k ==> !IsTaken(r, j, calls, a)
    ensures AtMostAt(QueueOf(r.states[k], calls), a, p - TakenBetween(r, i, k, calls))
    ensures TakenBetween(r, i, k, calls) <= p
    decreases k
  {
    hide IsRun, Kept, LeavesTurn;
    if k > i {
      TakenInTurn(r, i, k - 1, calls, a, p);
      StepOfRun(r, k - 1);
      assert !IsTaken(r, k - 1, calls, a) && LeavesTurn(r.states[k - 1], r.steps[k - 1], calls, a);
      OneStepOn(r.states[k - 1], r.steps[k - 1], calls, a, p - TakenBetween(r, i, k - 1, calls));
    }
  }

  lemma StepOfRun(r: Run, i: nat)
    requires IsRun(r) && i < |r.steps|
    ensures |r.states| == |r.steps| + 1 && CanCome(r.states[i], r.steps[i]) && r.states[i + 1] == Next(r.states[i], r.steps[i]) && Kept(r.states[i])
  {
    hide Kept, Next;
    RunKeeps(r, i);
    assert Steps(r.states[i], r.steps[i], r.states[i + 1]);
  }

  /** `a` has a place, and `b` none before it. */
  ghost predicate Ahead(queue: seq<nat>, a: nat, b: nat) {
    exists i :: 0 <= i < |queue| && queue[i] == a && b !in queue[..i]
  }

  /** `b` is not put first, and `a` is not stopped. */
  predicate LeavesOrder(step: Step, a: nat, b: nat) {
    match step
    case Delivers(s, _, first) => !(first && s == b)
    case Stops(s) => s != a
    case CallEnds(s) => s != a
    case _ => true
  }

  lemma OneStepAhead(st: State, step: Step, calls: bool, a: nat, b: nat)
    requires Kept(st) && CanCome(st, step) && LeavesOrder(step, a, b) && a != b
    requires Ahead(QueueOf(st, calls), a, b) && !(Takes(step, calls) && QueueOf(st, calls)[0] == a)
    ensures Ahead(QueueOf(Next(st, step), calls), a, b)
  {
    hide Kept, Next, OthersStay, Ahead, QueuePut;
    match step
    case Delivers(s, m, first) => DeliveredWhere(st, s, m, first); PutBehind(st, Next(st, step), calls, a, b, s, first);
    case Queues(s, m) => QueuedWhere(st, s, m); PutBehind(st, Next(st, step), calls, a, b, s, false);
    case Asks(s, m) => AskedWhere(st, s, m); PutBehind(st, Next(st, step), calls, a, b, s, false);
    case Pumps(kind) => StillAhead(st, kind, calls, a, b);
    case Returns(s) => ReturnBehind(st, s, calls, a, b);
    case Stops(s) => StopBehind(st, s, calls, a, b);
    case CallEnds(s) => StopBehind(st, s, calls, a, b); CallEndIs(st, s);
    case _ => SameQueues(st, step);
  }

  lemma PutBehind(st: State, st': State, calls: bool, a: nat, b: nat, s: nat, first: bool)
    requires Ahead(QueueOf(st, calls), a, b) && !(first && s == b)
    requires QueueOf(st', calls) == QueueOf(st, calls) || QueuePut(QueueOf(st, calls), QueueOf(st', calls), s, first)
    ensures Ahead(QueueOf(st', calls), a, b)
  {
    var before, after := QueueOf(st, calls), QueueOf(st', calls);
    var i :| 0 <= i < |before| && before[i] == a && b !in before[..i];
    var j := if after != before && first then i + 1 else i;
    forall x | 0 <= x < j
      ensures after[x] != b
    {
      var y := if after != before && first then x - 1 else x;
      assert y >= 0 ==> before[..i][y] == before[y];
    }
    assert after[j] == a;
  }

  lemma StillAhead(st: State, kind: Kind, calls: bool, a: nat, b: nat)
    requires Kept(st) && CanCome(st, Pumps(kind)) && Ahead(QueueOf(st, calls), a, b)
    requires (kind == OfCall) == calls ==> QueueOf(st, calls)[0] != a
    ensures Ahead(QueueOf(Next(st, Pumps(kind)), calls), a, b)
  {
    hide Kept, Next, OthersStay;
    TakenWhat(st, kind);
    var before, after := QueueOf(st, calls), QueueOf(Next(st, Pumps(kind)), calls);
    var i :| 0 <= i < |before| && before[i] == a && b !in before[..i];
    var j := if (kind == OfCall) == calls then i - 1 else i;
    forall x | 0 <= x < j
      ensures after[x] != b
    {
      var y := if (kind == OfCall) == calls then x + 1 else x;
      assert before[..i][y] == before[y];
    }
    assert after[j] == a;
  }

  lemma ReturnBehind(st: State, s: nat, calls: bool, a: nat, b: nat)
    requires s < |st.sessions| && Ahead(QueueOf(st, calls), a, b)
    ensures Ahead(QueueOf(Next(st, Returns(s)), calls), a, b)
  {
    hide Ahead, QueuePut;
    if st.sessions[s].phase == Saving {
      ReturnedWhere(st, s);
      hide Next;
      PutBehind(st, Next(st, Returns(s)), calls, a, b, s, false);
    }
  }

  lemma StopBehind(st: State, s: nat, calls: bool, a: nat, b: nat)
    requires Kept(st) && s < |st.sessions| && s != a && Ahead(QueueOf(st, calls), a, b)
    ensures Ahead(QueueOf(Next(st, Stops(s)), calls), a, b)
  {
    hide Kept, Next, OthersStay, Only;
    StoppedWhat(st, s);
    var queue := QueueOf(st, calls);
    var keep := Elements(queue) - {s};
    var i :| 0 <= i < |queue| && queue[i] == a && b !in queue[..i];
    assert queue == queue[..i] + ([a] + queue[i + 1..]);
    assert a in queue;
    OnlyJoin(queue[..i], [a] + queue[i + 1..], keep);
    OnlyJoin([a], queue[i + 1..], keep);
    OnlyAll([a], keep);
    OnlyHasOne(queue[..i], keep, b);
    var left := Only(queue[..i], keep);
    var after := Only(queue, keep);
    assert after[..|left|] == left && after[|left|] == a;
  }

  /**
   * Over any run of steps: of two conversations of a lane the one queued earlier
   * is taken earlier, unless it is stopped or the other is put first.
   */
  lemma EarlierTakenEarlier(r: Run, i: nat, k: nat, calls: bool, a: nat, b: nat)
    requires IsRun(r) && i <= k < |r.steps| && a != b && Ahead(QueueOf(r.states[i], calls), a, b)
    requires forall j :: i <= j < k ==> LeavesOrder(r.steps[j], a, b)
    requires IsTaken(r, k, calls, b)
    ensures exists j :: i <= j < k && IsTaken(r, j, calls, a)
  {
    assert |r.states| == |r.steps| + 1;
    hide IsRun, Ahead;
    if forall j :: i <= j < k ==> !IsTaken(r, j, calls, a) {
      StaysAhead(r, i, k, calls, a, b);
      FirstIsAhead(QueueOf(r.states[k], calls), a, b);
      assert false;
    }
  }

  lemma FirstIsAhead(queue: seq<nat>, a: nat, b: nat)
    requires Ahead(queue, a, b) && a != b
    ensures queue != [] && queue[0] != b
  {
    var i :| 0 <= i < |queue| && queue[i] == a && b !in queue[..i];
    assert i > 0 ==> queue[..i][0] == queue[0];
  }

  lemma {:induction false} StaysAhead(r: Run, i: nat, k: nat, calls: bool, a: nat, b: nat)
    requires IsRun(r) && i <= k <= |r.steps| && a != b && Ahead(QueueOf(r.states[i], calls), a, b)
    requires forall j :: i <= j < k ==> LeavesOrder(r.steps[j], a, b) && !IsTaken(r, j, calls, a)
    ensures Ahead(QueueOf(r.states[k], calls), a, b)
    decreases k
  {
    hide IsRun, Kept, LeavesOrder, Ahead;
    if k > i {
      StaysAhead(r, i, k - 1, calls, a, b);
      StepOfRun(r, k - 1);
      assert LeavesOrder(r.steps[k - 1], a, b) && !IsTaken(r, k - 1, calls, a);
      FirstIsAhead(QueueOf(r.states[k - 1], calls), a, b);
      OneStepAhead(r.states[k - 1], r.steps[k - 1], calls, a, b);
    }
  }
}
