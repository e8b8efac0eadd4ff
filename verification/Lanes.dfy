/**
 * Messages for the conversations' agents (Sessions, app/src/sessions.ts:2225-2231,
 * 2657-2734, 2778-2894): two lanes, each running its waiting conversations one
 * at a time; messages read by a run going on; and flows' tasks, each answered
 * once.
 *
 * What a run awaits divides it into steps: its agent starts, reads, stops; the
 * run ends; and, its conversation saved, what its agent left unread comes back.
 */
module Lanes {
  import opened Options
  import opened Subsequences

  datatype Kind = OfCall | OfTexts | OfTask

  /** A message, or a task's prompt: no two have one id. */
  datatype Message = Message(id: nat, text: string)

  datatype Phase = Idle | Starting | Working | Stopping | Saving

  datatype Fate = TookByRun | ReadByRun | WasStopped | CallWasOver

  /** What became of a message. */
  datatype Outcome = Outcome(message: Message, fate: Fate)

  /** A flow waits for its task's answer. */
  datatype Settled = Settled(id: nat, byRun: Option<nat>)

  datatype Session = Session(
    kind: Kind, waiting: seq<Message>, phase: Phase, prompt: seq<Message>, onCall: Option<nat>, callId: Option<nat>, leftOpen: bool,
    inbox: seq<Message>, unread: seq<Message>, answers: seq<Message>,
    came: seq<Message>, outcomes: seq<Outcome>, asked: seq<nat>, settled: seq<Settled>)

  datatype Lane = Lane(queue: seq<nat>, current: Option<nat>)

  datatype State = State(sessions: seq<Session>, texts: Lane, calls: Lane)

  function NewSession(kind: Kind): Session {
    Session(kind, [], Idle, [], None, None, false, [], [], [], [], [], [], [])
  }

  function LaneOf(st: State, kind: Kind): Lane {
    if kind == OfCall then st.calls else st.texts
  }

  function SetLane(st: State, kind: Kind, lane: Lane): State {
    if kind == OfCall then st.(calls := lane) else st.(texts := lane)
  }

  function SetSession(st: State, s: nat, to: Session): State
    requires s < |st.sessions|
  {
    st.(sessions := st.sessions[s := to])
  }

  /** A run is going on (its agent may not have begun, or have ended). */
  predicate Running(s: Session) {
    s.phase == Starting || s.phase == Working || s.phase == Stopping
  }

  function AsOutcomes(ms: seq<Message>, fate: Fate): (r: seq<Outcome>)
    ensures |r| == |ms| && forall i :: 0 <= i < |ms| ==> r[i] == Outcome(ms[i], fate)
  {
    seq(|ms|, i requires 0 <= i < |ms| => Outcome(ms[i], fate))
  }

  function MessagesOf(os: seq<Outcome>): (r: seq<Message>)
    ensures |r| == |os| && forall i :: 0 <= i < |os| ==> r[i] == os[i].message
  {
    seq(|os|, i requires 0 <= i < |os| => os[i].message)
  }

  // ---- Steps --------------------------------------------------------------------------------

  /** A lane has the conversation once, first or last. */
  function Queued(lane: Lane, s: nat, first: bool): Lane {
    if s in lane.queue then lane
    else lane.(queue := if first then [s] + lane.queue else lane.queue + [s])
  }

  /** Queues a conversation in its lane, with messages for its next run. */
  function QueueRun(st: State, s: nat, ms: seq<Message>, first: bool): State
    requires s < |st.sessions|
  {
    var it := st.sessions[s];
    SetLane(SetSession(st, s, it.(waiting := it.waiting + ms)), it.kind, Queued(LaneOf(st, it.kind), s, first))
  }

  /** A new message: read by the run going on, or left for the next. */
  function Deliver(st: State, s: nat, m: Message, first: bool): State
    requires s < |st.sessions|
  {
    var it := st.sessions[s].(came := st.sessions[s].came + [m]);
    if it.kind != OfTask && it.phase == Working && !it.leftOpen then SetSession(st, s, it.(inbox := it.inbox + [m]))
    else QueueRun(SetSession(st, s, it), s, [m], first)
  }

  /** A flow's task. */
  function Task(st: State, s: nat, m: Message): State
    requires s < |st.sessions| && st.sessions[s].kind == OfTask
  {
    var it := st.sessions[s];
    Deliver(SetSession(st, s, it.(answers := it.answers + [m], asked := it.asked + [m.id])), s, m, false)
  }

  /** The lane's next conversation: all that waits for it is one run's, but a task is its own. */
  function Pump(st: State, kind: Kind): State
    requires LaneOf(st, kind).current.None? && LaneOf(st, kind).queue != [] && LaneOf(st, kind).queue[0] < |st.sessions|
  {
    var lane := LaneOf(st, kind);
    var s, it := lane.queue[0], st.sessions[lane.queue[0]];
    var n := if it.kind == OfTask && |it.waiting| > 1 then 1 else |it.waiting|;
    var prompt, rest := it.waiting[..n], it.waiting[n..];
    var queue := lane.queue[1..] + if it.kind == OfTask && rest != [] then [s] else [];
    if prompt == [] then SetLane(st, kind, lane.(queue := queue))
    else
      SetLane(
        SetSession(st, s, it.(waiting := rest, phase := Starting, prompt := prompt, onCall := it.callId, leftOpen := false,
                              outcomes := it.outcomes + AsOutcomes(prompt, TookByRun))),
        kind, Lane(queue, Some(s)))
  }

  function Start(st: State, s: nat): State
    requires s < |st.sessions|
  {
    if st.sessions[s].phase == Starting then SetSession(st, s, st.sessions[s].(phase := Working)) else st
  }

  /** The agent reads what came while it worked. */
  function Read(st: State, s: nat): State
    requires s < |st.sessions|
  {
    var it := st.sessions[s];
    if it.phase == Working then SetSession(st, s, it.(inbox := [], outcomes := it.outcomes + AsOutcomes(it.inbox, ReadByRun))) else st
  }

  /** The agent has ended (also one that failed, or was aborted, before it began). */
  function AgentEnds(st: State, s: nat): State
    requires s < |st.sessions|
  {
    if st.sessions[s].phase == Working || st.sessions[s].phase == Starting then SetSession(st, s, st.sessions[s].(phase := Stopping)) else st
  }

  /** The first answer waited for in these words. */
  function FindAnswer(answers: seq<Message>, words: string): (r: Option<nat>)
    ensures r.Some? ==> r.value < |answers| && answers[r.value].text == words && forall i :: 0 <= i < r.value ==> answers[i].text != words
    ensures r.None? ==> forall i :: 0 <= i < |answers| ==> answers[i].text != words
  {
    if answers == [] then None
    else if answers[0].text == words then Some(0)
    else
      var rest := FindAnswer(answers[1..], words);
      if rest.Some? then Some(rest.value + 1) else None
  }

  /** What a run's prompt reads: its messages, one after another. */
  function Words(prompt: seq<Message>): string
    decreases |prompt|
  {
    if prompt == [] then "" else if |prompt| == 1 then prompt[0].text else prompt[0].text + "\n\n" + Words(prompt[1..])
  }

  /** The call it answered is over, or another has begun. */
  predicate CallOver(it: Session) {
    it.onCall.Some? && it.callId != it.onCall
  }

  /** The run ends: the task asked in its words is answered; what its agent left unread is its next turn, unless its call is over. */
  function Finish(st: State, s: nat): State
    requires s < |st.sessions|
  {
    var it := st.sessions[s];
    if it.phase != Stopping || it.prompt == [] then st
    else
      var found := FindAnswer(it.answers, Words(it.prompt));
      var a := if found.None? then it
               else it.(answers := it.answers[..found.value] + it.answers[found.value + 1..],
                        settled := it.settled + [Settled(it.answers[found.value].id, Some(it.prompt[0].id))]);
      var b := if CallOver(a) then a.(inbox := [], outcomes := a.outcomes + AsOutcomes(a.inbox, CallWasOver))
               else a.(inbox := [], unread := a.inbox);
      SetSession(st, s, b.(phase := Saving, prompt := []))
  }

  /** Its conversation saved, what was left unread comes again; and the lane is free. */
  function Return(st: State, s: nat): State
    requires s < |st.sessions|
  {
    var it := st.sessions[s];
    if it.phase != Saving then st
    else
      var freed := SetLane(SetSession(st, s, it.(phase := Idle, unread := [])), it.kind, LaneOf(st, it.kind).(current := None));
      if it.unread == [] then freed else QueueRun(freed, s, it.unread, false)
  }

  function Without(queue: seq<nat>, s: nat): seq<nat> {
    if queue == [] then [] else if queue[0] == s then queue[1..] else [queue[0]] + Without(queue[1..], s)
  }

  function StopAll(answers: seq<Message>): (r: seq<Settled>)
    ensures |r| == |answers| && forall i :: 0 <= i < |answers| ==> r[i] == Settled(answers[i].id, None)
  {
    seq(|answers|, i requires 0 <= i < |answers| => Settled(answers[i].id, None))
  }

  /** Stopped: nothing waits for it, and the flows that wait for an answer of it are told. */
  function Stop(st: State, s: nat): State
    requires s < |st.sessions|
  {
    var it := st.sessions[s];
    var to := it.(waiting := [], outcomes := it.outcomes + AsOutcomes(it.waiting, WasStopped), answers := [], settled := it.settled + StopAll(it.answers));
    SetSession(st, s, to).(texts := st.texts.(queue := Without(st.texts.queue, s)), calls := st.calls.(queue := Without(st.calls.queue, s)))
  }

  datatype Step =
    | Delivers(s: nat, m: Message, first: bool) | Queues(s: nat, m: Message) | Asks(s: nat, m: Message) | Pumps(kind: Kind)
    | Starts(s: nat) | Reads(s: nat) | Ends(s: nat) | Finishes(s: nat) | Returns(s: nat) | Stops(s: nat)
    | CallBegins(s: nat, call: nat) | CallEnds(s: nat) | LeavesOpen(s: nat) | Adds(kind: Kind)

  predicate CanCome(st: State, step: Step) {
    match step
    case Pumps(kind) => LaneOf(st, kind).current.None? && LaneOf(st, kind).queue != [] && LaneOf(st, kind).queue[0] < |st.sessions|
    case Adds(_) => true
    case Asks(s, m) => s < |st.sessions| && st.sessions[s].kind == OfTask
    case CallBegins(s, _) => s < |st.sessions| && st.sessions[s].kind == OfCall
    case _ => step.s < |st.sessions|
  }

  function Next(st: State, step: Step): State
    requires CanCome(st, step)
  {
    match step
    case Delivers(s, m, first) => Deliver(st, s, m, first)
    case Queues(s, m) => QueueRun(SetSession(st, s, st.sessions[s].(came := st.sessions[s].came + [m])), s, [m], false)
    case Asks(s, m) => Task(st, s, m)
    case Pumps(kind) => Pump(st, kind)
    case Starts(s) => Start(st, s)
    case Reads(s) => Read(st, s)
    case Ends(s) => AgentEnds(st, s)
    case Finishes(s) => Finish(st, s)
    case Returns(s) => Return(st, s)
    case Stops(s) => Stop(st, s)
    case CallBegins(s, call) => SetSession(st, s, st.sessions[s].(callId := Some(call)))
    case CallEnds(s) => SetSession(Stop(st, s), s, Stop(st, s).sessions[s].(callId := None))
    case LeavesOpen(s) => SetSession(st, s, st.sessions[s].(leftOpen := true))
    case Adds(kind) => st.(sessions := st.sessions + [NewSession(kind)])
  }

  // ---- What is kept ------------------------------------------------------------------------------

  /** Every message that came is waiting, or being read, or unread, or has come to one end: each exactly once. */
  ghost predicate NoneLost(it: Session) {
    multiset(it.came) == multiset(it.waiting) + multiset(it.inbox) + multiset(it.unread) + multiset(MessagesOf(it.outcomes))
  }

  /** Every task asked waits for its answer, or was answered: each exactly once. */
  ghost predicate TasksKept(it: Session) {
    && (forall n :: multiset(it.asked)[n] == Times(it.answers, n) + TimesSettled(it.settled, n))
    && (it.kind != OfTask ==> it.answers == [])
  }

  function Times(ms: seq<Message>, n: nat): nat {
    if ms == [] then 0 else (if ms[0].id == n then 1 else 0) + Times(ms[1..], n)
  }

  function TimesSettled(ss: seq<Settled>, n: nat): nat {
    if ss == [] then 0 else (if ss[0].id == n then 1 else 0) + TimesSettled(ss[1..], n)
  }

  ghost predicate SessionOk(it: Session) {
    && NoneLost(it) && TasksKept(it)
    && (Running(it) <==> it.prompt != [])
    && (it.inbox != [] ==> it.phase == Working || it.phase == Stopping)
    && (it.unread != [] ==> it.phase == Saving)
    && (it.kind == OfTask ==> it.inbox == [] && it.unread == [] && |it.prompt| <= 1)
  }

  /** A lane has each of its conversations that something waits for, once, and none else. */
  ghost predicate QueueOk(st: State, calls: bool) {
    var queue := if calls then st.calls.queue else st.texts.queue;
    && NoRepeats(queue)
    && forall s: nat :: s in queue <==> s < |st.sessions| && (st.sessions[s].kind == OfCall) == calls && st.sessions[s].waiting != []
  }

  /** The run of a lane is the one it has, and no other. */
  ghost predicate OneRun(st: State) {
    && (forall s: nat :: s < |st.sessions| && st.sessions[s].phase != Idle ==> LaneOf(st, st.sessions[s].kind).current == Some(s))
    && CurrentOk(st, st.texts.current, false) && CurrentOk(st, st.calls.current, true)
  }

  ghost predicate CurrentOk(st: State, current: Option<nat>, calls: bool) {
    current.Some? ==>
      current.value < |st.sessions| && (st.sessions[current.value].kind == OfCall) == calls && st.sessions[current.value].phase != Idle
  }

  ghost predicate Kept(st: State) {
    && (forall s :: 0 <= s < |st.sessions| ==> SessionOk(st.sessions[s]))
    && QueueOk(st, true) && QueueOk(st, false) && OneRun(st)
  }

  // ---- The lanes -------------------------------------------------------------------------------------

  function QueueOf(st: State, calls: bool): seq<nat> {
    if calls then st.calls.queue else st.texts.queue
  }

  /** One conversation changes, and its place in its lane. */
  lemma LanesKeep(st: State, st': State, s: nat, calls: bool)
    requires QueueOk(st, true) && QueueOk(st, false) && s < |st.sessions| && |st'.sessions| == |st.sessions|
    requires st'.sessions == st.sessions[s := st'.sessions[s]] && st'.sessions[s].kind == st.sessions[s].kind
    requires calls == (st.sessions[s].kind == OfCall) && QueueOf(st', !calls) == QueueOf(st, !calls)
    requires NoRepeats(QueueOf(st', calls))
    requires forall x: nat :: x in QueueOf(st', calls) <==> if x == s then st'.sessions[s].waiting != [] else x in QueueOf(st, calls)
    ensures QueueOk(st', true) && QueueOk(st', false)
  {
    LaneKeeps(st, st', s, calls);
    OtherLaneKeeps(st, st', s, !calls);
  }

  lemma LaneKeeps(st: State, st': State, s: nat, calls: bool)
    requires QueueOk(st, calls) && s < |st.sessions| && |st'.sessions| == |st.sessions|
    requires st'.sessions == st.sessions[s := st'.sessions[s]] && st'.sessions[s].kind == st.sessions[s].kind
    requires calls == (st.sessions[s].kind == OfCall)
    requires NoRepeats(QueueOf(st', calls))
    requires forall x: nat :: x in QueueOf(st', calls) <==> if x == s then st'.sessions[s].waiting != [] else x in QueueOf(st, calls)
    ensures QueueOk(st', calls)
  {
    hide NoRepeats;
    forall x: nat
      ensures x in QueueOf(st', calls) <==> x < |st'.sessions| && (st'.sessions[x].kind == OfCall) == calls && st'.sessions[x].waiting != []
    {
      QueueParts(st, calls);
      assert x != s && x < |st.sessions| ==> st'.sessions[x] == st.sessions[x];
    }
  }

  lemma OtherLaneKeeps(st: State, st': State, s: nat, calls: bool)
    requires QueueOk(st, calls) && s < |st.sessions| && |st'.sessions| == |st.sessions|
    requires st'.sessions == st.sessions[s := st'.sessions[s]] && st'.sessions[s].kind == st.sessions[s].kind
    requires calls != (st.sessions[s].kind == OfCall) && QueueOf(st', calls) == QueueOf(st, calls)
    ensures QueueOk(st', calls)
  {
    hide NoRepeats;
    forall x: nat
      ensures x in QueueOf(st', calls) <==> x < |st'.sessions| && (st'.sessions[x].kind == OfCall) == calls && st'.sessions[x].waiting != []
    {
      QueueParts(st, calls);
      assert x != s && x < |st.sessions| ==> st'.sessions[x] == st.sessions[x];
    }
  }

  /** A conversation changes, but not in what waits for it. */
  lemma SameLanes(st: State, s: nat, to: Session)
    requires QueueOk(st, true) && QueueOk(st, false) && s < |st.sessions|
    requires to.kind == st.sessions[s].kind && (to.waiting == [] <==> st.sessions[s].waiting == [])
    ensures QueueOk(SetSession(st, s, to), true) && QueueOk(SetSession(st, s, to), false)
  {
    var calls := st.sessions[s].kind == OfCall;
    assert QueueOk(st, calls);
    LanesKeep(st, SetSession(st, s, to), s, calls);
  }

  lemma QueuedHas(lane: Lane, s: nat, first: bool)
    requires NoRepeats(lane.queue)
    ensures NoRepeats(Queued(lane, s, first).queue)
    ensures forall x :: x in Queued(lane, s, first).queue <==> x in lane.queue || x == s
  {
  }

  lemma {:induction false} WithoutHas(queue: seq<nat>, s: nat)
    requires NoRepeats(queue)
    ensures NoRepeats(Without(queue, s))
    ensures forall x :: x in Without(queue, s) <==> x in queue && x != s
  {
    if queue != [] {
      RestHas(queue);
      if queue[0] != s {
        WithoutHas(queue[1..], s);
      }
    }
  }

  lemma RestHas(queue: seq<nat>)
    requires NoRepeats(queue) && queue != []
    ensures NoRepeats(queue[1..]) && queue[0] !in queue[1..]
    ensures forall x :: x in queue <==> x == queue[0] || x in queue[1..]
  {
    assert queue == [queue[0]] + queue[1..];
  }

  /** A conversation changes, but not in whether a run of it goes on. */
  lemma SameRun(st: State, s: nat, to: Session)
    requires OneRun(st) && s < |st.sessions| && to.kind == st.sessions[s].kind && (to.phase == Idle <==> st.sessions[s].phase == Idle)
    ensures OneRun(SetSession(st, s, to))
  {
  }

  /** Only the queues change. */
  lemma SameRuns(st: State, st': State)
    requires OneRun(st) && st'.sessions == st.sessions && st'.texts.current == st.texts.current && st'.calls.current == st.calls.current
    ensures OneRun(st')
  {
  }

  lemma AllSessionsOk(st: State, s: nat, to: Session)
    requires Kept(st) && s < |st.sessions| && SessionOk(to)
    ensures forall x :: 0 <= x < |st.sessions| ==> SessionOk(SetSession(st, s, to).sessions[x])
  {
    hide SessionOk, QueueOk, OneRun;
  }

  /** A conversation changes in neither of these. */
  lemma QuietKeeps(st: State, s: nat, to: Session)
    requires Kept(st) && s < |st.sessions| && SessionOk(to)
    requires to.kind == st.sessions[s].kind && (to.waiting == [] <==> st.sessions[s].waiting == []) && (to.phase == Idle <==> st.sessions[s].phase == Idle)
    ensures Kept(SetSession(st, s, to))
  {
    hide SessionOk, QueueOk, OneRun;
    AllSessionsOk(st, s, to);
    SameLanes(st, s, to);
    SameRun(st, s, to);
  }

  // ---- Each step -------------------------------------------------------------------------------------------

  lemma QueueRunKeeps(st: State, s: nat, to: Session, ms: seq<Message>, first: bool)
    requires Kept(st) && s < |st.sessions| && ms != [] && to == st.sessions[s].(waiting := to.waiting, came := to.came, answers := to.answers, asked := to.asked)
    requires to.waiting == st.sessions[s].waiting && SessionOk(to.(waiting := to.waiting + ms))
    ensures Kept(QueueRun(SetSession(st, s, to), s, ms, first))
  {
    hide SessionOk, QueueOk, OneRun, NoRepeats;
    var st' := QueueRun(SetSession(st, s, to), s, ms, first);
    var calls := to.kind == OfCall;
    var it := to.(waiting := to.waiting + ms);
    assert st'.sessions == SetSession(st, s, it).sessions;
    AllSessionsOk(st, s, it);
    QueueParts(st, calls);
    QueuedHas(LaneOf(st, to.kind), s, first);
    LanesKeep(st, st', s, calls);
    SameRun(st, s, it);
    SameRuns(SetSession(st, s, it), st');
  }

  lemma QueueParts(st: State, calls: bool)
    requires QueueOk(st, calls)
    ensures NoRepeats(QueueOf(st, calls))
    ensures forall s: nat :: s in QueueOf(st, calls) <==> s < |st.sessions| && (st.sessions[s].kind == OfCall) == calls && st.sessions[s].waiting != []
  {
  }

  lemma CameOk(it: Session, m: Message, waits: bool)
    requires SessionOk(it) && (!waits ==> it.phase == Working && it.kind != OfTask)
    ensures
      var to := it.(came := it.came + [m]);
      SessionOk(if waits then to.(waiting := it.waiting + [m]) else to.(inbox := it.inbox + [m]))
  {
    hide TasksKept;
    TasksSame(it, if waits then it.(came := it.came + [m], waiting := it.waiting + [m]) else it.(came := it.came + [m], inbox := it.inbox + [m]));
  }

  lemma TasksSame(it: Session, to: Session)
    requires TasksKept(it) && to.answers == it.answers && to.asked == it.asked && to.settled == it.settled && to.kind == it.kind
    ensures TasksKept(to)
  {
  }

  lemma DeliverKeeps(st: State, s: nat, m: Message, first: bool)
    requires Kept(st) && s < |st.sessions|
    ensures Kept(Deliver(st, s, m, first))
  {
    hide SessionOk, QueueOk, OneRun;
    var it := st.sessions[s];
    var to := it.(came := it.came + [m]);
    if it.kind != OfTask && it.phase == Working && !it.leftOpen {
      CameOk(it, m, false);
      QuietKeeps(st, s, to.(inbox := to.inbox + [m]));
      assert SetSession(st, s, to.(inbox := to.inbox + [m])) == Deliver(st, s, m, first);
    } else {
      CameOk(it, m, true);
      QueueRunKeeps(st, s, to, [m], first);
    }
  }

  lemma QueuesKeep(st: State, s: nat, m: Message)
    requires Kept(st) && s < |st.sessions|
    ensures Kept(Next(st, Queues(s, m)))
  {
    hide SessionOk, QueueOk, OneRun;
    CameOk(st.sessions[s], m, true);
    QueueRunKeeps(st, s, st.sessions[s].(came := st.sessions[s].came + [m]), [m], false);
  }

  lemma {:induction false} TimesJoin(a: seq<Message>, b: seq<Message>, n: nat)
    ensures Times(a + b, n) == Times(a, n) + Times(b, n)
  {
    if a == [] {
      assert a + b == b;
    } else {
      assert (a + b)[1..] == a[1..] + b;
      TimesJoin(a[1..], b, n);
    }
  }

  lemma {:induction false} SettledJoin(a: seq<Settled>, b: seq<Settled>, n: nat)
    ensures TimesSettled(a + b, n) == TimesSettled(a, n) + TimesSettled(b, n)
  {
    if a == [] {
      assert a + b == b;
    } else {
      assert (a + b)[1..] == a[1..] + b;
      SettledJoin(a[1..], b, n);
    }
  }

  lemma AskedOk(it: Session, m: Message)
    requires SessionOk(it) && it.kind == OfTask
    ensures SessionOk(it.(came := it.came + [m], waiting := it.waiting + [m], answers := it.answers + [m], asked := it.asked + [m.id]))
  {
    forall n
      ensures Times(it.answers + [m], n) == Times(it.answers, n) + if m.id == n then 1 else 0
    {
      TimesJoin(it.answers, [m], n);
    }
    hide TimesSettled, Times;
  }

  lemma TaskKeeps(st: State, s: nat, m: Message)
    requires Kept(st) && s < |st.sessions| && st.sessions[s].kind == OfTask
    ensures Kept(Task(st, s, m))
  {
    hide SessionOk, QueueOk, OneRun;
    var it := st.sessions[s];
    var asked := it.(answers := it.answers + [m], asked := it.asked + [m.id]);
    AskedOk(it, m);
    QueueRunKeeps(st, s, asked.(came := it.came + [m]), [m], false);
    assert SetSession(SetSession(st, s, asked), s, asked.(came := it.came + [m])) == SetSession(st, s, asked.(came := it.came + [m]));
  }

  lemma ToOutcomes(it: Session, ms: seq<Message>, fate: Fate)
    ensures MessagesOf(it.outcomes + AsOutcomes(ms, fate)) == MessagesOf(it.outcomes) + ms
  {
  }

  lemma TakenOk(it: Session, n: nat)
    requires SessionOk(it) && it.phase == Idle && 0 < n <= |it.waiting| && (it.kind == OfTask ==> n == 1)
    ensures SessionOk(it.(waiting := it.waiting[n..], phase := Starting, prompt := it.waiting[..n], onCall := it.callId, leftOpen := false,
                          outcomes := it.outcomes + AsOutcomes(it.waiting[..n], TookByRun)))
  {
    hide TasksKept;
    var to := it.(waiting := it.waiting[n..], phase := Starting, prompt := it.waiting[..n], onCall := it.callId, leftOpen := false,
                  outcomes := it.outcomes + AsOutcomes(it.waiting[..n], TookByRun));
    TasksSame(it, to);
    ToOutcomes(it, it.waiting[..n], TookByRun);
    assert it.waiting == it.waiting[..n] + it.waiting[n..];
  }

  lemma PumpKeeps(st: State, kind: Kind)
    requires Kept(st) && CanCome(st, Pumps(kind))
    ensures Kept(Pump(st, kind))
  {
    hide SessionOk, QueueOk, OneRun, NoRepeats;
    var calls, lane := kind == OfCall, LaneOf(st, kind);
    var s := lane.queue[0];
    var it := st.sessions[s];
    QueueParts(st, calls);
    assert s in lane.queue;
    NotRunning(st, kind, s);
    var n := if it.kind == OfTask && |it.waiting| > 1 then 1 else |it.waiting|;
    assert SessionOk(it);
    TakenOk(it, n);
    var to := it.(waiting := it.waiting[n..], phase := Starting, prompt := it.waiting[..n], onCall := it.callId, leftOpen := false,
                  outcomes := it.outcomes + AsOutcomes(it.waiting[..n], TookByRun));
    AllSessionsOk(st, s, to);
    RestHas(lane.queue);
    var queue := lane.queue[1..] + if it.kind == OfTask && it.waiting[n..] != [] then [s] else [];
    assert NoRepeats(queue) by { OneMore(lane.queue[1..], s); }
    assert Pump(st, kind) == SetLane(SetSession(st, s, to), kind, Lane(queue, Some(s)));
    LanesKeep(st, Pump(st, kind), s, calls);
    RunBegins(st, kind, s, to, queue);
  }

  lemma OneMore(queue: seq<nat>, s: nat)
    requires NoRepeats(queue) && s !in queue
    ensures NoRepeats(queue + [s]) && NoRepeats(queue + [])
  {
    assert queue + [] == queue;
  }

  lemma NotRunning(st: State, kind: Kind, s: nat)
    requires OneRun(st) && LaneOf(st, kind).current.None? && s < |st.sessions| && (st.sessions[s].kind == OfCall) == (kind == OfCall)
    ensures st.sessions[s].phase == Idle
  {
  }

  lemma RunBegins(st: State, kind: Kind, s: nat, to: Session, queue: seq<nat>)
    requires OneRun(st) && LaneOf(st, kind).current.None? && s < |st.sessions| && (st.sessions[s].kind == OfCall) == (kind == OfCall)
    requires to.kind == st.sessions[s].kind && to.phase != Idle
    ensures OneRun(SetLane(SetSession(st, s, to), kind, Lane(queue, Some(s))))
  {
    var st' := SetLane(SetSession(st, s, to), kind, Lane(queue, Some(s)));
    forall x: nat | x < |st'.sessions| && st'.sessions[x].phase != Idle
      ensures LaneOf(st', st'.sessions[x].kind).current == Some(x)
    {
      if x != s && (st.sessions[x].kind == OfCall) == (kind == OfCall) {
        NotRunning(st, kind, x);
        assert false;
      }
    }
  }

  lemma ReadOk(it: Session)
    requires SessionOk(it)
    ensures SessionOk(it.(inbox := [], outcomes := it.outcomes + AsOutcomes(it.inbox, ReadByRun)))
  {
    hide TasksKept;
    TasksSame(it, it.(inbox := [], outcomes := it.outcomes + AsOutcomes(it.inbox, ReadByRun)));
    ToOutcomes(it, it.inbox, ReadByRun);
  }

  lemma AgentKeeps(st: State, s: nat)
    requires Kept(st) && s < |st.sessions|
    ensures Kept(Start(st, s)) && Kept(Read(st, s)) && Kept(AgentEnds(st, s))
  {
    hide QueueOk, OneRun;
    var it := st.sessions[s];
    assert SessionOk(it);
    hide NoneLost;
    if it.phase == Starting {
      PhaseOk(it, Working);
      QuietKeeps(st, s, it.(phase := Working));
    }
    if it.phase == Working {
      ReadOk(it);
      QuietKeeps(st, s, it.(inbox := [], outcomes := it.outcomes + AsOutcomes(it.inbox, ReadByRun)));
    }
    if it.phase == Starting || it.phase == Working {
      PhaseOk(it, Stopping);
      QuietKeeps(st, s, it.(phase := Stopping));
    }
  }

  lemma PhaseOk(it: Session, phase: Phase)
    requires SessionOk(it) && Running(it) && ((phase == Working && it.phase == Starting) || phase == Stopping)
    ensures SessionOk(it.(phase := phase))
  {
    hide TasksKept;
    TasksSame(it, it.(phase := phase));
  }

  lemma AnsweredOk(it: Session, i: nat, run: nat)
    requires TasksKept(it) && i < |it.answers|
    ensures TasksKept(it.(answers := it.answers[..i] + it.answers[i + 1..], settled := it.settled + [Settled(it.answers[i].id, Some(run))]))
  {
    var done := Settled(it.answers[i].id, Some(run));
    assert it.answers == it.answers[..i] + ([it.answers[i]] + it.answers[i + 1..]);
    forall n
      ensures Times(it.answers[..i] + it.answers[i + 1..], n) + (if it.answers[i].id == n then 1 else 0) == Times(it.answers, n)
      ensures TimesSettled(it.settled + [done], n) == TimesSettled(it.settled, n) + if it.answers[i].id == n then 1 else 0
    {
      TimesJoin(it.answers[..i], it.answers[i + 1..], n);
      TimesJoin(it.answers[..i], [it.answers[i]] + it.answers[i + 1..], n);
      TimesJoin([it.answers[i]], it.answers[i + 1..], n);
      SettledJoin(it.settled, [done], n);
    }
    hide Times, TimesSettled;
  }

  /** What a run's end makes of its conversation. */
  function Finished(it: Session): Session
    requires it.prompt != []
  {
    var found := FindAnswer(it.answers, Words(it.prompt));
    var a := if found.None? then it
             else it.(answers := it.answers[..found.value] + it.answers[found.value + 1..],
                      settled := it.settled + [Settled(it.answers[found.value].id, Some(it.prompt[0].id))]);
    var b := if CallOver(a) then a.(inbox := [], outcomes := a.outcomes + AsOutcomes(a.inbox, CallWasOver))
             else a.(inbox := [], unread := a.inbox);
    b.(phase := Saving, prompt := [])
  }

  lemma FinishedOk(it: Session)
    requires SessionOk(it) && it.phase == Stopping
    ensures SessionOk(Finished(it))
  {
    hide TasksKept, FindAnswer, Words;
    var found, to := FindAnswer(it.answers, Words(it.prompt)), Finished(it);
    if found.Some? {
      TasksNotNone(it);
      AnsweredOk(it, found.value, it.prompt[0].id);
      TasksSame(it.(answers := to.answers, settled := to.settled), to);
    } else {
      TasksSame(it, to);
    }
    ToOutcomes(it, it.inbox, CallWasOver);
  }

  lemma TasksNotNone(it: Session)
    requires TasksKept(it) && it.answers != []
    ensures it.kind == OfTask
  {
  }

  lemma FinishKeeps(st: State, s: nat)
    requires Kept(st) && s < |st.sessions|
    ensures Kept(Finish(st, s))
  {
    hide QueueOk, OneRun, FindAnswer, Words;
    var it := st.sessions[s];
    assert SessionOk(it);
    hide SessionOk;
    if it.phase == Stopping && it.prompt != [] {
      FinishedOk(it);
      QuietKeeps(st, s, Finished(it));
    }
  }

  lemma ReturnedOk(it: Session)
    requires SessionOk(it) && it.phase == Saving
    ensures SessionOk(it.(phase := Idle, unread := [], waiting := it.waiting + it.unread))
    ensures it.unread == [] ==> it.waiting + it.unread == it.waiting
  {
    hide TasksKept;
    TasksSame(it, it.(phase := Idle, unread := [], waiting := it.waiting + it.unread));
  }

  lemma RunEnds(st: State, s: nat, to: Session)
    requires OneRun(st) && s < |st.sessions| && st.sessions[s].phase != Idle && to.kind == st.sessions[s].kind && to.phase == Idle
    ensures OneRun(SetLane(SetSession(st, s, to), to.kind, LaneOf(st, to.kind).(current := None)))
  {
    var st' := SetLane(SetSession(st, s, to), to.kind, LaneOf(st, to.kind).(current := None));
    assert LaneOf(st, to.kind).current == Some(s);
    forall x: nat | x < |st'.sessions| && st'.sessions[x].phase != Idle
      ensures LaneOf(st', st'.sessions[x].kind).current == Some(x)
    {
      assert LaneOf(st, st.sessions[x].kind).current == Some(x);
    }
  }

  lemma ReturnKeeps(st: State, s: nat)
    requires Kept(st) && s < |st.sessions|
    ensures Kept(Return(st, s))
  {
    hide QueueOk, OneRun, SessionOk, NoRepeats;
    var it := st.sessions[s];
    if it.phase == Saving {
      var to := it.(phase := Idle, unread := [], waiting := it.waiting + it.unread);
      assert SessionOk(it);
      ReturnedOk(it);
      var st' := Return(st, s);
      var free := SetLane(SetSession(st, s, to), it.kind, LaneOf(st, it.kind).(current := None));
      AllSessionsOk(st, s, to);
      RunEnds(st, s, to);
      assert st'.sessions == free.sessions;
      SameRuns(free, st');
      QueueParts(st, it.kind == OfCall);
      QueuedHas(LaneOf(st, it.kind), s, false);
      LanesKeep(st, st', s, it.kind == OfCall);
    }
  }

  lemma {:induction false} AllStopped(ms: seq<Message>, n: nat)
    ensures TimesSettled(StopAll(ms), n) == Times(ms, n)
  {
    if ms != [] {
      assert StopAll(ms)[1..] == StopAll(ms[1..]);
      AllStopped(ms[1..], n);
    }
  }

  /** What stopping makes of a conversation. */
  function Stopped(it: Session): Session {
    it.(waiting := [], outcomes := it.outcomes + AsOutcomes(it.waiting, WasStopped), answers := [], settled := it.settled + StopAll(it.answers))
  }

  lemma StoppedOk(it: Session)
    requires SessionOk(it)
    ensures SessionOk(Stopped(it))
  {
    ToOutcomes(it, it.waiting, WasStopped);
    forall n
      ensures TimesSettled(it.settled + StopAll(it.answers), n) == TimesSettled(it.settled, n) + Times(it.answers, n)
    {
      AllStopped(it.answers, n);
      SettledJoin(it.settled, StopAll(it.answers), n);
    }
    hide TimesSettled, StopAll;
  }

  lemma StopKeeps(st: State, s: nat)
    requires Kept(st) && s < |st.sessions|
    ensures Kept(Stop(st, s))
  {
    hide QueueOk, OneRun, SessionOk, NoRepeats;
    var it, st' := st.sessions[s], Stop(st, s);
    assert SessionOk(it);
    StoppedOk(it);
    AllSessionsOk(st, s, Stopped(it));
    SameRun(st, s, Stopped(it));
    SameRuns(SetSession(st, s, Stopped(it)), st');
    QueueParts(st, true);
    QueueParts(st, false);
    WithoutHas(st.texts.queue, s);
    WithoutHas(st.calls.queue, s);
    NotIn(if it.kind == OfCall then st.texts.queue else st.calls.queue, s);
    LanesKeep(st, st', s, it.kind == OfCall);
  }

  lemma {:induction false} NotIn(queue: seq<nat>, s: nat)
    requires s !in queue
    ensures Without(queue, s) == queue
  {
    if queue != [] {
      NotIn(queue[1..], s);
    }
  }

  lemma FieldOk(it: Session, to: Session)
    requires SessionOk(it) && to == it.(callId := to.callId, leftOpen := to.leftOpen)
    ensures SessionOk(to)
  {
    hide TasksKept;
    TasksSame(it, to);
  }

  lemma FieldKeeps(st: State, s: nat, to: Session)
    requires Kept(st) && s < |st.sessions| && to == st.sessions[s].(callId := to.callId, leftOpen := to.leftOpen)
    ensures Kept(SetSession(st, s, to))
  {
    hide QueueOk, OneRun, SessionOk;
    assert SessionOk(st.sessions[s]);
    FieldOk(st.sessions[s], to);
    QuietKeeps(st, s, to);
  }

  lemma AddKeeps(st: State, kind: Kind)
    requires Kept(st)
    ensures Kept(st.(sessions := st.sessions + [NewSession(kind)]))
  {
    hide NoRepeats;
    var st' := st.(sessions := st.sessions + [NewSession(kind)]);
    NewOk(kind);
    hide SessionOk;
    AddedLane(st, kind, true);
    AddedLane(st, kind, false);
  }

  lemma AddedLane(st: State, kind: Kind, calls: bool)
    requires QueueOk(st, calls)
    ensures QueueOk(st.(sessions := st.sessions + [NewSession(kind)]), calls)
  {
    hide NoRepeats;
    var st' := st.(sessions := st.sessions + [NewSession(kind)]);
    QueueParts(st, calls);
    forall s: nat
      ensures s in QueueOf(st', calls) <==> s < |st'.sessions| && (st'.sessions[s].kind == OfCall) == calls && st'.sessions[s].waiting != []
    {
      assert s < |st.sessions| ==> st'.sessions[s] == st.sessions[s];
    }
  }

  lemma NewOk(kind: Kind)
    ensures SessionOk(NewSession(kind))
  {
  }

  lemma CallEndKeeps(st: State, s: nat)
    requires Kept(st) && CanCome(st, CallEnds(s))
    ensures Kept(Next(st, CallEnds(s)))
  {
    hide Kept;
    StopKeeps(st, s);
    FieldKeeps(Stop(st, s), s, Stop(st, s).sessions[s].(callId := None));
  }

  lemma NextKeeps(st: State, step: Step)
    requires Kept(st) && CanCome(st, step)
    ensures Kept(Next(st, step))
  {
    hide Kept, Deliver, Task, Pump, Finish, Return, Stop, Start, Read, AgentEnds;
    match step
    case Delivers(s, m, first) => DeliverKeeps(st, s, m, first);
    case Queues(s, m) => QueuesKeep(st, s, m);
    case Asks(s, m) => TaskKeeps(st, s, m);
    case Pumps(kind) => PumpKeeps(st, kind);
    case Starts(s) => AgentKeeps(st, s);
    case Reads(s) => AgentKeeps(st, s);
    case Ends(s) => AgentKeeps(st, s);
    case Finishes(s) => FinishKeeps(st, s);
    case Returns(s) => ReturnKeeps(st, s);
    case Stops(s) => StopKeeps(st, s);
    case CallBegins(s, call) => FieldKeeps(st, s, st.sessions[s].(callId := Some(call)));
    case CallEnds(s) => CallEndKeeps(st, s);
    case LeavesOpen(s) => FieldKeeps(st, s, st.sessions[s].(leftOpen := true));
    case Adds(kind) => AddKeeps(st, kind);
  }

  // ---- Whose answer a run's end is ----------------------------------------------------------------------------

  /** A task's answer is waited for in the order tasks are run: that of the one running first. */
  ghost predicate InOrder(it: Session) {
    && NoRepeats(it.prompt + it.waiting) && (forall m :: m in it.prompt + it.waiting ==> m in it.came)
    && it.answers == Only(it.prompt + it.waiting, Elements(it.answers))
  }

  ghost predicate TasksInOrder(st: State) {
    forall s :: 0 <= s < |st.sessions| && st.sessions[s].kind == OfTask ==> InOrder(st.sessions[s])
  }

  /** The message of a step is a new one. */
  predicate IsNew(st: State, step: Step)
    requires CanCome(st, step)
  {
    match step
    case Delivers(s, m, _) => m !in st.sessions[s].came
    case Queues(s, m) => m !in st.sessions[s].came
    case Asks(s, m) => m !in st.sessions[s].came && m.id !in st.sessions[s].asked
    case _ => true
  }

  /** A new message waits last: a task's, or not. */
  lemma CameInOrder(it: Session, m: Message, asked: bool)
    requires InOrder(it) && m !in it.came
    ensures
      var to := it.(came := it.came + [m], waiting := it.waiting + [m], answers := if asked then it.answers + [m] else it.answers);
      InOrder(to.(asked := it.asked + [m.id])) && InOrder(to)
  {
    var all, keep := it.prompt + it.waiting, Elements(it.answers);
    var to := it.(came := it.came + [m], waiting := it.waiting + [m], answers := if asked then it.answers + [m] else it.answers);
    var keep' := Elements(to.answers);
    assert to.prompt + to.waiting == all + [m];
    assert m !in all;
    OnlyHasOne(all, keep, m);
    assert keep' == if asked then keep + {m} else keep;
    OnlyJoin(all, [m], keep');
    OnlySame(all, keep, keep');
    assert Only([m], keep') == if asked then [m] else [];
    assert it.answers + [] == it.answers;
  }

  /** The task running, if its answer is waited for, is the first that is. */
  lemma OwnIsFirst(it: Session)
    requires InOrder(it) && |it.prompt| == 1 && it.prompt[0] in it.answers
    ensures it.answers[0] == it.prompt[0] && FindAnswer(it.answers, Words(it.prompt)) == Some(0)
    ensures it.answers[1..] == Only(it.waiting, Elements(it.answers[1..]))
  {
    var m, keep := it.prompt[0], Elements(it.answers);
    assert (it.prompt + it.waiting)[1..] == it.waiting;
    assert (it.prompt + it.waiting)[0] == m;
    assert it.answers == [m] + Only(it.waiting, keep);
    OnlyHasOne(it.waiting, keep, m);
    assert m !in it.waiting by {
      forall i | 0 <= i < |it.waiting|
        ensures it.waiting[i] != m
      {
        assert (it.prompt + it.waiting)[i + 1] == it.waiting[i];
      }
    }
    assert Elements(it.answers[1..]) == keep - {m};
    OnlySame(it.waiting, keep, keep - {m});
  }

  /** Another's answer is given: those left are still in order. */
  lemma OthersInOrder(it: Session, i: nat)
    requires InOrder(it) && |it.prompt| == 1 && it.prompt[0] !in it.answers && i < |it.answers|
    ensures
      var left := it.answers[..i] + it.answers[i + 1..];
      left == Only(it.waiting, Elements(left))
  {
    var m, keep := it.answers[i], Elements(it.answers);
    NotOwn(it);
    var left := it.answers[..i] + it.answers[i + 1..];
    OnlyHas(it.waiting, keep);
    WaitingOnce(it);
    AllButOne(it.answers, i);
    OnlyTwice(it.waiting, keep, keep - {m});
    assert keep * (keep - {m}) == keep - {m};
  }

  lemma WaitingOnce(it: Session)
    requires InOrder(it)
    ensures NoRepeats(it.waiting)
  {
    forall i, j | 0 <= i < j < |it.waiting|
      ensures it.waiting[i] != it.waiting[j]
    {
      assert (it.prompt + it.waiting)[|it.prompt| + i] == it.waiting[i];
      assert (it.prompt + it.waiting)[|it.prompt| + j] == it.waiting[j];
    }
  }

  lemma NotOwn(it: Session)
    requires InOrder(it) && |it.prompt| == 1 && it.prompt[0] !in it.answers
    ensures it.answers == Only(it.waiting, Elements(it.answers))
  {
    assert (it.prompt + it.waiting)[1..] == it.waiting && (it.prompt + it.waiting)[0] == it.prompt[0];
  }

  lemma AllButOne(s: seq<Message>, i: nat)
    requires NoRepeats(s) && i < |s|
    ensures
      var left := s[..i] + s[i + 1..];
      Elements(left) == Elements(s) - {s[i]} && left == Only(s, Elements(left))
  {
    hide Only;
    var left, m := s[..i] + s[i + 1..], s[i];
    LeftHas(s, i);
    var keep := Elements(left);
    assert s == s[..i] + ([m] + s[i + 1..]);
    OnlyJoin(s[..i], [m] + s[i + 1..], keep);
    OnlyJoin([m], s[i + 1..], keep);
    OnlyNone([m], keep);
    assert forall x :: x in s[..i] ==> x in left;
    assert forall x :: x in s[i + 1..] ==> x in left;
    OnlyAll(s[..i], keep);
    OnlyAll(s[i + 1..], keep);
    assert [] + s[i + 1..] == s[i + 1..];
  }

  lemma LeftHas(s: seq<Message>, i: nat)
    requires NoRepeats(s) && i < |s|
    ensures Elements(s[..i] + s[i + 1..]) == Elements(s) - {s[i]}
  {
    var left := s[..i] + s[i + 1..];
    forall x
      ensures x in left <==> x in s && x != s[i]
    {
      if x in s && x != s[i] {
        var j :| 0 <= j < |s| && s[j] == x;
        assert if j < i then left[j] == x else left[j - 1] == x;
      }
    }
  }

  lemma FinishedInOrder(it: Session)
    requires SessionOk(it) && InOrder(it) && it.phase == Stopping && it.kind == OfTask
    ensures InOrder(Finished(it))
  {
    OnePrompt(it);
    hide SessionOk, FindAnswer, Words, Only, NoRepeats;
    var found, to := FindAnswer(it.answers, Words(it.prompt)), Finished(it);
    WaitingOnce(it);
    assert [] + it.waiting == it.waiting;
    if it.prompt[0] in it.answers {
      OwnIsFirst(it);
      assert it.answers[..0] + it.answers[1..] == it.answers[1..];
    } else if found.Some? {
      OthersInOrder(it, found.value);
    } else {
      NotOwn(it);
    }
  }

  lemma OnePrompt(it: Session)
    requires SessionOk(it) && it.kind == OfTask && it.phase == Stopping
    ensures |it.prompt| == 1
  {
  }

  /** The first of the answers waited for, from `i` on, that is in these words: it is the `i`th. */
  predicate FirstInWords(answers: seq<Message>, words: string, i: nat) {
    i < |answers| && answers[i].text == words && forall j :: 0 <= j < i ==> answers[j].text != words
  }

  /**
   * Whose answer the end of a task's run is: its own where the flow still
   * waits for that; else (it was stopped, or is a message of the person's) that of
   * the first task waited for that was asked in the same words. It gives
   * another's exactly when there is one.
   */
  lemma OwnAnswerIff(st: State, s: nat)
    requires Kept(st) && TasksInOrder(st) && s < |st.sessions| && st.sessions[s].kind == OfTask && st.sessions[s].phase == Stopping
    ensures
      var it, after := st.sessions[s], Finish(st, s).sessions[s];
      var own := it.prompt[0];
      && (own in it.answers ==> after.settled == it.settled + [Settled(own.id, Some(own.id))] && after.answers == it.answers[1..] && it.answers[0] == own)
      && (own !in it.answers ==>
        && (after.settled == it.settled && after.answers == it.answers <==> forall i :: 0 <= i < |it.answers| ==> it.answers[i].text != own.text)
        && forall i: nat :: FirstInWords(it.answers, own.text, i) ==>
          after.settled == it.settled + [Settled(it.answers[i].id, Some(own.id))] && after.answers == it.answers[..i] + it.answers[i + 1..])
  {
    hide QueueOk, OneRun, Only, NoRepeats, SessionOk, FindAnswer;
    var it := st.sessions[s];
    assert SessionOk(it);
    OnePrompt(it);
    var found := FindAnswer(it.answers, Words(it.prompt));
    if it.prompt[0] in it.answers {
      OwnIsFirst(it);
      assert it.answers[..0] + it.answers[1..] == it.answers[1..];
    } else {
      forall i: nat | FirstInWords(it.answers, it.prompt[0].text, i)
        ensures found == Some(i)
      {
        assert found.Some? && !(found.value < i) && !(i < found.value);
      }
    }
  }

  lemma NextInOrder(st: State, step: Step)
    requires Kept(st) && TasksInOrder(st) && CanCome(st, step) && IsNew(st, step)
    ensures TasksInOrder(Next(st, step))
  {
    hide SessionOk, QueueOk, OneRun, InOrder, FindAnswer, Words;
    match step
    case Delivers(s, m, first) => DeliverInOrder(st, s, m, first);
    case Queues(s, m) => if st.sessions[s].kind == OfTask { CameInOrder(st.sessions[s], m, false); }
    case Asks(s, m) => CameInOrder(st.sessions[s], m, true);
    case Pumps(kind) => PumpInOrder(st, kind);
    case Finishes(s) => FinishInOrder(st, s);
    case Returns(s) => ReturnInOrder(st, s);
    case Stops(s) => StopInOrder(st, s);
    case CallEnds(s) => StopInOrder(st, s); SameInOrder(Stop(st, s), s, Stop(st, s).sessions[s].(callId := None));
    case Starts(s) => QuietInOrder(st, step, s);
    case Reads(s) => QuietInOrder(st, step, s);
    case Ends(s) => QuietInOrder(st, step, s);
    case CallBegins(s, _) => QuietInOrder(st, step, s);
    case LeavesOpen(s) => QuietInOrder(st, step, s);
    case Adds(kind) => NewInOrder(kind);
  }

  lemma NewInOrder(kind: Kind)
    ensures InOrder(NewSession(kind))
  {
  }

  /** What waits, runs and came stays as it is. */
  lemma SameInOrder(st: State, s: nat, to: Session)
    requires TasksInOrder(st) && s < |st.sessions| && to.kind == st.sessions[s].kind
    requires to.prompt == st.sessions[s].prompt && to.waiting == st.sessions[s].waiting && to.came == st.sessions[s].came && to.answers == st.sessions[s].answers
    ensures TasksInOrder(SetSession(st, s, to))
  {
    if to.kind == OfTask {
      assert InOrder(st.sessions[s]);
    }
    hide InOrder;
  }

  lemma QuietInOrder(st: State, step: Step, s: nat)
    requires TasksInOrder(st) && CanCome(st, step) && s < |st.sessions|
    requires step in {Starts(s), Reads(s), Ends(s), LeavesOpen(s)} || (step.CallBegins? && step.s == s)
    ensures TasksInOrder(Next(st, step))
  {
    hide TasksInOrder;
    var to := Next(st, step).sessions[s];
    assert Next(st, step).sessions == SetSession(st, s, to).sessions;
    SameInOrder(st, s, to);
    SameSessions(SetSession(st, s, to), Next(st, step));
  }

  lemma SameSessions(st: State, st': State)
    requires TasksInOrder(st) && st'.sessions == st.sessions
    ensures TasksInOrder(st')
  {
    hide InOrder;
  }

  lemma DeliverInOrder(st: State, s: nat, m: Message, first: bool)
    requires TasksInOrder(st) && s < |st.sessions| && m !in st.sessions[s].came
    ensures TasksInOrder(Deliver(st, s, m, first))
  {
    hide InOrder;
    if st.sessions[s].kind == OfTask {
      CameInOrder(st.sessions[s], m, false);
    }
  }

  lemma PumpInOrder(st: State, kind: Kind)
    requires Kept(st) && TasksInOrder(st) && CanCome(st, Pumps(kind))
    ensures TasksInOrder(Pump(st, kind))
  {
    hide SessionOk, NoRepeats, Only;
    var s := LaneOf(st, kind).queue[0];
    var it := st.sessions[s];
    QueueParts(st, kind == OfCall);
    assert s in LaneOf(st, kind).queue;
    NotRunning(st, kind, s);
    assert SessionOk(it);
    NoPrompt(it);
    var to := Pump(st, kind).sessions[s];
    if it.kind == OfTask {
      assert to.prompt + to.waiting == it.prompt + it.waiting;
      assert InOrder(it);
      assert InOrder(to);
    }
    hide InOrder;
    assert Pump(st, kind).sessions == st.sessions[s := to];
  }

  lemma NoPrompt(it: Session)
    requires SessionOk(it) && it.phase == Idle
    ensures it.prompt == []
  {
  }

  lemma FinishInOrder(st: State, s: nat)
    requires Kept(st) && TasksInOrder(st) && s < |st.sessions|
    ensures TasksInOrder(Finish(st, s))
  {
    hide SessionOk, QueueOk, OneRun, InOrder, FindAnswer, Words;
    var it := st.sessions[s];
    assert SessionOk(it);
    if it.phase == Stopping && it.prompt != [] {
      assert Finish(st, s) == SetSession(st, s, Finished(it));
      if it.kind == OfTask {
        FinishedInOrder(it);
      }
    }
  }

  lemma ReturnInOrder(st: State, s: nat)
    requires Kept(st) && TasksInOrder(st) && s < |st.sessions|
    ensures TasksInOrder(Return(st, s))
  {
    hide QueueOk, OneRun, InOrder;
    var it := st.sessions[s];
    assert SessionOk(it);
    hide SessionOk;
    var to := Return(st, s).sessions[s];
    if it.kind == OfTask {
      assert to.waiting == it.waiting;
      assert Return(st, s).sessions == SetSession(st, s, to).sessions;
      SameInOrder(st, s, to);
    }
  }

  lemma StopInOrder(st: State, s: nat)
    requires TasksInOrder(st) && s < |st.sessions|
    ensures TasksInOrder(Stop(st, s))
  {
    var it, to := st.sessions[s], Stopped(st.sessions[s]);
    if it.kind == OfTask {
      assert InOrder(it);
      assert it.prompt + it.waiting == it.prompt + it.waiting && it.prompt + [] == it.prompt;
      forall i, j | 0 <= i < j < |it.prompt|
        ensures it.prompt[i] != it.prompt[j]
      {
        assert (it.prompt + it.waiting)[i] == it.prompt[i] && (it.prompt + it.waiting)[j] == it.prompt[j];
      }
      OnlyNone(it.prompt, {});
      assert Elements(to.answers) == {};
    }
    hide InOrder;
    assert Stop(st, s).sessions == st.sessions[s := to];
  }

  // ---- Every run --------------------------------------------------------------------------------------------------

  datatype Run = Run(states: seq<State>, steps: seq<Step>)

  predicate Steps(st: State, step: Step, st': State) {
    CanCome(st, step) && IsNew(st, step) && st' == Next(st, step)
  }

  ghost predicate IsRun(r: Run) {
    && |r.states| == |r.steps| + 1 && r.states[0] == State([], Lane([], None), Lane([], None))
    && forall i :: 0 <= i < |r.steps| ==> Steps(r.states[i], r.steps[i], r.states[i + 1])
  }

  lemma {:induction false} RunKeeps(r: Run, i: nat)
    requires IsRun(r) && i < |r.states|
    ensures Kept(r.states[i]) && TasksInOrder(r.states[i])
  {
    hide Kept, TasksInOrder, Next;
    if i == 0 {
      NothingKept();
    } else {
      RunKeeps(r, i - 1);
      assert Steps(r.states[i - 1], r.steps[i - 1], r.states[i]);
      NextKeeps(r.states[i - 1], r.steps[i - 1]);
      NextInOrder(r.states[i - 1], r.steps[i - 1]);
    }
  }

  lemma NothingKept()
    ensures Kept(State([], Lane([], None), Lane([], None))) && TasksInOrder(State([], Lane([], None), Lane([], None)))
  {
  }

  // ---- In the order they were asked -----------------------------------------------------------------------------

  function IdsOf(answers: seq<Message>): (r: seq<nat>)
    ensures |r| == |answers| && forall i :: 0 <= i < |answers| ==> r[i] == answers[i].id
  {
    seq(|answers|, i requires 0 <= i < |answers| => answers[i].id)
  }

  function IdsSettled(settled: seq<Settled>): (r: seq<nat>)
    ensures |r| == |settled| && forall i :: 0 <= i < |settled| ==> r[i] == settled[i].id
  {
    seq(|settled|, i requires 0 <= i < |settled| => settled[i].id)
  }

  /** Tasks were answered in the order they were asked, and those left wait in it. */
  predicate InTurn(it: Session) {
    IdsSettled(it.settled) + IdsOf(it.answers) == it.asked
  }

  /** Some task was answered where another was asked. */
  ghost predicate Mismatched(it: Session) {
    exists k :: 0 <= k < |it.settled| && k < |it.asked| && it.settled[k].id != it.asked[k]
  }

  /** As its run ends, a task is answered that is not the next: its own answer waits no more, and the first that does is in other words. */
  predicate OutOfTurn(it: Session) {
    && it.phase == Stopping && it.prompt != [] && it.prompt[0] !in it.answers
    && (exists i :: 0 <= i < |it.answers| && it.answers[i].text == Words(it.prompt))
    && it.answers[0].text != Words(it.prompt)
  }

  lemma NotBoth(it: Session)
    ensures Mismatched(it) ==> !InTurn(it)
  {
    if InTurn(it) {
      forall k | 0 <= k < |it.settled|
        ensures it.settled[k].id == it.asked[k]
      {
        assert (IdsSettled(it.settled) + IdsOf(it.answers))[k] == it.settled[k].id;
      }
    }
  }

  /** What a step may make of a conversation's tasks, but for a run's end. */
  ghost predicate TurnsOn(it: Session, to: Session) {
    || (to.answers == it.answers && to.settled == it.settled && to.asked == it.asked)
    || (exists m :: to.answers == it.answers + [m] && to.settled == it.settled && to.asked == it.asked + [m.id] && m.id !in it.asked)
    || (to.answers == [] && to.settled == it.settled + StopAll(it.answers) && to.asked == it.asked)
  }

  lemma TurnsOnKeep(it: Session, to: Session)
    requires TurnsOn(it, to)
    ensures InTurn(it) ==> InTurn(to)
    ensures Mismatched(it) ==> Mismatched(to)
    ensures NoRepeats(it.asked) ==> NoRepeats(to.asked)
  {
    if Mismatched(it) {
      var k :| 0 <= k < |it.settled| && k < |it.asked| && it.settled[k].id != it.asked[k];
      assert to.settled[k] == it.settled[k] && to.asked[k] == it.asked[k];
    }
    if to.answers == it.answers && to.settled == it.settled && to.asked == it.asked {
    } else if to.answers == [] && to.settled == it.settled + StopAll(it.answers) && to.asked == it.asked {
      assert IdsSettled(to.settled) + IdsOf(to.answers) == IdsSettled(it.settled) + IdsOf(it.answers);
    } else {
      var m :| to.answers == it.answers + [m] && to.settled == it.settled && to.asked == it.asked + [m.id] && m.id !in it.asked;
      assert IdsSettled(to.settled) + IdsOf(to.answers) == (IdsSettled(it.settled) + IdsOf(it.answers)) + [m.id];
    }
  }

  /** A run's end keeps the order exactly when the task it answers is the next. */
  lemma FinishedInTurn(it: Session)
    requires SessionOk(it) && InOrder(it) && NoRepeats(it.asked) && it.phase == Stopping && it.kind == OfTask
    ensures Finished(it).asked == it.asked
    ensures Mismatched(it) ==> Mismatched(Finished(it))
    ensures InTurn(it) && OutOfTurn(it) ==> Mismatched(Finished(it))
    ensures InTurn(it) && !OutOfTurn(it) ==> InTurn(Finished(it))
  {
    OnePrompt(it);
    hide InOrder, FindAnswer, Words;
    var found, to := FindAnswer(it.answers, Words(it.prompt)), Finished(it);
    if Mismatched(it) {
      var k :| 0 <= k < |it.settled| && k < |it.asked| && it.settled[k].id != it.asked[k];
      assert to.settled[k] == it.settled[k];
    }
    if InTurn(it) {
      AnsweredInTurn(it);
    }
  }

  lemma AnsweredInTurn(it: Session)
    requires SessionOk(it) && InOrder(it) && NoRepeats(it.asked) && |it.prompt| == 1 && InTurn(it) && it.phase == Stopping
    ensures OutOfTurn(it) ==> Mismatched(Finished(it))
    ensures !OutOfTurn(it) ==> InTurn(Finished(it))
  {
    var found := FindAnswer(it.answers, Words(it.prompt));
    if it.prompt[0] in it.answers {
      OwnIsFirst(it);
    }
    hide InOrder, Words, SessionOk, InTurn, Mismatched, FindAnswer;
    if found.Some? {
      AnsweredAt(it, found.value);
    } else {
      SameTurn(it, Finished(it));
    }
  }

  lemma SameTurn(it: Session, to: Session)
    requires InTurn(it) && to.answers == it.answers && to.settled == it.settled && to.asked == it.asked
    ensures InTurn(to)
  {
  }

  lemma AnsweredAt(it: Session, i: nat)
    requires NoRepeats(it.asked) && it.prompt != [] && InTurn(it) && FindAnswer(it.answers, Words(it.prompt)) == Some(i)
    ensures i == 0 ==> InTurn(Finished(it))
    ensures i > 0 ==> Mismatched(Finished(it))
  {
    FinishedAt(it, i);
    hide FindAnswer, Words, Finished;
    var to := Finished(it);
    if i == 0 {
      FirstAnswered(it, to);
    } else {
      NextDiffers(it, i);
      assert to.settled[|it.settled|].id == it.answers[i].id;
    }
  }

  lemma FinishedAt(it: Session, i: nat)
    requires it.prompt != [] && FindAnswer(it.answers, Words(it.prompt)) == Some(i)
    ensures
      var to := Finished(it);
      && to.answers == it.answers[..i] + it.answers[i + 1..] && to.asked == it.asked
      && to.settled == it.settled + [Settled(it.answers[i].id, Some(it.prompt[0].id))]
  {
    hide FindAnswer, Words;
  }

  lemma FirstAnswered(it: Session, to: Session)
    requires InTurn(it) && it.answers != [] && to.asked == it.asked && to.answers == it.answers[..0] + it.answers[1..]
    requires |to.settled| == |it.settled| + 1 && to.settled[..|it.settled|] == it.settled && to.settled[|it.settled|].id == it.answers[0].id
    ensures InTurn(to)
  {
    assert it.answers[..0] + it.answers[1..] == it.answers[1..];
    assert forall i :: 0 <= i < |it.settled| ==> to.settled[i] == it.settled[i];
    assert IdsSettled(to.settled) + IdsOf(to.answers) == IdsSettled(it.settled) + IdsOf(it.answers);
  }

  lemma NextDiffers(it: Session, i: nat)
    requires InTurn(it) && NoRepeats(it.asked) && 0 < i < |it.answers|
    ensures |it.settled| < |it.asked| && it.asked[|it.settled|] != it.answers[i].id
  {
    var all := IdsSettled(it.settled) + IdsOf(it.answers);
    assert all[|it.settled|] == it.answers[0].id && all[|it.settled| + i] == it.answers[i].id;
  }

  ghost predicate TurnKept(it: Session) {
    NoRepeats(it.asked) && (InTurn(it) || Mismatched(it))
  }

  /** What a step makes of one conversation's tasks. */
  lemma StepTurns(st: State, step: Step, s: nat)
    requires Kept(st) && TasksInOrder(st) && CanCome(st, step) && IsNew(st, step) && s < |st.sessions|
    ensures s < |Next(st, step).sessions|
    ensures
      var it, to := st.sessions[s], Next(st, step).sessions[s];
      TurnsOn(it, to) || (step == Finishes(s) && it.phase == Stopping && it.prompt != [] && to == Finished(it))
  {
    hide Kept, TasksInOrder, FindAnswer, Words, StopAll;
    match step
    case Finishes(t) => if t == s { FinishTurns(st, s); }
    case Stops(t) => StopTurns(st, t, s);
    case CallEnds(t) => StopTurns(st, t, s);
    case Asks(t, m) => AskTurns(st, t, m, s);
    case Pumps(kind) => PumpTurns(st, kind, s);
    case Returns(t) => ReturnTurns(st, t, s);
    case _ =>
  }

  lemma FinishTurns(st: State, s: nat)
    requires s < |st.sessions|
    ensures
      var it, to := st.sessions[s], Finish(st, s).sessions[s];
      TurnsOn(it, to) || (it.phase == Stopping && it.prompt != [] && to == Finished(it))
  {
    hide FindAnswer, Words;
  }

  lemma StopTurns(st: State, t: nat, s: nat)
    requires t < |st.sessions| && s < |st.sessions|
    ensures s < |Stop(st, t).sessions| && TurnsOn(st.sessions[s], Stop(st, t).sessions[s])
  {
  }

  lemma AskTurns(st: State, t: nat, m: Message, s: nat)
    requires t < |st.sessions| && s < |st.sessions| && st.sessions[t].kind == OfTask && m.id !in st.sessions[t].asked
    ensures s < |Task(st, t, m).sessions| && TurnsOn(st.sessions[s], Task(st, t, m).sessions[s])
  {
  }

  lemma PumpTurns(st: State, kind: Kind, s: nat)
    requires CanCome(st, Pumps(kind)) && s < |st.sessions|
    ensures s < |Pump(st, kind).sessions| && TurnsOn(st.sessions[s], Pump(st, kind).sessions[s])
  {
    var t := LaneOf(st, kind).queue[0];
    assert forall x :: 0 <= x < |st.sessions| && x != t ==> Pump(st, kind).sessions[x] == st.sessions[x];
  }

  lemma ReturnTurns(st: State, t: nat, s: nat)
    requires t < |st.sessions| && s < |st.sessions|
    ensures s < |Return(st, t).sessions| && TurnsOn(st.sessions[s], Return(st, t).sessions[s])
  {
  }

  /** The runs' ends before `i` answered this conversation's tasks in turn. */
  ghost predicate EndedInTurn(r: Run, i: nat, s: nat)
    requires IsRun(r) && i < |r.states|
  {
    forall j :: 0 <= j < i && s < |r.states[j].sessions| && r.steps[j] == Finishes(s) ==> !OutOfTurn(r.states[j].sessions[s])
  }

  /**
   * In every run a flow's tasks are answered in the order they were asked,
   * those left waiting in it, exactly when no run's end answered a task that
   * was not the next: a stopped task's, while the first that waits is in other
   * words than one behind it.
   */
  lemma {:induction false} AnsweredInOrderIff(r: Run, i: nat, s: nat)
    requires IsRun(r) && i < |r.states| && s < |r.states[i].sessions|
    ensures InTurn(r.states[i].sessions[s]) <==> EndedInTurn(r, i, s)
    ensures TurnKept(r.states[i].sessions[s])
  {
    assert |r.states| == |r.steps| + 1;
    hide IsRun, InTurn, Mismatched, OutOfTurn, Kept, TasksInOrder, Next;
    if i > 0 {
      TurnOfStep(r, i - 1);
      if s < |r.states[i - 1].sessions| {
        AnsweredInOrderIff(r, i - 1, s);
        OneTurnMore(r.states[i - 1], r.steps[i - 1], s);
      } else {
        NewInTurn(r, i, s);
      }
    } else {
      NothingYet(r, s);
    }
  }

  lemma TurnOfStep(r: Run, i: nat)
    requires IsRun(r) && i < |r.steps|
    ensures |r.states| == |r.steps| + 1 && CanCome(r.states[i], r.steps[i]) && IsNew(r.states[i], r.steps[i])
    ensures r.states[i + 1] == Next(r.states[i], r.steps[i]) && Kept(r.states[i]) && TasksInOrder(r.states[i])
  {
    hide Kept, TasksInOrder, Next;
    RunKeeps(r, i);
    assert Steps(r.states[i], r.steps[i], r.states[i + 1]);
  }

  lemma NothingYet(r: Run, s: nat)
    requires IsRun(r)
    ensures s >= |r.states[0].sessions|
  {
  }

  /** A conversation begun: nothing of it ended before. */
  lemma NewInTurn(r: Run, i: nat, s: nat)
    requires IsRun(r) && 0 < i < |r.states| && s < |r.states[i].sessions| && s >= |r.states[i - 1].sessions|
    ensures InTurn(r.states[i].sessions[s]) && TurnKept(r.states[i].sessions[s]) && EndedInTurn(r, i, s)
  {
    assert Steps(r.states[i - 1], r.steps[i - 1], r.states[i]);
    OnlyAdds(r.states[i - 1], r.steps[i - 1], s);
    forall j | 0 <= j < i
      ensures s >= |r.states[j].sessions|
    {
      FewerBefore(r, j, i - 1);
    }
  }

  lemma OnlyAdds(st: State, step: Step, s: nat)
    requires CanCome(st, step) && |st.sessions| <= s < |Next(st, step).sessions|
    ensures step.Adds? && Next(st, step).sessions[s] == NewSession(step.kind)
  {
    hide FindAnswer, Words, StopAll, Without;
  }

  lemma {:induction false} FewerBefore(r: Run, j: nat, i: nat)
    requires IsRun(r) && j <= i < |r.states|
    ensures |r.states[j].sessions| <= |r.states[i].sessions|
    decreases i - j
  {
    hide Next;
    if j < i {
      FewerBefore(r, j, i - 1);
      assert Steps(r.states[i - 1], r.steps[i - 1], r.states[i]);
      NeverFewer(r.states[i - 1], r.steps[i - 1]);
    }
  }

  lemma NeverFewer(st: State, step: Step)
    requires CanCome(st, step)
    ensures |st.sessions| <= |Next(st, step).sessions|
  {
    hide FindAnswer, Words, StopAll, Without;
  }

  lemma OneTurnMore(st: State, step: Step, s: nat)
    requires Kept(st) && TasksInOrder(st) && CanCome(st, step) && IsNew(st, step) && s < |st.sessions| && TurnKept(st.sessions[s])
    ensures s < |Next(st, step).sessions| && TurnKept(Next(st, step).sessions[s])
    ensures InTurn(Next(st, step).sessions[s]) <==> InTurn(st.sessions[s]) && !(step == Finishes(s) && OutOfTurn(st.sessions[s]))
  {
    StepTurns(st, step, s);
    var it, to := st.sessions[s], Next(st, step).sessions[s];
    NotBoth(it);
    NotBoth(to);
    hide Next, InTurn, Mismatched, TasksInOrder, QueueOk, OneRun;
    if TurnsOn(it, to) {
      TurnsOnKeep(it, to);
      if step == Finishes(s) {
        NotOutOfTurn(st, s);
      }
    } else {
      assert SessionOk(it);
      EndedTurn(st, s);
    }
  }

  lemma NotOutOfTurn(st: State, s: nat)
    requires s < |st.sessions| && TurnsOn(st.sessions[s], Finish(st, s).sessions[s])
    ensures !OutOfTurn(st.sessions[s])
  {
  }

  lemma EndedTurn(st: State, s: nat)
    requires Kept(st) && TasksInOrder(st) && s < |st.sessions| && TurnKept(st.sessions[s])
    requires st.sessions[s].phase == Stopping && st.sessions[s].prompt != []
    ensures
      var it := st.sessions[s];
      TurnKept(Finished(it)) && (InTurn(it) ==> (InTurn(Finished(it)) <==> !OutOfTurn(it))) && (Mismatched(it) ==> Mismatched(Finished(it)))
  {
    hide QueueOk, OneRun, InTurn, Mismatched, Finished, SessionOk, InOrder;
    var it := st.sessions[s];
    assert SessionOk(it);
    NotBoth(Finished(it));
    if it.kind == OfTask {
      FinishedInTurn(it);
    } else {
      NoTasksEnd(it);
    }
  }

  lemma NoTasksEnd(it: Session)
    requires SessionOk(it) && it.kind != OfTask && it.prompt != []
    ensures Finished(it).asked == it.asked && Finished(it).settled == it.settled && Finished(it).answers == it.answers && !OutOfTurn(it)
    ensures (InTurn(Finished(it)) <==> InTurn(it)) && (Mismatched(Finished(it)) <==> Mismatched(it))
  {
  }

  /**
   * Every message that came is, at any time, in exactly one place: waiting, in
   * what its running agent has not read, coming back from it, or at its one end
   * (taken by a run, read by one, stopped, or its call over).
   */
  lemma MessageOnce(r: Run, i: nat, s: nat, m: Message)
    requires IsRun(r) && i < |r.states| && s < |r.states[i].sessions|
    ensures
      var it := r.states[i].sessions[s];
      multiset(it.came)[m] == multiset(it.waiting)[m] + multiset(it.inbox)[m] + multiset(it.unread)[m] + multiset(MessagesOf(it.outcomes))[m]
  {
    hide IsRun, QueueOk, OneRun, TasksInOrder;
    RunKeeps(r, i);
    assert SessionOk(r.states[i].sessions[s]);
  }

  /** A conversation is in its lane's queue, once, exactly when a message waits for it; and a lane runs one at a time. */
  lemma WaitingIffQueued(r: Run, i: nat, s: nat, t: nat)
    requires IsRun(r) && i < |r.states| && s < |r.states[i].sessions| && t < |r.states[i].sessions|
    ensures
      var st := r.states[i];
      var queue := QueueOf(st, st.sessions[s].kind == OfCall);
      && (s in queue <==> st.sessions[s].waiting != []) && NoRepeats(queue)
      && (st.sessions[s].phase != Idle && st.sessions[t].phase != Idle && (st.sessions[s].kind == OfCall <==> st.sessions[t].kind == OfCall) ==> s == t)
  {
    hide IsRun, SessionOk, TasksInOrder, NoRepeats;
    RunKeeps(r, i);
    QueueParts(r.states[i], r.states[i].sessions[s].kind == OfCall);
  }

  /** A flow's task waits for its answer, or was answered, as often as it was asked: once. */
  lemma TaskAnsweredOnce(r: Run, i: nat, s: nat, n: nat)
    requires IsRun(r) && i < |r.states| && s < |r.states[i].sessions|
    ensures
      var it := r.states[i].sessions[s];
      multiset(it.asked)[n] == Times(it.answers, n) + TimesSettled(it.settled, n)
  {
    hide IsRun, QueueOk, OneRun, TasksInOrder;
    RunKeeps(r, i);
    assert SessionOk(r.states[i].sessions[s]);
  }

  /**
   * A task is asked, taken by a run, and stopped; another is asked in those
   * words; the run ends, and settles the second with its own prompt's answer.
   */
  lemma AnotherIsAnswered() returns (r: Run)
    ensures IsRun(r) && |r.states| > 0
    ensures
      var it := r.states[|r.states| - 1].sessions;
      |it| == 1 && it[0].settled == [Settled(1, None), Settled(2, Some(1))] && it[0].waiting == [Message(2, "again")]
  {
    hide Steps;
    var free, busy, no := Lane([0], None), Lane([], Some(0)), Lane([], None);
    var a, b := Message(1, "again"), Message(2, "again");
    var it0 := NewSession(OfTask);
    var it1 := it0.(came := [a], waiting := [a], answers := [a], asked := [1]);
    var it2 := it1.(waiting := [], phase := Starting, prompt := [a], outcomes := [Outcome(a, TookByRun)]);
    var it3 := it2.(answers := [], settled := [Settled(1, None)]);
    var it4 := it3.(came := [a, b], waiting := [b], answers := [b], asked := [1, 2]);
    var it5 := it4.(phase := Stopping);
    var it6 := it5.(phase := Saving, prompt := [], answers := [], settled := [Settled(1, None), Settled(2, Some(1))]);
    ExampleAsked(it0, no, a, it1);
    ExampleTaken(it1, a, it2);
    ExampleStopped(it2, it3);
    ExampleAsked(it3, busy, b, it4);
    ExampleFinished(it4, it5, it6);
    r := Run([State([], no, no), One(it0, no), One(it1, free), One(it2, busy), One(it3, busy), One(it4, Lane([0], Some(0))),
              One(it5, Lane([0], Some(0))), One(it6, Lane([0], Some(0)))],
             [Adds(OfTask), Asks(0, a), Pumps(OfTask), Stops(0), Asks(0, b), Ends(0), Finishes(0)]);
    ExampleAdded(it0);
  }

  /**
   * And it may be answered before its turn: a task is stopped as it runs, one is
   * asked in other words, one again in its words; and the first run ends.
   */
  lemma AnsweredOutOfOrder() returns (r: Run)
    ensures IsRun(r) && |r.states| == 9
    ensures
      var it := r.states[8].sessions;
      |it| == 1 && it[0].asked == [1, 2, 3] && it[0].settled == [Settled(1, None), Settled(3, Some(1))] && it[0].answers == [Message(2, "other")]
  {
    hide Steps;
    var free, busy, no, both := Lane([0], None), Lane([], Some(0)), Lane([], None), Lane([0], Some(0));
    var a, c, b := Message(1, "again"), Message(2, "other"), Message(3, "again");
    var it0 := NewSession(OfTask);
    var it1 := it0.(came := [a], waiting := [a], answers := [a], asked := [1]);
    var it2 := it1.(waiting := [], phase := Starting, prompt := [a], outcomes := [Outcome(a, TookByRun)]);
    var it3 := it2.(answers := [], settled := [Settled(1, None)]);
    var it4 := it3.(came := [a, c], waiting := [c], answers := [c], asked := [1, 2]);
    var it5 := it4.(came := [a, c, b], waiting := [c, b], answers := [c, b], asked := [1, 2, 3]);
    var it6 := it5.(phase := Stopping);
    var it7 := it6.(phase := Saving, prompt := [], answers := [c], settled := [Settled(1, None), Settled(3, Some(1))]);
    ExampleAdded(it0);
    ExampleAsked(it0, no, a, it1);
    ExampleTaken(it1, a, it2);
    ExampleStopped(it2, it3);
    ExampleAsked(it3, busy, c, it4);
    ExampleAsked(it4, both, b, it5);
    ExampleEnded(it5, it6, both);
    ExampleAnswered(it6, it7);
    r := Run([State([], no, no), One(it0, no), One(it1, free), One(it2, busy), One(it3, busy), One(it4, both), One(it5, both), One(it6, both), One(it7, both)],
             [Adds(OfTask), Asks(0, a), Pumps(OfTask), Stops(0), Asks(0, c), Asks(0, b), Ends(0), Finishes(0)]);
  }

  lemma ExampleEnded(it: Session, ended: Session, texts: Lane)
    requires it.phase == Starting && ended == it.(phase := Stopping)
    ensures Steps(One(it, texts), Ends(0), One(ended, texts))
  {
    OneSet(it, ended, texts);
  }

  lemma ExampleAnswered(it: Session, to: Session)
    requires it.phase == Stopping && |it.prompt| == 1 && |it.answers| == 2 && it.inbox == [] && it.unread == [] && it.onCall == None
    requires it.answers[1].text == it.prompt[0].text && it.answers[0].text != it.prompt[0].text
    requires to == it.(phase := Saving, prompt := [], answers := [it.answers[0]], settled := it.settled + [Settled(it.answers[1].id, Some(it.prompt[0].id))])
    ensures Steps(One(it, Lane([0], Some(0))), Finishes(0), One(to, Lane([0], Some(0))))
  {
    OneSet(it, to, Lane([0], Some(0)));
    assert it.answers[..1] + it.answers[2..] == [it.answers[0]];
    assert it.answers[1..][0] == it.answers[1];
  }

  function One(it: Session, texts: Lane): State {
    State([it], texts, Lane([], None))
  }

  lemma OneSet(it: Session, to: Session, texts: Lane)
    ensures SetSession(One(it, texts), 0, to) == One(to, texts)
  {
  }

  lemma ExampleAdded(it: Session)
    requires it == NewSession(OfTask)
    ensures Steps(State([], Lane([], None), Lane([], None)), Adds(OfTask), One(it, Lane([], None)))
  {
  }

  lemma ExampleAsked(it: Session, texts: Lane, m: Message, to: Session)
    requires it.kind == OfTask && (texts.queue == [] || (texts.queue == [0])) && m !in it.came && m.id !in it.asked
    requires to == it.(came := it.came + [m], waiting := it.waiting + [m], answers := it.answers + [m], asked := it.asked + [m.id])
    ensures Steps(One(it, texts), Asks(0, m), One(to, texts.(queue := [0])))
  {
    var a := it.(answers := it.answers + [m], asked := it.asked + [m.id]);
    OneSet(it, a, texts);
    OneSet(a, a.(came := it.came + [m]), texts);
    OneSet(a.(came := it.came + [m]), to, texts);
    assert [] + [0] == [0];
  }

  lemma ExampleTaken(it: Session, m: Message, to: Session)
    requires it.kind == OfTask && it.waiting == [m] && it.callId == None && it.onCall == None && !it.leftOpen && it.outcomes == []
    requires to == it.(waiting := [], phase := Starting, prompt := [m], outcomes := [Outcome(m, TookByRun)])
    ensures Steps(One(it, Lane([0], None)), Pumps(OfTask), One(to, Lane([], Some(0))))
  {
    OneSet(it, to, Lane([0], None));
    assert [m][..1] == [m] && [m][1..] == [];
    assert AsOutcomes([m], TookByRun) == [Outcome(m, TookByRun)];
    assert [0][1..] + [] == [];
    assert it.outcomes + [Outcome(m, TookByRun)] == [Outcome(m, TookByRun)];
  }

  lemma ExampleStopped(it: Session, to: Session)
    requires it.waiting == [] && |it.answers| == 1 && it.settled == []
    requires to == it.(answers := [], settled := [Settled(it.answers[0].id, None)])
    ensures Steps(One(it, Lane([], Some(0))), Stops(0), One(to, Lane([], Some(0))))
  {
    OneSet(it, to, Lane([], Some(0)));
    assert it.outcomes + AsOutcomes([], WasStopped) == it.outcomes;
    assert StopAll(it.answers) == [Settled(it.answers[0].id, None)];
    assert it.settled + [Settled(it.answers[0].id, None)] == [Settled(it.answers[0].id, None)];
  }

  lemma ExampleFinished(it: Session, ended: Session, to: Session)
    requires it.phase == Starting && |it.prompt| == 1 && |it.answers| == 1 && it.answers[0].text == it.prompt[0].text && it.inbox == [] && it.unread == []
    requires it.onCall == None && ended == it.(phase := Stopping)
    requires to == ended.(phase := Saving, prompt := [], answers := [], settled := it.settled + [Settled(it.answers[0].id, Some(it.prompt[0].id))])
    ensures
      var texts := Lane([0], Some(0));
      Steps(One(it, texts), Ends(0), One(ended, texts)) && Steps(One(ended, texts), Finishes(0), One(to, texts))
  {
    OneSet(it, ended, Lane([0], Some(0)));
    OneSet(ended, to, Lane([0], Some(0)));
    assert it.answers[..0] + it.answers[1..] == [];
  }

  /** It is stopped, and its run, if one goes on, ends and is saved. */
  function Ended(st: State, s: nat): State
    requires s < |st.sessions|
  {
    Return(Finish(AgentEnds(Stop(st, s), s), s), s)
  }

  /** What came for a run and was not read by it: none where its call is over, unless the run is being saved. */
  function LeftOf(it: Session): seq<Message> {
    if it.phase == Idle then [] else if it.phase == Saving then it.unread else if CallOver(it) then [] else it.inbox
  }

  /**
   * A conversation stopped at any time: what came for the run going on and was
   * not read is run again all the same, unless its call is over; and the
   * conversation is queued exactly when there is any.
   */
  lemma StoppedYetUnreadRuns(st: State, s: nat)
    requires Kept(st) && s < |st.sessions|
    ensures
      var it, after := st.sessions[s], Ended(st, s);
      && |after.sessions| == |st.sessions| && after.sessions[s].waiting == LeftOf(it)
      && (s in QueueOf(after, it.kind == OfCall) <==> LeftOf(it) != [])
  {
    hide Finish, Return, Stop, AgentEnds, LeftOf;
    var it, stopped := st.sessions[s], Stop(st, s);
    StoppedWaits(st, s);
    StopKeeps(st, s);
    AgentKeeps(stopped, s);
    FinishKeeps(AgentEnds(stopped, s), s);
    ReturnKeeps(Finish(AgentEnds(stopped, s), s), s);
    QueueParts(Ended(st, s), it.kind == OfCall);
  }

  lemma StoppedWaits(st: State, s: nat)
    requires s < |st.sessions| && SessionOk(st.sessions[s])
    ensures
      var it, stopped := st.sessions[s], Stop(st, s);
      var ended := AgentEnds(stopped, s);
      && |stopped.sessions| == |ended.sessions| == |Finish(ended, s).sessions| == |Ended(st, s).sessions| == |st.sessions|
      && Ended(st, s).sessions[s].kind == it.kind && Ended(st, s).sessions[s].waiting == LeftOf(it)
  {
    hide FindAnswer, Words, Without, StopAll, NoneLost, TasksKept;
    var it, ended := st.sessions[s], AgentEnds(Stop(st, s), s);
    var c := ended.sessions[s];
    assert c == Stopped(it).(phase := if it.phase == Working || it.phase == Starting then Stopping else it.phase);
    var b := Finish(ended, s).sessions[s];
    assert b.waiting == [] && (b.phase == Saving <==> it.phase != Idle);
    assert b.phase == Saving ==> b.unread == LeftOf(it);
    assert [] + b.unread == b.unread;
  }

  /**
   * Stopped, and run again all the same: a text comes while one is answered, the
   * conversation is stopped before its agent reads it, and the run ends.
   */
  lemma StoppedAndRunsAgain() returns (r: Run)
    ensures IsRun(r) && |r.states| == 10
    ensures |r.steps| == 9 && r.steps[5] == Stops(0) && |r.states[9].sessions| == 1 && r.states[9].sessions[0].waiting == [Message(2, "b")] && r.states[9].texts.queue == [0]
  {
    hide Steps;
    var free, busy, no := Lane([0], None), Lane([], Some(0)), Lane([], None);
    var a, b := Message(1, "a"), Message(2, "b");
    var it0 := NewSession(OfTexts);
    var it1 := it0.(came := [a], waiting := [a]);
    var it2 := it1.(waiting := [], phase := Starting, prompt := [a], outcomes := [Outcome(a, TookByRun)]);
    var it3 := it2.(phase := Working);
    var it4 := it3.(came := [a, b], inbox := [b]);
    var it5 := it4.(phase := Stopping);
    var it6 := it5.(phase := Saving, prompt := [], inbox := [], unread := [b]);
    var it7 := it6.(phase := Idle, unread := [], waiting := [b]);
    TextsAdded(it0);
    TextsCame(it0, a, it1);
    TextsTaken(it1, a, it2);
    TextsStarted(it2, it3, busy);
    TextsRead(it3, b, it4);
    TextsStopped(it4);
    TextsEnded(it4, it5, busy);
    TextsFinished(it5, it6);
    TextsReturned(it6, it7);
    r := Run([State([], no, no), One(it0, no), One(it1, free), One(it2, busy), One(it3, busy), One(it4, busy), One(it4, busy), One(it5, busy),
              One(it6, busy), One(it7, free)],
             [Adds(OfTexts), Delivers(0, a, false), Pumps(OfTexts), Starts(0), Delivers(0, b, false), Stops(0), Ends(0), Finishes(0), Returns(0)]);
  }

  lemma TextsAdded(it: Session)
    requires it == NewSession(OfTexts)
    ensures Steps(State([], Lane([], None), Lane([], None)), Adds(OfTexts), One(it, Lane([], None)))
  {
  }

  lemma TextsCame(it: Session, m: Message, to: Session)
    requires it == NewSession(OfTexts) && to == it.(came := [m], waiting := [m])
    ensures Steps(One(it, Lane([], None)), Delivers(0, m, false), One(to, Lane([0], None)))
  {
    var came := it.(came := it.came + [m]);
    assert it.came + [m] == [m] && it.waiting + [m] == [m] && [] + [0] == [0];
    OneSet(it, came, Lane([], None));
    OneSet(came, to, Lane([], None));
  }

  lemma TextsTaken(it: Session, m: Message, to: Session)
    requires it == NewSession(OfTexts).(came := [m], waiting := [m])
    requires to == it.(waiting := [], phase := Starting, prompt := [m], outcomes := [Outcome(m, TookByRun)])
    ensures Steps(One(it, Lane([0], None)), Pumps(OfTexts), One(to, Lane([], Some(0))))
  {
    OneSet(it, to, Lane([0], None));
    assert [m][..1] == [m] && [m][1..] == [];
    assert AsOutcomes([m], TookByRun) == [Outcome(m, TookByRun)];
    assert it.outcomes + [Outcome(m, TookByRun)] == [Outcome(m, TookByRun)];
    assert [0][1..] + [] == [];
  }

  lemma TextsStarted(it: Session, to: Session, texts: Lane)
    requires it.phase == Starting && to == it.(phase := Working)
    ensures Steps(One(it, texts), Starts(0), One(to, texts))
  {
    OneSet(it, to, texts);
  }

  lemma TextsRead(it: Session, m: Message, to: Session)
    requires it.kind == OfTexts && it.phase == Working && !it.leftOpen && m !in it.came && to == it.(came := it.came + [m], inbox := it.inbox + [m])
    ensures Steps(One(it, Lane([], Some(0))), Delivers(0, m, false), One(to, Lane([], Some(0))))
  {
    OneSet(it, to, Lane([], Some(0)));
  }

  lemma TextsStopped(it: Session)
    requires it.waiting == [] && it.answers == []
    ensures Steps(One(it, Lane([], Some(0))), Stops(0), One(it, Lane([], Some(0))))
  {
    OneSet(it, it, Lane([], Some(0)));
    assert it.outcomes + AsOutcomes([], WasStopped) == it.outcomes && it.settled + StopAll([]) == it.settled;
  }

  lemma TextsEnded(it: Session, to: Session, texts: Lane)
    requires it.phase == Working && to == it.(phase := Stopping)
    ensures Steps(One(it, texts), Ends(0), One(to, texts))
  {
    OneSet(it, to, texts);
  }

  lemma TextsFinished(it: Session, to: Session)
    requires it.phase == Stopping && it.prompt != [] && it.answers == [] && it.onCall == None && to == it.(phase := Saving, prompt := [], inbox := [], unread := it.inbox)
    ensures Steps(One(it, Lane([], Some(0))), Finishes(0), One(to, Lane([], Some(0))))
  {
    OneSet(it, to, Lane([], Some(0)));
  }

  lemma TextsReturned(it: Session, to: Session)
    requires it.kind == OfTexts && it.phase == Saving && it.unread != [] && it.waiting == [] && to == it.(phase := Idle, unread := [], waiting := it.unread)
    ensures Steps(One(it, Lane([], Some(0))), Returns(0), One(to, Lane([0], None)))
  {
    var freed := it.(phase := Idle, unread := []);
    OneSet(it, freed, Lane([], Some(0)));
    OneSet(freed, to, Lane([], None));
    assert [] + it.unread == it.unread && [] + [0] == [0];
  }

  // ---- The class --------------------------------------------------------------------------------------------------------

  class Dispatcher {
    var sessions: seq<Session>
    var texts: Lane
    var calls: Lane

    constructor ()
      ensures Current() == State([], Lane([], None), Lane([], None))
    {
      sessions, texts, calls := [], Lane([], None), Lane([], None);
    }

    function Current(): State
      reads this
    {
      State(sessions, texts, calls)
    }

    method Enqueue(s: nat, first: bool)
      requires s < |sessions|
      modifies this
      ensures Current() == SetLane(old(Current()), old(sessions[s].kind), Queued(LaneOf(old(Current()), old(sessions[s].kind)), s, first))
    {
      if sessions[s].kind == OfCall {
        if s !in calls.queue {
          calls := calls.(queue := if first then [s] + calls.queue else calls.queue + [s]);
        }
      } else if s !in texts.queue {
        texts := texts.(queue := if first then [s] + texts.queue else texts.queue + [s]);
      }
    }

    /** Puts a message into the running agent's inbox where it takes any, else among those that wait. */
    method DeliverTo(s: nat, m: Message, first: bool)
      requires s < |sessions|
      modifies this
      ensures Current() == Deliver(old(Current()), s, m, first)
    {
      ghost var it := sessions[s];
      sessions := sessions[s := sessions[s].(came := sessions[s].came + [m])];
      if sessions[s].kind != OfTask && sessions[s].phase == Working && !sessions[s].leftOpen {
        sessions := sessions[s := sessions[s].(inbox := sessions[s].inbox + [m])];
        assert sessions == old(sessions)[s := it.(came := it.came + [m], inbox := it.inbox + [m])];
        return;
      }
      sessions := sessions[s := sessions[s].(waiting := sessions[s].waiting + [m])];
      Enqueue(s, first);
    }

    /** The first task asked in these words. */
    method FindTask(s: nat, words: string) returns (found: Option<nat>)
      requires s < |sessions|
      ensures found == FindAnswer(sessions[s].answers, words)
    {
      var answers := sessions[s].answers;
      var i := 0;
      while i < |answers|
        invariant 0 <= i <= |answers|
        invariant forall j :: 0 <= j < i ==> answers[j].text != words
      {
        if answers[i].text == words {
          FirstIs(answers, words, i);
          return Some(i);
        }
        i := i + 1;
      }
      NoneIs(answers, words);
      found := None;
    }

    /** Stopped: nothing waits for it, in its lane or of its tasks. */
    method StopRun(s: nat)
      requires s < |sessions|
      modifies this
      ensures Current() == Stop(old(Current()), s)
    {
      ghost var it := sessions[s];
      sessions := sessions[s := sessions[s].(waiting := [], outcomes := sessions[s].outcomes + AsOutcomes(sessions[s].waiting, WasStopped))];
      var answers := sessions[s].answers;
      sessions := sessions[s := sessions[s].(answers := [])];
      assert it.settled + StopAll(answers[..0]) == it.settled;
      var i := 0;
      while i < |answers|
        invariant 0 <= i <= |answers| && |sessions| == |old(sessions)|
        invariant sessions == old(sessions)[s := sessions[s]]
        invariant sessions[s] == Stopped(it).(settled := it.settled + StopAll(answers[..i]))
        invariant texts == old(texts) && calls == old(calls)
      {
        assert StopAll(answers[..i + 1]) == StopAll(answers[..i]) + [Settled(answers[i].id, None)];
        sessions := sessions[s := sessions[s].(settled := sessions[s].settled + [Settled(answers[i].id, None)])];
        i := i + 1;
      }
      assert answers[..i] == answers;
      texts := texts.(queue := Without(texts.queue, s));
      calls := calls.(queue := Without(calls.queue, s));
    }

    /** A run ends: its task's answer, and what its agent left unread. */
    method FinishRun(s: nat)
      requires s < |sessions|
      modifies this
      ensures Current() == Finish(old(Current()), s)
    {
      hide FindAnswer, Words;
      if sessions[s].phase != Stopping || sessions[s].prompt == [] {
        return;
      }
      ghost var it := sessions[s];
      var found := FindTask(s, Words(sessions[s].prompt));
      var to := sessions[s];
      if found.Some? {
        var answer := to.answers[found.value];
        to := to.(answers := to.answers[..found.value] + to.answers[found.value + 1..], settled := to.settled + [Settled(answer.id, Some(to.prompt[0].id))]);
      }
      var unread := to.inbox;
      to := to.(inbox := []);
      if CallOver(to) {
        to := to.(outcomes := to.outcomes + AsOutcomes(unread, CallWasOver));
      } else {
        to := to.(unread := unread);
      }
      sessions := sessions[s := to.(phase := Saving, prompt := [])];
    }
  }

  lemma {:induction false} FirstIs(answers: seq<Message>, words: string, i: nat)
    requires i < |answers| && answers[i].text == words && forall j :: 0 <= j < i ==> answers[j].text != words
    ensures FindAnswer(answers, words) == Some(i)
  {
    if i > 0 {
      FirstIs(answers[1..], words, i - 1);
    }
  }

  lemma {:induction false} NoneIs(answers: seq<Message>, words: string)
    requires forall j :: 0 <= j < |answers| ==> answers[j].text != words
    ensures FindAnswer(answers, words) == None
  {
    if answers != [] {
      NoneIs(answers[1..], words);
    }
  }
}
