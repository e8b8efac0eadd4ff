/**
 * What holds in every run of the outreach engine (app/src/outreach.ts): who is
 * rung and texted, how often, and when a campaign is over.
 */
module OutreachRuns {
  import opened Options
  import opened TimeOrder
  import opened Outreach
  import opened OutreachKept
  import opened OutreachContacts
  import opened OutreachTexts

  // ---- Steps ---------------------------------------------------------------------

  datatype Step =
    | LookOverdue(c: nat, at: int, said: Overheard)
    | LookDial(dial: DialLook)
    | LookText(text: TextLook)
    | LookFinish(c: nat, at: int)
    | Heard(event: Event, at: int)
    | VoiceBegins(call: Id, number: Number)
    | VoiceEnds(c: nat, p: nat, at: int)
    | HangsUp(c: nat, p: nat)
    | Records(c: nat, p: nat, outcome: Outcome, callBackAt: Option<int>, kept: Number, at: int)
    | Stops(number: Number, kept: Number, at: int)
    | Creates(kind: Kind, times: nat, gap: nat, replyDeadline: int, numbers: seq<Number>, at: int)
    | Pauses(c: nat)
    | Resumes(c: nat, byAgent: bool, at: int)
    | Ends(c: nat, at: int)
    | Restarts

  /** When a step is (none: it has no time of its own). */
  function TimeOf(s: Step): Option<int> {
    match s
    case LookDial(look) => Some(look.now)
    case LookText(look) => Some(look.now)
    case LookOverdue(_, at, _) => Some(at)
    case LookFinish(_, at) => Some(at)
    case Heard(_, at) => Some(at)
    case VoiceEnds(_, _, at) => Some(at)
    case Records(_, _, _, _, _, at) => Some(at)
    case Stops(_, _, at) => Some(at)
    case Creates(_, _, _, _, _, at) => Some(at)
    case Resumes(_, _, at) => Some(at)
    case Ends(_, at) => Some(at)
    case _ => None
  }

  function Clock(clock: int, s: Step): int {
    if TimeOf(s).Some? then TimeOf(s).value else clock
  }

  /** An event of a call that comes after its end, and would put its person on the phone again. */
  predicate OutOfOrder(w: World, e: Event) {
    match e
    case CallRinging(call) => Revives(w, call)
    case CallAnswered(call) => Revives(w, call)
    case _ => false
  }

  /** A step that can come: what it is about is there, time does not go back, and a call's events come in order. */
  predicate CanCome(w: World, clock: int, s: Step) {
    && (TimeOf(s).Some? ==> TimeOf(s).value >= clock && TimeOf(s).value > 0)
    && match s
       case LookOverdue(c, _, _) => c < |w.campaigns|
       case LookFinish(c, _) => c < |w.campaigns|
       case Heard(e, _) => !OutOfOrder(w, e)
       case VoiceEnds(c, p, _) => IsAt(w, c, p)
       case HangsUp(c, p) => IsAt(w, c, p)
       case Records(c, p, _, _, _, _) => IsAt(w, c, p)
       case Pauses(c) => c < |w.campaigns|
       case Resumes(c, _, _) => c < |w.campaigns|
       case Ends(c, _) => c < |w.campaigns|
       case _ => true
  }

  ghost function Next(w: World, clock: int, s: Step, same: (Number, Number) -> bool): World
    requires CanCome(w, clock, s)
  {
    match s
    case LookOverdue(c, at, said) => Overdue(w, c, at, said)
    case LookDial(look) => Dial(w, look, same)
    case LookText(look) => Text(w, look, same)
    case LookFinish(c, at) => FinishIfDone(w, c, at, false)
    case Heard(e, at) => OnEvent(w, e, at)
    case VoiceBegins(call, number) => ForCall(w, call, number, same)
    case VoiceEnds(c, p, at) => VoiceEnded(w, c, p, at)
    case HangsUp(c, p) => HangingUp(w, c, p)
    case Records(c, p, outcome, callBackAt, kept, at) => Record(w, c, p, outcome, callBackAt, kept, at, same)
    case Stops(number, kept, at) => StopWord(w, number, kept, at, same)
    case Creates(kind, times, gap, replyDeadline, numbers, at) => Create(w, kind, times, gap, replyDeadline, numbers, at)
    case Pauses(c) => Pause(w, c)
    case Resumes(c, byAgent, at) => Resume(w, c, byAgent, at)
    case Ends(c, at) => End(w, c, at)
    case Restarts => w.(dials := None)
  }

  // ---- What one step does --------------------------------------------------------------

  /** How many reports were made of a campaign: one once it is over, none before. */
  ghost predicate ReportedOnce(w: World) {
    forall c: nat :: multiset(w.trace)[Reported(c)] == if c < |w.campaigns| && w.campaigns[c].endedAt.Some? then 1 else 0
  }

  /** Whom the phone may be asked to ring, or text. */
  ghost predicate EntryFair(w: World, e: Entry, same: (Number, Number) -> bool) {
    match e
    case Rang(c, p, number, _) => MayContact(w, Calls, c, p, number, same) && !Busy(w)
    case Texted(c, p, _, number, _) => MayContact(w, Texts, c, p, number, same)
    case _ => true
  }

  ghost predicate Fair(w: World, w': World, same: (Number, Number) -> bool) {
    forall i :: |w.trace| <= i < |w'.trace| ==> EntryFair(w, w'.trace[i], same)
  }

  ghost predicate AllOk(w: World, clock: int) {
    Kept(w) && TextsOk(w, clock) && ReportedOnce(w)
  }

  ghost predicate StepOk(w: World, w': World, clock': int, same: (Number, Number) -> bool) {
    AllOk(w', clock') && GoesOn(w, w') && Fair(w, w', same)
  }

  /** No campaign's report is made. */
  ghost predicate NoneOver(w: World, w': World) {
    && |w'.campaigns| == |w.campaigns|
    && forall c :: 0 <= c < |w.campaigns| ==> w'.campaigns[c].endedAt.Some? == w.campaigns[c].endedAt.Some?
  }

  ghost predicate NoReport(w: World, w': World) {
    w.trace <= w'.trace && forall i :: |w.trace| <= i < |w'.trace| ==> !w'.trace[i].Reported?
  }

  lemma NoReportsKeep(w: World, w': World)
    requires ReportedOnce(w) && NoneOver(w, w') && NoReport(w, w')
    ensures ReportedOnce(w')
  {
    forall c: nat
      ensures multiset(w'.trace)[Reported(c)] == multiset(w.trace)[Reported(c)]
    {
      NotAmong(w.trace, w'.trace, Reported(c));
    }
  }

  lemma NotAmong(t: seq<Entry>, t': seq<Entry>, e: Entry)
    requires t <= t' && forall i :: |t| <= i < |t'| ==> t'[i] != e
    ensures multiset(t')[e] == multiset(t)[e]
  {
    var more := t'[|t|..];
    assert t' == t + more;
    assert e !in more;
  }

  /** A step that rings and texts no one, and says nothing. */
  lemma MovingOk(w: World, w': World, clock: int, clock': int, same: (Number, Number) -> bool)
    requires AllOk(w, clock) && clock <= clock' && WorldMoves(w, w') && Kept(w') && w'.trace == w.trace && w.doNotContact <= w'.doNotContact
    ensures StepOk(w, w', clock', same)
  {
    hide Kept, TextsOk;
    MovesKeepTexts(w, w', clock, clock');
    MovesGoOn(w, w');
    forall c | 0 <= c < |w.campaigns|
      ensures w'.campaigns[c].endedAt == w.campaigns[c].endedAt
    {
      assert CampaignMoves(w.campaigns[c], w'.campaigns[c]);
    }
    NoReportsKeep(w, w');
  }

  // ---- Ringing and texting ----------------------------------------------------------------

  lemma {:induction false} PauseAllOver(w: World, running: seq<nat>)
    requires forall i :: 0 <= i < |running| ==> running[i] < |w.campaigns|
    ensures NoneOver(w, PauseAll(w, running))
    decreases |running|
  {
    if running != [] {
      PauseAllOver(Pause(w, running[0]), running[1..]);
    }
  }

  lemma {:induction false} DialDueOver(w: World, due: seq<(nat, nat)>, look: DialLook, same: (Number, Number) -> bool)
    requires DueThere(w, due)
    ensures NoneOver(w, DialDue(w, due, look, same))
    decreases |due|
  {
    hide Settle, Answered;
    if due != [] {
      var (c, p) := due[0];
      var who := w.campaigns[c].people[p];
      if !look.inHours(c) {
        DialDueOver(w, due[1..], look, same);
      } else if look.barred(who.number) || Listed(w.doNotContact, who.number, same) {
        DialDueOver(LeaveOut(w, c, p, look.now), due[1..], look, same);
      } else {
        AnsweredOver(w.campaigns[c], p, who.tries + 1, look.reply, look.now);
      }
    }
  }

  lemma AnsweredOver(it: Campaign, i: nat, n: nat, reply: DialReply, now: int)
    requires i < |it.people|
    ensures Answered(it, i, n, reply, now).endedAt == it.endedAt
  {
    hide Settle, RetryOr;
  }

  lemma {:induction false} TextDueOver(w: World, due: seq<(nat, nat)>, look: TextLook, same: (Number, Number) -> bool)
    requires DueThere(w, due)
    ensures NoneOver(w, TextDue(w, due, look, same))
    decreases |due|
  {
    hide Settle, SentEntries;
    if due != [] {
      var (c, p) := due[0];
      var who := w.campaigns[c].people[p];
      if !look.inHours(c) {
        TextDueOver(w, due[1..], look, same);
      } else if who.number != TEST && (look.barred(who.number) || Listed(w.doNotContact, who.number, same)) {
        TextDueOver(LeaveOut(w, c, p, look.now), due[1..], look, same);
      } else {
        SendSets(w, c, p, look);
      }
    }
  }

  lemma DialOk(w: World, clock: int, look: DialLook, same: (Number, Number) -> bool)
    requires AllOk(w, clock) && clock <= look.now
    ensures StepOk(w, Dial(w, look, same), look.now, same)
  {
    hide Kept, TextsOk, GoesOn, Dial;
    var w' := Dial(w, look, same);
    DialKeeps(w, look, same);
    DialOver(w, look, same);
    RangIsOther(w, w', look.now, same);
    NoReportsKeep(w, w');
    DialTexts(w, look, same);
    GoesOnParts(w, w');
    SameTexts(w, w', clock, look.now);
  }

  lemma GoesOnParts(w: World, w': World)
    requires GoesOn(w, w')
    ensures CampaignsGoOn(w, w') && w.trace <= w'.trace && w.doNotContact <= w'.doNotContact
  {
  }

  lemma DialOver(w: World, look: DialLook, same: (Number, Number) -> bool)
    ensures NoneOver(w, Dial(w, look, same))
  {
    hide Busy, DialDue, DueOf, RunningByAge, PauseAll;
    var running := RunningByAge(w, Calls);
    RunningAreThere(w, Calls);
    var due := DueOf(w, running, look.now);
    DueAreThere(w, Calls, running, look.now);
    PauseAllOver(w, running);
    DialDueOver(w, due, look, same);
  }

  lemma RangIsOther(w: World, w': World, now: int, same: (Number, Number) -> bool)
    requires RangFairly(w, w', now, same)
    ensures OnlyOthers(w.trace, w'.trace) && NoReport(w, w') && Fair(w, w', same)
  {
    hide MayContact, Busy;
  }

  /** The people of text campaigns are as they were. */
  ghost predicate TextsSame(w: World, w': World) {
    && |w'.campaigns| == |w.campaigns|
    && forall c :: 0 <= c < |w.campaigns| ==>
      w'.campaigns[c].kind == w.campaigns[c].kind && (w.campaigns[c].kind == Texts ==> w'.campaigns[c].people == w.campaigns[c].people)
  }

  lemma {:induction false} PauseAllTexts(w: World, running: seq<nat>)
    requires forall i :: 0 <= i < |running| ==> running[i] < |w.campaigns|
    ensures TextsSame(w, PauseAll(w, running))
    decreases |running|
  {
    if running != [] {
      PauseAllTexts(Pause(w, running[0]), running[1..]);
    }
  }

  lemma {:induction false} DialDueTexts(w: World, due: seq<(nat, nat)>, look: DialLook, same: (Number, Number) -> bool)
    requires DueThere(w, due) && forall i :: 0 <= i < |due| ==> w.campaigns[due[i].0].kind == Calls
    ensures TextsSame(w, DialDue(w, due, look, same))
    decreases |due|
  {
    hide Settle, Answered;
    if due != [] {
      var (c, p) := due[0];
      var who := w.campaigns[c].people[p];
      if !look.inHours(c) {
        DialDueTexts(w, due[1..], look, same);
      } else if look.barred(who.number) || Listed(w.doNotContact, who.number, same) {
        DialDueTexts(LeaveOut(w, c, p, look.now), due[1..], look, same);
      } else {
        AnsweredKind(w.campaigns[c], p, who.tries + 1, look.reply, look.now);
      }
    }
  }

  lemma AnsweredKind(it: Campaign, i: nat, n: nat, reply: DialReply, now: int)
    requires i < |it.people|
    ensures Answered(it, i, n, reply, now).kind == it.kind
  {
    hide Settle, RetryOr;
  }

  lemma DialTexts(w: World, look: DialLook, same: (Number, Number) -> bool)
    ensures TextsSame(w, Dial(w, look, same))
  {
    hide Busy, DialDue, DueOf, RunningByAge, PauseAll;
    var running := RunningByAge(w, Calls);
    RunningAreThere(w, Calls);
    var due := DueOf(w, running, look.now);
    DueAreThere(w, Calls, running, look.now);
    PauseAllTexts(w, running);
    DialDueTexts(w, due, look, same);
  }

  lemma TextOk(w: World, clock: int, look: TextLook, same: (Number, Number) -> bool)
    requires AllOk(w, clock) && clock <= look.now && look.now > 0
    ensures StepOk(w, Text(w, look, same), look.now, same)
  {
    hide Kept, TextsOk, GoesOn, Text;
    var w' := Text(w, look, same);
    TextKeeps(w, clock, look, same);
    TextOver(w, look, same);
    TextedIsFair(w, w', look.now, same);
    NoReportsKeep(w, w');
  }

  lemma TextOver(w: World, look: TextLook, same: (Number, Number) -> bool)
    ensures NoneOver(w, Text(w, look, same))
  {
    hide MayText, TextDue, DueOf, RunningByAge;
    var running := RunningByAge(w, Texts);
    RunningAreThere(w, Texts);
    var due := DueOf(w, running, look.now);
    DueAreThere(w, Texts, running, look.now);
    TextDueOver(w, due, look, same);
  }

  lemma TextedIsFair(w: World, w': World, now: int, same: (Number, Number) -> bool)
    requires TextedFairly(w, w', now, same)
    ensures NoReport(w, w') && Fair(w, w', same)
  {
    hide MayContact;
  }

  // ---- Events, requests, and the end ---------------------------------------------------------

  lemma EventOk(w: World, clock: int, e: Event, now: int, same: (Number, Number) -> bool)
    requires AllOk(w, clock) && clock <= now && !OutOfOrder(w, e)
    ensures StepOk(w, OnEvent(w, e, now), now, same)
  {
    hide AllOk, Kept, TextsOk, StepOk, WorldMoves, Revives, OnRing, OnEnded, OnDialFailed, OnTextSent, OnTextLost;
    KeptOf(w, clock);
    NoMove(w);
    match e
    case CallDialling(_) => MovingOk(w, w, clock, now, same);
    case TextRefused(_) => MovingOk(w, w, clock, now, same);
    case CallRinging(call) =>
      RingKeeps(w, call, Ringing);
      RingSaysNothing(w, call, Ringing);
      MovingOk(w, OnRing(w, call, Ringing), clock, now, same);
    case CallAnswered(call) =>
      RingKeeps(w, call, OnCall);
      RingSaysNothing(w, call, OnCall);
      MovingOk(w, OnRing(w, call, OnCall), clock, now, same);
    case CallEnded(call, outcome, reason) =>
      EndedKeeps(w, call, EndOfCall(outcome, reason, now), now);
      EndedSaysNothing(w, call, EndOfCall(outcome, reason, now), now);
      MovingOk(w, OnEnded(w, call, EndOfCall(outcome, reason, now), now), clock, now, same);
    case DialFailed(operation) =>
      DialFailedKeeps(w, operation, now);
      FailedSaysNothing(w, operation, now);
      MovingOk(w, OnDialFailed(w, operation, now), clock, now, same);
    case TextSent(m) =>
      TextSentKeeps(w, m, now);
      SentSaysNothing(w, m, now);
      MovingOk(w, OnTextSent(w, m, now), clock, now, same);
    case TextLost(m, unknown) => TextLostOk(w, clock, m, unknown, now, same);
  }

  lemma KeptOf(w: World, clock: int)
    requires AllOk(w, clock)
    ensures Kept(w) && TextsOk(w, clock) && ReportedOnce(w)
  {
  }

  lemma RingSaysNothing(w: World, call: Id, to: PersonState)
    ensures OnRing(w, call, to).trace == w.trace && OnRing(w, call, to).doNotContact == w.doNotContact
  {
  }

  lemma EndedSaysNothing(w: World, call: Id, end: EndOfCall, now: int)
    ensures OnEnded(w, call, end, now).trace == w.trace && OnEnded(w, call, end, now).doNotContact == w.doNotContact
  {
    hide SettleCall;
  }

  lemma FailedSaysNothing(w: World, operation: Id, now: int)
    ensures OnDialFailed(w, operation, now).trace == w.trace && OnDialFailed(w, operation, now).doNotContact == w.doNotContact
  {
  }

  lemma SentSaysNothing(w: World, m: MessageId, now: int)
    ensures OnTextSent(w, m, now).trace == w.trace && OnTextSent(w, m, now).doNotContact == w.doNotContact
  {
  }

  lemma TextLostOk(w: World, clock: int, m: MessageId, unknown: bool, now: int, same: (Number, Number) -> bool)
    requires AllOk(w, clock) && clock <= now
    ensures StepOk(w, OnTextLost(w, m, unknown, now), now, same)
  {
    hide Kept, TextsOk, GoesOn;
    TextLostKeeps(w, clock, m, unknown, now);
    LostIsNoReport(w, m, unknown, now);
    NoReportsKeep(w, OnTextLost(w, m, unknown, now));
  }

  lemma LostIsNoReport(w: World, m: MessageId, unknown: bool, now: int)
    ensures NoReport(w, OnTextLost(w, m, unknown, now)) && NoneOver(w, OnTextLost(w, m, unknown, now))
  {
    hide Settle;
  }

  /** The only thing said is that a campaign is over. */
  ghost predicate Reports(w: World, w': World) {
    w.trace <= w'.trace && forall i :: |w.trace| <= i < |w'.trace| ==> w'.trace[i].Reported?
  }

  lemma FinishGoesOn(w: World, c: nat, now: int, force: bool)
    requires c < |w.campaigns| && (w.campaigns[c].state == Finished ==> w.campaigns[c].endedAt.Some?)
    ensures GoesOn(w, FinishIfDone(w, c, now, force)) && OnlyOthers(w.trace, FinishIfDone(w, c, now, force).trace)
    ensures TextsSame(w, FinishIfDone(w, c, now, force)) && Reports(w, FinishIfDone(w, c, now, force))
  {
    var w' := FinishIfDone(w, c, now, force);
    forall d | 0 <= d < |w.campaigns|
      ensures CampaignGoesOn(w.campaigns[d], w'.campaigns[d])
    {
    }
  }

  lemma FinishReports(w: World, c: nat, now: int, force: bool)
    requires ReportedOnce(w) && c < |w.campaigns|
    ensures ReportedOnce(FinishIfDone(w, c, now, force))
  {
    var w' := FinishIfDone(w, c, now, force);
    if w' != w {
      assert w'.trace == w.trace + [Reported(c)];
      forall d: nat
        ensures multiset(w'.trace)[Reported(d)] == multiset(w.trace)[Reported(d)] + if d == c then 1 else 0
      {
      }
    }
  }

  lemma FinishOk(w: World, clock: int, c: nat, now: int, force: bool, same: (Number, Number) -> bool)
    requires AllOk(w, clock) && clock <= now && c < |w.campaigns| && (force ==> w.campaigns[c].state == Stopped)
    ensures StepOk(w, FinishIfDone(w, c, now, force), now, same)
  {
    hide PeopleOk, OneLive, CampaignOk, TextsOk, FinishIfDone, GoesOn;
    FinishKeeps(w, c, now, force);
    OverOf(w, c);
    FinishGoesOn(w, c, now, force);
    FinishReports(w, c, now, force);
    GoesOnParts(w, FinishIfDone(w, c, now, force));
    SameTexts(w, FinishIfDone(w, c, now, force), clock, now);
  }

  lemma OverOf(w: World, c: nat)
    requires CampaignsOk(w) && c < |w.campaigns|
    ensures w.campaigns[c].state == Finished ==> w.campaigns[c].endedAt.Some?
  {
    assert CampaignOk(w.campaigns[c]);
  }

  lemma EndOk(w: World, clock: int, c: nat, now: int, same: (Number, Number) -> bool)
    requires AllOk(w, clock) && clock <= now && c < |w.campaigns|
    ensures StepOk(w, End(w, c, now), now, same)
  {
    hide AllOk, Kept, TextsOk, StepOk, WorldMoves, FinishIfDone;
    KeptOf(w, clock);
    var it := w.campaigns[c];
    if it.state == Finished || it.state == Stopped {
      NoMove(w);
      MovingOk(w, w, clock, now, same);
    } else {
      var w1 := SetCampaign(w, c, it.(people := EndPeople(it.people, now), state := Stopped));
      StoppingKeeps(w, c, now);
      MovingOk(w, w1, clock, now, same);
      StepIsOk(w, w1, now, same);
      FinishOk(w1, now, c, now, true, same);
      FinishGoesOn(w1, c, now, true);
      StepsJoin(w, w1, FinishIfDone(w1, c, now, true), now, same);
    }
  }

  lemma StepIsOk(w: World, w': World, clock': int, same: (Number, Number) -> bool)
    requires StepOk(w, w', clock', same)
    ensures AllOk(w', clock')
  {
  }

  /** What comes after a step that rings and texts no one. */
  lemma StepsJoin(w: World, w1: World, w2: World, now: int, same: (Number, Number) -> bool)
    requires StepOk(w, w1, now, same) && StepOk(w1, w2, now, same) && w1.trace == w.trace && Reports(w1, w2)
    ensures StepOk(w, w2, now, same)
  {
    hide AllOk, CampaignsGoOn;
    GoesOnJoin(w, w1, w2);
  }

  lemma CreateOk(w: World, clock: int, kind: Kind, times: nat, gap: nat, replyDeadline: int, numbers: seq<Number>, now: int, same: (Number, Number) -> bool)
    requires AllOk(w, clock) && clock <= now
    ensures StepOk(w, Create(w, kind, times, gap, replyDeadline, numbers, now), now, same)
  {
    hide Kept, TextsOk, CampaignsGoOn, Create;
    var w' := Create(w, kind, times, gap, replyDeadline, numbers, now);
    CreateKeeps(w, kind, times, gap, replyDeadline, numbers, now);
    CreateIs(w, kind, times, gap, replyDeadline, numbers, now);
    SameTexts(w, w', clock, now);
  }

  lemma CreateIs(w: World, kind: Kind, times: nat, gap: nat, replyDeadline: int, numbers: seq<Number>, now: int)
    ensures
      var w' := Create(w, kind, times, gap, replyDeadline, numbers, now);
      && CampaignsGoOn(w, w') && w'.trace == w.trace && w'.doNotContact == w.doNotContact
      && w'.campaigns == w.campaigns + [w'.campaigns[|w.campaigns|]] && w'.campaigns[|w.campaigns|].endedAt.None?
      && forall p :: 0 <= p < |w'.campaigns[|w.campaigns|].people| ==> w'.campaigns[|w.campaigns|].people[p].attempt.None?
  {
  }

  lemma RequestOk(w: World, clock: int, s: Step, same: (Number, Number) -> bool)
    requires AllOk(w, clock) && CanCome(w, clock, s)
    requires s.VoiceBegins? || s.VoiceEnds? || s.HangsUp? || s.Records? || s.Stops? || s.Pauses? || s.Resumes? || s.Restarts?
    ensures StepOk(w, Next(w, clock, s, same), Clock(clock, s), same)
  {
    hide AllOk, Kept, StepOk, WorldMoves, ForCall, VoiceEnded, HangingUp, Record, StopWord, Pause, Resume;
    KeptOf(w, clock);
    NoMove(w);
    match s {
    case VoiceBegins(call, number) => ForCallKeeps(w, call, number, same);
    case VoiceEnds(c, p, at) => VoiceEndedKeeps(w, c, p, at);
    case HangsUp(c, p) => HangingUpKeeps(w, c, p);
    case Records(c, p, outcome, callBackAt, kept, at) => RecordKeeps(w, c, p, outcome, callBackAt, kept, at, same);
    case Stops(number, kept, at) => StopKeeps(w, number, kept, at, same);
    case Pauses(c) => PauseKeeps(w, c);
    case Resumes(c, byAgent, at) => ResumeKeeps(w, c, byAgent, at);
    case Restarts => SameKept(w, w.(dials := None)); ListingMoves(w);
    }
    RequestSaysNothing(w, clock, s, same);
    MovingOk(w, Next(w, clock, s, same), clock, Clock(clock, s), same);
  }

  lemma ListingMoves(w: World)
    ensures WorldMoves(w, w.(dials := None))
  {
  }

  lemma RequestSaysNothing(w: World, clock: int, s: Step, same: (Number, Number) -> bool)
    requires CanCome(w, clock, s)
    requires s.VoiceBegins? || s.VoiceEnds? || s.HangsUp? || s.Records? || s.Stops? || s.Pauses? || s.Resumes? || s.Restarts?
    ensures Next(w, clock, s, same).trace == w.trace && w.doNotContact <= Next(w, clock, s, same).doNotContact
  {
    hide StopAllIn, Recorded, Settle;
  }

  /** Every step that can come. */
  lemma NextOk(w: World, clock: int, s: Step, same: (Number, Number) -> bool)
    requires AllOk(w, clock) && CanCome(w, clock, s)
    ensures StepOk(w, Next(w, clock, s, same), Clock(clock, s), same)
  {
    hide AllOk, Kept, StepOk, WorldMoves, Dial, Text, OnEvent, FinishIfDone, End, Create;
    match s
    case LookOverdue(c, at, said) => LookOverdueOk(w, clock, c, at, said, same);
    case LookDial(look) => DialOk(w, clock, look, same);
    case LookText(look) => TextOk(w, clock, look, same);
    case LookFinish(c, at) => FinishOk(w, clock, c, at, false, same);
    case Heard(e, at) => EventOk(w, clock, e, at, same);
    case Creates(kind, times, gap, replyDeadline, numbers, at) => CreateOk(w, clock, kind, times, gap, replyDeadline, numbers, at, same);
    case Ends(c, at) => EndOk(w, clock, c, at, same);
    case _ => RequestOk(w, clock, s, same);
  }

  lemma LookOverdueOk(w: World, clock: int, c: nat, at: int, said: Overheard, same: (Number, Number) -> bool)
    requires AllOk(w, clock) && clock <= at && c < |w.campaigns|
    ensures StepOk(w, Overdue(w, c, at, said), at, same)
  {
    hide Kept, StepOk, WorldMoves, OverdueFirst, TextsOk;
    OverdueKeeps(w, c, |w.campaigns[c].people|, at, said);
    MovingOk(w, Overdue(w, c, at, said), clock, at, same);
  }

  // ---- Every run ----------------------------------------------------------------------------------

  /** What the engine was, step after step, and when. */
  datatype Run = Run(worlds: seq<World>, clocks: seq<int>, steps: seq<Step>)

  ghost predicate IsRun(r: Run, same: (Number, Number) -> bool) {
    && |r.worlds| == |r.steps| + 1 && |r.clocks| == |r.steps| + 1
    && r.worlds[0] == World([], [], None, [])
    && forall i :: 0 <= i < |r.steps| ==>
      && CanCome(r.worlds[i], r.clocks[i], r.steps[i])
      && r.worlds[i + 1] == Next(r.worlds[i], r.clocks[i], r.steps[i], same)
      && r.clocks[i + 1] == Clock(r.clocks[i], r.steps[i])
  }

  lemma BeginsOk(clock: int)
    ensures AllOk(World([], [], None, []), clock)
  {
    var w := World([], [], None, []);
    forall t: int, span: int
      ensures TextedIn(w.trace, t, span) == {}
    {
    }
  }

  lemma {:induction false} RunOk(r: Run, same: (Number, Number) -> bool, i: nat)
    requires IsRun(r, same) && i < |r.worlds|
    ensures |r.clocks| == |r.worlds| && AllOk(r.worlds[i], r.clocks[i])
  {
    hide AllOk, CanCome, Next;
    if i == 0 {
      BeginsOk(r.clocks[0]);
    } else {
      RunOk(r, same, i - 1);
      NextOk(r.worlds[i - 1], r.clocks[i - 1], r.steps[i - 1], same);
      StepIsOk(r.worlds[i - 1], r.worlds[i], r.clocks[i], same);
    }
  }

  lemma RunStep(r: Run, same: (Number, Number) -> bool, i: nat)
    requires IsRun(r, same) && i < |r.steps|
    ensures GoesOn(r.worlds[i], r.worlds[i + 1]) && Fair(r.worlds[i], r.worlds[i + 1], same)
  {
    hide AllOk, CanCome, Next, GoesOn, Fair;
    RunOk(r, same, i);
    NextOk(r.worlds[i], r.clocks[i], r.steps[i], same);
    StepParts(r.worlds[i], r.worlds[i + 1], r.clocks[i + 1], same);
  }

  lemma StepParts(w: World, w': World, clock': int, same: (Number, Number) -> bool)
    requires StepOk(w, w', clock', same)
    ensures GoesOn(w, w') && Fair(w, w', same)
  {
  }

  lemma {:induction false} RunGoesOn(r: Run, same: (Number, Number) -> bool, i: nat, j: nat)
    requires IsRun(r, same) && i <= j < |r.worlds|
    ensures GoesOn(r.worlds[i], r.worlds[j])
    decreases j - i
  {
    hide IsRun, CampaignsGoOn;
    if i == j {
      SameGoesOn(r.worlds[i], r.worlds[i]);
    } else {
      RunGoesOn(r, same, i, j - 1);
      OneOfRun(r, same, j - 1);
      GoesOnJoin(r.worlds[i], r.worlds[j - 1], r.worlds[j]);
    }
  }

  lemma OneOfRun(r: Run, same: (Number, Number) -> bool, i: nat)
    requires IsRun(r, same) && i + 1 < |r.worlds|
    ensures GoesOn(r.worlds[i], r.worlds[i + 1]) && Fair(r.worlds[i], r.worlds[i + 1], same)
  {
    hide GoesOn, Fair, CanCome, Next;
    RunStep(r, same, i);
  }

  /** At any moment, at most one person over all campaigns is being rung or is on a call. */
  lemma OneCallAtATime(r: Run, same: (Number, Number) -> bool, i: nat, c: nat, p: nat, d: nat, q: nat)
    requires IsRun(r, same) && i < |r.worlds| && LiveAt(r.worlds[i], c, p) && LiveAt(r.worlds[i], d, q)
    ensures c == d && p == q
  {
    hide IsRun, PeopleOk, CampaignsOk, TextsOk, ReportedOnce;
    RunOk(r, same, i);
  }

  /** No one is rung more than two times over the retries, and who waits without a failed call is within them. */
  lemma TriesAreBounded(r: Run, same: (Number, Number) -> bool, i: nat, c: nat, p: nat)
    requires IsRun(r, same) && i < |r.worlds| && IsAt(r.worlds[i], c, p) && r.worlds[i].campaigns[c].kind == Calls
    ensures
      var it, who := r.worlds[i].campaigns[c], r.worlds[i].campaigns[c].people[p];
      && who.tries <= it.times + 2
      && ((who.state == Queued || who.state == Waiting) && !who.failed ==> who.tries <= it.times)
      && (who.state == Queued || who.state == Waiting ==> who.tries <= it.times + 1)
  {
    hide IsRun, OneLive, CampaignsOk, TextsOk, ReportedOnce;
    RunOk(r, same, i);
    PersonIsOk(r.worlds[i], c, p);
  }

  /** Who is done, or was skipped, stays so. */
  lemma DoneForGood(r: Run, same: (Number, Number) -> bool, i: nat, j: nat, c: nat, p: nat)
    requires IsRun(r, same) && i <= j < |r.worlds| && IsAt(r.worlds[i], c, p) && Final(r.worlds[i].campaigns[c].people[p].state)
    ensures IsAt(r.worlds[j], c, p) && Final(r.worlds[j].campaigns[c].people[p].state)
  {
    hide IsRun;
    RunGoesOn(r, same, i, j);
    assert CampaignGoesOn(r.worlds[i].campaigns[c], r.worlds[j].campaigns[c]);
    assert PersonGoesOn(r.worlds[i].campaigns[c].kind, r.worlds[i].campaigns[c].people[p], r.worlds[j].campaigns[c].people[p]);
  }

  /** The step in which an entry came. */
  lemma {:induction false} CameIn(r: Run, same: (Number, Number) -> bool, i: nat, j: nat, k: nat) returns (m: nat)
    requires IsRun(r, same) && i <= j < |r.worlds| && |r.worlds[i].trace| <= k < |r.worlds[j].trace|
    ensures i <= m < j && |r.worlds[m].trace| <= k < |r.worlds[m + 1].trace| && r.worlds[m + 1].trace[k] == r.worlds[j].trace[k]
    decreases j - i
  {
    hide IsRun, CampaignsGoOn;
    assert i < j;
    OneOfRun(r, same, j - 1);
    if |r.worlds[j - 1].trace| <= k {
      m := j - 1;
    } else {
      m := CameIn(r, same, i, j - 1, k);
    }
  }

  /** A campaign that is done or stopped stays so, and neither rings nor texts anyone again. */
  lemma OverForGood(r: Run, same: (Number, Number) -> bool, i: nat, j: nat, c: nat, k: nat)
    requires IsRun(r, same) && i <= j < |r.worlds| && c < |r.worlds[i].campaigns|
    requires r.worlds[i].campaigns[c].state == Finished || r.worlds[i].campaigns[c].state == Stopped
    ensures c < |r.worlds[j].campaigns| && r.worlds[j].campaigns[c].state == r.worlds[i].campaigns[c].state
    ensures |r.worlds[i].trace| <= k < |r.worlds[j].trace| ==>
      var e := r.worlds[j].trace[k];
      !(e.Rang? && e.c == c) && !(e.Texted? && e.c == c)
  {
    hide IsRun;
    RunGoesOn(r, same, i, j);
    assert CampaignGoesOn(r.worlds[i].campaigns[c], r.worlds[j].campaigns[c]);
    if |r.worlds[i].trace| <= k < |r.worlds[j].trace| {
      var m := CameIn(r, same, i, j, k);
      RunGoesOn(r, same, i, m);
      assert CampaignGoesOn(r.worlds[i].campaigns[c], r.worlds[m].campaigns[c]);
      OneOfRun(r, same, m);
      assert EntryFair(r.worlds[m], r.worlds[m + 1].trace[k], same);
    }
  }

  /**
   * A campaign's report is made at most once: exactly when it is over. Then no
   * call of it goes on or waits for its result, and everyone is final in one
   * that is done.
   */
  lemma ReportedOnceWhenOver(r: Run, same: (Number, Number) -> bool, i: nat, c: nat)
    requires IsRun(r, same) && i < |r.worlds|
    ensures multiset(r.worlds[i].trace)[Reported(c)] <= 1
    ensures Reported(c) in r.worlds[i].trace <==> c < |r.worlds[i].campaigns| && r.worlds[i].campaigns[c].endedAt.Some?
    ensures Reported(c) in r.worlds[i].trace ==>
      var it := r.worlds[i].campaigns[c];
      (it.state == Finished || it.state == Stopped) && !HasLive(it) && (it.state == Finished ==> AllFinal(it))
    ensures c < |r.worlds[i].campaigns| && r.worlds[i].campaigns[c].state == Finished ==> Reported(c) in r.worlds[i].trace
  {
    hide IsRun, PeopleOk, OneLive, TextsOk;
    RunOk(r, same, i);
    var w := r.worlds[i];
    assert Reported(c) in w.trace <==> multiset(w.trace)[Reported(c)] > 0;
    if c < |w.campaigns| {
      assert CampaignOk(w.campaigns[c]);
    }
  }

  /** Once a number is not to be contacted, no one who is the same as it is rung or texted again (a pretend text apart). */
  lemma NotContacted(r: Run, same: (Number, Number) -> bool, i: nat, j: nat, k: nat)
    requires IsRun(r, same) && i <= j < |r.worlds| && |r.worlds[i].trace| <= k < |r.worlds[j].trace|
    ensures r.worlds[i].doNotContact <= r.worlds[j].doNotContact
    ensures
      var e := r.worlds[j].trace[k];
      && (e.Rang? ==> !Listed(r.worlds[i].doNotContact, e.number, same))
      && (e.Texted? ==> e.number == TEST || !Listed(r.worlds[i].doNotContact, e.number, same))
  {
    hide IsRun, CampaignsGoOn;
    RunGoesOn(r, same, i, j);
    var m := CameIn(r, same, i, j, k);
    RunGoesOn(r, same, i, m);
    OneOfRun(r, same, m);
    assert EntryFair(r.worlds[m], r.worlds[m + 1].trace[k], same);
    var e := r.worlds[j].trace[k];
    if (e.Rang? || e.Texted?) && Listed(r.worlds[i].doNotContact, e.number, same) {
      StillListed(r.worlds[i].doNotContact, r.worlds[m].doNotContact, e.number, same);
    }
  }

  lemma StillListed(list: seq<Number>, list': seq<Number>, number: Number, same: (Number, Number) -> bool)
    requires list <= list' && Listed(list, number, same)
    ensures Listed(list', number, same)
  {
    var i :| 0 <= i < |list| && same(list[i], number);
    assert list'[i] == list[i];
  }

  /** The texts sent to one person. */
  ghost function TextsTo(trace: seq<Entry>, c: nat, p: nat): set<nat> {
    set i: nat | i < |trace| && trace[i].Texted? && trace[i].c == c && trace[i].p == p
  }

  /**
   * The texts of every run: two to a person at most, the second under another
   * id and after the first was said not to have gone; twenty seconds apart;
   * and in any hour no more than 40 people and 80 texts, in any day no more
   * than 200 people.
   */
  lemma TextsArePaced(r: Run, same: (Number, Number) -> bool, i: nat, c: nat, p: nat, t: int)
    requires IsRun(r, same) && i < |r.worlds|
    ensures
      var trace := r.worlds[i].trace;
      && SecondsAfterFailure(trace) && IdsOnce(trace) && GapsKept(trace)
      && |TextsTo(trace, c, p)| <= 2
      && |TextedIn(trace, t, HOUR)| <= 40 && |SentIn(trace, t, HOUR)| <= 80
      && |TextedIn(trace, t, DAY)| <= 200
  {
    hide IsRun, Kept, ReportedOnce, AllSentOk, AttemptsOk, SecondsAfterFailure, IdsOnce, GapsKept;
    RunOk(r, same, i);
    var w := r.worlds[i];
    AtMostTwiceAsMany(w, r.clocks[i], t, HOUR);
    AtMostTwo(w, r.clocks[i], c, p);
    assert PaceKept(w.trace, HOUR, TEXTS_PER_HOUR) && PaceKept(w.trace, DAY, TEXTS_PER_DAY);
  }

  lemma AtMostTwo(w: World, clock: int, c: nat, p: nat)
    requires TextsOk(w, clock)
    ensures |TextsTo(w.trace, c, p)| <= 2
  {
    hide PaceKept, GapsKept, AttemptsOk;
    var sent := TextsTo(w.trace, c, p);
    forall i | i in sent
      ensures w.trace[i].n in {1, 2}
    {
      assert SentOk(w, clock, w.trace[i]);
    }
    OneEach(w.trace, c, p, sent, {1, 2});
  }

  lemma {:induction false} OneEach(trace: seq<Entry>, c: nat, p: nat, sent: set<nat>, ids: set<nat>)
    requires IdsOnce(trace) && sent <= TextsTo(trace, c, p)
    requires forall i :: i in sent ==> trace[i].n in ids
    ensures |sent| <= |ids|
    decreases sent
  {
    if sent != {} {
      var i :| i in sent;
      forall j | j in sent - {i}
        ensures trace[j].n in ids - {trace[i].n}
      {
        assert i < j || j < i;
      }
      OneEach(trace, c, p, sent - {i}, ids - {trace[i].n});
    }
  }

  // ---- An event out of order ------------------------------------------------------------------------------

  /**
   * What is kept survives a ringing call's event exactly when it does not put
   * back on the phone someone whose call's end was heard (the guard looks at
   * their state, and they may be waiting for the next try by then).
   */
  lemma LateRinging(w: World, call: Id, to: PersonState)
    requires Kept(w) && (to == Ringing || to == OnCall)
    ensures Kept(OnRing(w, call, to)) <==> !Revives(w, call)
    ensures OneLive(OnRing(w, call, to)) <==> !(Revives(w, call) && Busy(w))
  {
    if !Revives(w, call) {
      RingKeeps(w, call, to);
    } else {
      var (c, p) := ByAttempt(w, ByCall(call)).value;
      var w' := OnRing(w, call, to);
      var who := w.campaigns[c].people[p];
      PersonIsOk(w, c, p);
      RevivedIsLive(w, c, p, to);
      assert LiveAt(w', c, p);
      if Kept(w') {
        PersonIsOk(w', c, p);
      }
      RevivedOneLive(w, c, p, who.(state := to));
    }
  }

  lemma RevivedIsLive(w: World, c: nat, p: nat, to: PersonState)
    requires IsAt(w, c, p) && PersonOk(c, w.campaigns[c], p) && w.campaigns[c].people[p].attempt.Some?
    requires w.campaigns[c].people[p].attempt.value.ended.Some?
    ensures w.campaigns[c].kind == Calls && !Live(w.campaigns[c].people[p].state)
  {
  }

  lemma RevivedOneLive(w: World, c: nat, p: nat, q: Person)
    requires OneLive(w) && IsAt(w, c, p) && w.campaigns[c].kind == Calls && !Live(w.campaigns[c].people[p].state) && Live(q.state)
    ensures OneLive(SetPerson(w, c, p, q)) <==> !Busy(w)
  {
    var w' := SetPerson(w, c, p, q);
    if Busy(w) {
      var d: nat, j: nat :| IsAt(w, d, j) && w.campaigns[d].kind == Calls && Live(w.campaigns[d].people[j].state);
      assert LiveAt(w', d, j) && LiveAt(w', c, p);
    } else {
      ChangeOneLive(w, c, p, q);
    }
  }

  // ---- Two runs ---------------------------------------------------------------------------------------------

  lemma {:induction false} FirstDue(w: World, from: nat, p: nat, now: int)
    requires |w.campaigns| > 0 && from <= p < |w.campaigns[0].people| && IsDue(w.campaigns[0].kind, w.campaigns[0].people[p], now)
    requires forall i :: from <= i < p ==> !IsDue(w.campaigns[0].kind, w.campaigns[0].people[i], now)
    ensures DueIn(w, 0, from, now) != [] && DueIn(w, 0, from, now)[0] == (0, p)
    decreases p - from
  {
    if from < p {
      FirstDue(w, from + 1, p, now);
    }
  }

  predicate MayDial(w: World, p: nat, look: DialLook) {
    && |w.campaigns| == 1 && w.campaigns[0].kind == Calls && w.campaigns[0].state == Running && w.doNotContact == [] && w.dials.None?
    && p < |w.campaigns[0].people| && IsDue(Calls, w.campaigns[0].people[p], look.now)
    && (forall i :: 0 <= i < p ==> !IsDue(Calls, w.campaigns[0].people[i], look.now))
    && (forall i :: 0 <= i < |w.campaigns[0].people| ==> !Live(w.campaigns[0].people[i].state))
    && look.phone && look.lineFree && !look.callbackFirst && look.outbound == None && look.route == Some(true)
    && look.inHours(0) && !look.barred(w.campaigns[0].people[p].number)
  }

  lemma DialsFirst(w: World, p: nat, look: DialLook, same: (Number, Number) -> bool)
    requires MayDial(w, p, look)
    ensures Dial(w, look, same) == Place(w, 0, p, look)
  {
    hide Place;
    var slot := Slot(0, 0, At(w.campaigns[0].createdAt));
    assert RunningSlots(w, Calls, 1) == [];
    assert RunningSlots(w, Calls, 0) == [slot];
    assert StableSort([slot]) == [slot];
    assert LanesOf([slot]) == [0];
    FirstDue(w, 0, p, look.now);
    assert DueOf(w, [0], look.now) == DueIn(w, 0, 0, look.now) + DueOf(w, [], look.now);
    assert !Busy(w);
  }

  function LookAt(now: int, call: Id): DialLook {
    DialLook(now, 0, true, true, false, None, Some(true), _ => true, _ => false, Dialled(Some(call), None, None))
  }

  /** A person rung at `now`, the phone having taken the dial. */
  function RungAs(who: Person, call: Id, now: int): Person {
    who.(state := Dialling, tries := who.tries + 1,
      attempt := Some(Attempt(who.tries + 1, now, Some(call), None, None, None, None, false, false, false, None, None, false)))
  }

  /** One campaign of calls, running, and these people. */
  predicate Has(w: World, times: nat, gap: nat, people: seq<Person>) {
    && w.campaigns == [Campaign(Calls, times, gap, 0, Running, 0, 1, 1, None, people)]
    && w.doNotContact == [] && w.dials == None
  }

  lemma CreatesAs(times: nat, gap: nat, numbers: seq<Number>)
    ensures Has(Create(World([], [], None, []), Calls, times, gap, 0, numbers, 1), times, gap, NewPeople(numbers))
  {
  }

  lemma DialsAs(w: World, times: nat, gap: nat, people: seq<Person>, p: nat, now: int, call: Id, same: (Number, Number) -> bool)
    requires Has(w, times, gap, people) && MayDial(w, p, LookAt(now, call))
    ensures Has(Dial(w, LookAt(now, call), same), times, gap, people[p := RungAs(people[p], call, now)])
  {
    DialsFirst(w, p, LookAt(now, call), same);
  }

  lemma EndsAs(w: World, times: nat, gap: nat, people: seq<Person>, call: Id, end: EndOfCall, now: int, to: Person)
    requires Has(w, times, gap, people) && people != [] && people[0].attempt.Some? && !Final(people[0].state)
    requires people[0].attempt.value.callId == Some(call) && people[0].attempt.value.ended.None?
    requires
      var who := people[0].(attempt := Some(people[0].attempt.value.(ended := Some(end))));
      var it := Campaign(Calls, times, gap, 0, Running, 0, 1, 1, None, people[0 := who]);
      SettleCall(it, 0, now) == it.(people := people[0 := to])
    ensures Has(OnEnded(w, call, end, now), times, gap, people[0 := to])
  {
    hide SettleCall;
    FindsFirst(w, ByCall(call), 0, 0);
  }

  lemma {:induction false} FindsFirst(w: World, key: Key, from: nat, p: nat)
    requires |w.campaigns| == 1 && from <= p < |w.campaigns[0].people| && IsHit(w, 0, p, key)
    requires forall i: nat :: from <= i < p ==> !IsHit(w, 0, i, key)
    ensures FindFrom(w, key, 0, from) == Some((0, p))
    decreases p - from
  {
    if from < p {
      FindsFirst(w, key, from + 1, p);
    }
  }

  /**
   * The bound on tries is reached: with no retries, a first call that fails is
   * followed by a second.
   */
  lemma TwoTriesOverTheRetries(same: (Number, Number) -> bool) returns (r: Run)
    ensures IsRun(r, same) && |r.worlds| == 5
    ensures |r.worlds[4].campaigns| == 1 && |r.worlds[4].campaigns[0].people| == 1
    ensures r.worlds[4].campaigns[0].kind == Calls && r.worlds[4].campaigns[0].times == 0
    ensures r.worlds[4].campaigns[0].people[0].tries == 2
  {
    hide Create, Dial, OnEnded, MayDial, IsRun;
    var w0 := World([], [], None, []);
    var w1 := Create(w0, Calls, 0, 0, 0, ["a"], 1);
    var p1 := NewPerson("a");
    CreatesAs(0, 0, ["a"]);
    assert NewPeople(["a"]) == [p1];
    var w2, p2 := Dial(w1, LookAt(1, "x"), same), RungAs(p1, "x", 1);
    FirstMayDial(w1, 0, 0, [p1], 1, "x");
    DialsAs(w1, 0, 0, [p1], 0, 1, "x", same);
    assert [p1][0 := p2] == [p2];
    var end := EndOfCall(CallFailed, OtherReason, 1);
    var p3 := p2.(failed := true, state := Waiting, nextAt := 1 + Minutes(5), attempt := Some(p2.attempt.value.(ended := Some(end))));
    var w3 := OnEnded(w2, "x", end, 1);
    EndsAs(w2, 0, 0, [p2], "x", end, 1, p3);
    assert [p2][0 := p3] == [p3];
    var w4 := Dial(w3, LookAt(300_001, "y"), same);
    FirstMayDial(w3, 0, 0, [p3], 300_001, "y");
    DialsAs(w3, 0, 0, [p3], 0, 300_001, "y", same);
    r := Run4(w1, w2, w3, w4, 300_001, Creates(Calls, 0, 0, 0, ["a"], 1), LookDial(LookAt(1, "x")),
              Heard(CallEnded("x", CallFailed, OtherReason), 1), LookDial(LookAt(300_001, "y")), same);
  }

  lemma FirstMayDial(w: World, times: nat, gap: nat, people: seq<Person>, now: int, call: Id)
    requires Has(w, times, gap, people) && people != [] && IsDue(Calls, people[0], now)
    requires forall i :: 0 <= i < |people| ==> !Live(people[i].state)
    ensures MayDial(w, 0, LookAt(now, call))
  {
  }

  lemma SecondMayDial(w: World, times: nat, gap: nat, people: seq<Person>, now: int, call: Id)
    requires Has(w, times, gap, people) && |people| == 2 && !IsDue(Calls, people[0], now) && IsDue(Calls, people[1], now)
    requires forall i :: 0 <= i < |people| ==> !Live(people[i].state)
    ensures MayDial(w, 1, LookAt(now, call))
  {
  }

  lemma Run4(w1: World, w2: World, w3: World, w4: World, last: int, s1: Step, s2: Step, s3: Step, s4: Step, same: (Number, Number) -> bool)
    returns (r: Run)
    requires last >= 1 && s1.Creates? && s1.at == 1 && s2.LookDial? && s2.dial.now == 1
    requires s3.Heard? && s3.event.CallEnded? && s3.at == 1 && s4.LookDial? && s4.dial.now == last
    requires w1 == Create(World([], [], None, []), s1.kind, s1.times, s1.gap, s1.replyDeadline, s1.numbers, 1)
    requires w2 == Dial(w1, s2.dial, same) && w4 == Dial(w3, s4.dial, same)
    requires w3 == OnEnded(w2, s3.event.call, EndOfCall(s3.event.outcome, s3.event.reason, 1), 1)
    ensures r == Run([World([], [], None, []), w1, w2, w3, w4], [0, 1, 1, 1, last], [s1, s2, s3, s4]) && IsRun(r, same)
  {
    hide Create, Dial, OnEnded, IsRun;
    r := Run([World([], [], None, []), w1, w2, w3, w4], [0, 1, 1, 1, last], [s1, s2, s3, s4]);
    IsRunOf4(r, same);
  }

  lemma IsRunOf4(r: Run, same: (Number, Number) -> bool)
    requires |r.steps| == 4 && |r.worlds| == 5 && |r.clocks| == 5 && r.worlds[0] == World([], [], None, [])
    requires Follows(r, same, 0) && Follows(r, same, 1) && Follows(r, same, 2) && Follows(r, same, 3)
    ensures IsRun(r, same)
  {
    hide CanCome, Next;
    forall i: nat | i < 4
      ensures Follows(r, same, i)
    {
      assert i == 0 || i == 1 || i == 2 || i == 3;
    }
  }

  ghost predicate Follows(r: Run, same: (Number, Number) -> bool, i: nat)
    requires |r.worlds| == |r.steps| + 1 && |r.clocks| == |r.steps| + 1 && i < |r.steps|
  {
    && CanCome(r.worlds[i], r.clocks[i], r.steps[i])
    && r.worlds[i + 1] == Next(r.worlds[i], r.clocks[i], r.steps[i], same)
    && r.clocks[i + 1] == Clock(r.clocks[i], r.steps[i])
  }

  /**
   * A ringing event that comes after its call's end puts two people on the
   * phone at once: the first rung waits for another try, the second is rung,
   * and then the first is taken to ring again.
   */
  lemma LateRingingExample(same: (Number, Number) -> bool) returns (r: Run)
    ensures IsRun(r, same) && |r.worlds| == 5
    ensures Revives(r.worlds[4], "x")
    ensures LiveAt(OnRing(r.worlds[4], "x", Ringing), 0, 0) && LiveAt(OnRing(r.worlds[4], "x", Ringing), 0, 1)
  {
    hide Create, Dial, OnEnded, MayDial, IsRun, Revives, OnRing;
    var w0 := World([], [], None, []);
    var w1 := Create(w0, Calls, 1, 1, 0, ["a", "b"], 1);
    var a1, b1 := NewPerson("a"), NewPerson("b");
    CreatesAs(1, 1, ["a", "b"]);
    assert NewPeople(["a", "b"]) == [a1, b1];
    var w2, a2 := Dial(w1, LookAt(1, "x"), same), RungAs(a1, "x", 1);
    FirstMayDial(w1, 1, 1, [a1, b1], 1, "x");
    DialsAs(w1, 1, 1, [a1, b1], 0, 1, "x", same);
    assert [a1, b1][0 := a2] == [a2, b1];
    var end := EndOfCall(CallNotAnswered, OtherReason, 1);
    var a3 := a2.(state := Waiting, nextAt := 1 + Minutes(1), attempt := Some(a2.attempt.value.(ended := Some(end))));
    var w3 := OnEnded(w2, "x", end, 1);
    NotAnsweredSettles([a2, b1], end, a3);
    EndsAs(w2, 1, 1, [a2, b1], "x", end, 1, a3);
    assert [a2, b1][0 := a3] == [a3, b1];
    var w4, b4 := Dial(w3, LookAt(2, "y"), same), RungAs(b1, "y", 2);
    SecondMayDial(w3, 1, 1, [a3, b1], 2, "y");
    DialsAs(w3, 1, 1, [a3, b1], 1, 2, "y", same);
    assert [a3, b1][1 := b4] == [a3, b4];
    TwoOnThePhone(w4, a3, b4);
    r := Run4(w1, w2, w3, w4, 2, Creates(Calls, 1, 1, 0, ["a", "b"], 1), LookDial(LookAt(1, "x")),
              Heard(CallEnded("x", CallNotAnswered, OtherReason), 1), LookDial(LookAt(2, "y")), same);
  }

  lemma NotAnsweredSettles(people: seq<Person>, end: EndOfCall, to: Person)
    requires |people| == 2 && people[0].attempt.Some? && people[0].tries == 1 && people[0].outcome == None
    requires end == EndOfCall(CallNotAnswered, OtherReason, 1)
    requires to == people[0].(state := Waiting, nextAt := 1 + Minutes(1), attempt := Some(people[0].attempt.value.(ended := Some(end))))
    ensures
      var who := people[0].(attempt := Some(people[0].attempt.value.(ended := Some(end))));
      var it := Campaign(Calls, 1, 1, 0, Running, 0, 1, 1, None, people[0 := who]);
      SettleCall(it, 0, 1) == it.(people := people[0 := to])
  {
    hide ApplyResult, GiveBack;
  }

  lemma TwoOnThePhone(w: World, a: Person, b: Person)
    requires Has(w, 1, 1, [a, b]) && a.attempt.Some? && a.attempt.value.callId == Some("x") && a.attempt.value.ended.Some?
    requires a.state == Waiting && b.state == Dialling
    ensures Revives(w, "x") && LiveAt(OnRing(w, "x", Ringing), 0, 0) && LiveAt(OnRing(w, "x", Ringing), 0, 1)
  {
    FindsFirst(w, ByCall("x"), 0, 0);
  }
}
