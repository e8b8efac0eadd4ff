/**
 * Call backs and outreach on one phone (app/src/main.ts:1383,
 * app/src/outreach.ts:984-1001, app/src/callbacks.ts:236-286): each looks at
 * the other before it dials, and a call back ringing and an outreach dial are
 * never live together.
 */
module SharedLine {
  import opened Options
  import opened Subsequences
  import opened Outreach
  import opened OutreachKept
  import opened OutreachContacts
  import opened OutreachTexts
  import opened OutreachRuns
  import C = Callbacks

  // ---- Only a dial makes outreach busy -------------------------------------------------------------

  lemma MovesNotBusier(w: World, w': World)
    requires WorldMoves(w, w') && !Busy(w)
    ensures !Busy(w')
  {
    forall c: nat, p: nat | IsAt(w', c, p) && w'.campaigns[c].kind == Calls
      ensures !Live(w'.campaigns[c].people[p].state)
    {
      assert CampaignMoves(w.campaigns[c], w'.campaigns[c]);
      assert PersonMoves(w.campaigns[c].kind, w.campaigns[c].people[p], w'.campaigns[c].people[p]);
      assert IsAt(w, c, p);
    }
  }

  /** The people of call campaigns are as they were. */
  ghost predicate CallsSame(w: World, w': World) {
    && |w.campaigns| <= |w'.campaigns|
    && (forall c :: 0 <= c < |w.campaigns| ==>
          w'.campaigns[c].kind == w.campaigns[c].kind && (w.campaigns[c].kind == Calls ==> w'.campaigns[c].people == w.campaigns[c].people))
    && (forall c, p :: |w.campaigns| <= c < |w'.campaigns| && 0 <= p < |w'.campaigns[c].people| ==> !Live(w'.campaigns[c].people[p].state))
  }

  lemma SameNotBusier(w: World, w': World)
    requires CallsSame(w, w') && !Busy(w)
    ensures !Busy(w')
  {
    forall c: nat, p: nat | IsAt(w', c, p) && w'.campaigns[c].kind == Calls
      ensures !Live(w'.campaigns[c].people[p].state)
    {
      if c < |w.campaigns| {
        assert IsAt(w, c, p);
      }
    }
  }

  lemma {:induction false} TextDueCalls(w: World, due: seq<(nat, nat)>, look: TextLook, same: (Number, Number) -> bool)
    requires DueThere(w, due) && forall i :: 0 <= i < |due| ==> w.campaigns[due[i].0].kind == Texts
    ensures CallsSame(w, TextDue(w, due, look, same))
    decreases |due|
  {
    hide Settle, SentEntries;
    if due != [] {
      var (c, p) := due[0];
      var who := w.campaigns[c].people[p];
      if !look.inHours(c) {
        TextDueCalls(w, due[1..], look, same);
      } else if who.number != TEST && (look.barred(who.number) || Listed(w.doNotContact, who.number, same)) {
        TextDueCalls(LeaveOut(w, c, p, look.now), due[1..], look, same);
      } else {
        SendSets(w, c, p, look);
      }
    }
  }

  lemma TextCalls(w: World, look: TextLook, same: (Number, Number) -> bool)
    ensures CallsSame(w, Text(w, look, same))
  {
    hide MayText, TextDue, DueOf, RunningByAge;
    var running := RunningByAge(w, Texts);
    RunningAreThere(w, Texts);
    var due := DueOf(w, running, look.now);
    DueAreThere(w, Texts, running, look.now);
    TextDueCalls(w, due, look, same);
  }

  lemma FinishCalls(w: World, c: nat, now: int, force: bool)
    requires c < |w.campaigns|
    ensures CallsSame(w, FinishIfDone(w, c, now, force))
  {
  }

  lemma CreateCalls(w: World, kind: Kind, times: nat, gap: nat, replyDeadline: int, numbers: seq<Number>, now: int)
    ensures CallsSame(w, Create(w, kind, times, gap, replyDeadline, numbers, now))
  {
  }

  lemma LostNotBusier(w: World, m: MessageId, unknown: bool, now: int)
    requires Kept(w) && !Busy(w)
    ensures !Busy(OnTextLost(w, m, unknown, now))
  {
    hide Kept, Busy, WorldMoves;
    var hit := ByAttempt(w, ByMessage(m));
    if unknown {
      TextInDoubtKeeps(w, m, now);
      MovesNotBusier(w, OnTextLost(w, m, true, now));
    } else if hit.Some? {
      MessageIsText(w, m, hit.value.0, hit.value.1);
      FailCalls(w, hit.value.0, hit.value.1, now);
      SameNotBusier(w, TextDidFail(w, hit.value.0, hit.value.1, now));
    }
  }

  lemma FailCalls(w: World, c: nat, p: nat, now: int)
    requires IsAt(w, c, p) && w.campaigns[c].people[p].attempt.Some? && w.campaigns[c].kind == Texts
    ensures CallsSame(w, TextDidFail(w, c, p, now))
  {
  }

  lemma EventNotBusier(w: World, e: Event, now: int)
    requires Kept(w) && !Busy(w) && !OutOfOrder(w, e)
    ensures !Busy(OnEvent(w, e, now))
  {
    hide Kept, Busy, WorldMoves, Revives, OnRing, OnEnded, OnDialFailed, OnTextSent, OnTextLost;
    match e
    case CallDialling(_) =>
    case TextRefused(_) =>
    case CallRinging(call) => RingKeeps(w, call, Ringing); MovesNotBusier(w, OnRing(w, call, Ringing));
    case CallAnswered(call) => RingKeeps(w, call, OnCall); MovesNotBusier(w, OnRing(w, call, OnCall));
    case CallEnded(call, outcome, reason) =>
      EndedKeeps(w, call, EndOfCall(outcome, reason, now), now);
      MovesNotBusier(w, OnEnded(w, call, EndOfCall(outcome, reason, now), now));
    case DialFailed(operation) => DialFailedKeeps(w, operation, now); MovesNotBusier(w, OnDialFailed(w, operation, now));
    case TextSent(m) => TextSentKeeps(w, m, now); MovesNotBusier(w, OnTextSent(w, m, now));
    case TextLost(m, unknown) => LostNotBusier(w, m, unknown, now);
  }

  lemma EndNotBusier(w: World, c: nat, now: int)
    requires Kept(w) && !Busy(w) && c < |w.campaigns|
    ensures !Busy(End(w, c, now))
  {
    hide Kept, Busy, WorldMoves, FinishIfDone;
    var it := w.campaigns[c];
    if it.state != Finished && it.state != Stopped {
      var w1 := SetCampaign(w, c, it.(people := EndPeople(it.people, now), state := Stopped));
      StoppingKeeps(w, c, now);
      MovesNotBusier(w, w1);
      FinishCalls(w1, c, now, true);
      SameNotBusier(w1, FinishIfDone(w1, c, now, true));
    }
  }

  lemma RequestNotBusier(w: World, clock: int, s: Step, same: (Number, Number) -> bool)
    requires Kept(w) && !Busy(w) && CanCome(w, clock, s)
    requires s.VoiceBegins? || s.VoiceEnds? || s.HangsUp? || s.Records? || s.Stops? || s.Pauses? || s.Resumes? || s.Restarts?
    ensures !Busy(Next(w, clock, s, same))
  {
    hide Kept, Busy, WorldMoves, ForCall, VoiceEnded, HangingUp, Record, StopWord, Pause, Resume;
    match s {
    case VoiceBegins(call, number) => ForCallKeeps(w, call, number, same);
    case VoiceEnds(c, p, at) => VoiceEndedKeeps(w, c, p, at);
    case HangsUp(c, p) => HangingUpKeeps(w, c, p);
    case Records(c, p, outcome, callBackAt, kept, at) => RecordKeeps(w, c, p, outcome, callBackAt, kept, at, same);
    case Stops(number, kept, at) => StopKeeps(w, number, kept, at, same);
    case Pauses(c) => PauseKeeps(w, c);
    case Resumes(c, byAgent, at) => ResumeKeeps(w, c, byAgent, at);
    case Restarts => ListingMoves(w);
    }
    MovesNotBusier(w, Next(w, clock, s, same));
  }

  /** No step but a dial that looks for no call back makes outreach busy. */
  lemma NextNotBusier(w: World, clock: int, s: Step, same: (Number, Number) -> bool)
    requires Kept(w) && !Busy(w) && CanCome(w, clock, s) && (s.LookDial? ==> s.dial.callbackFirst)
    ensures !Busy(Next(w, clock, s, same))
  {
    hide Kept, Busy, WorldMoves, Text, OnEvent, FinishIfDone, End, Create, OverdueFirst, RunningByAge, DueOf, DialDue, PauseAll;
    match s
    case LookDial(look) => RunningAreThere(w, Calls); DueAreThere(w, Calls, RunningByAge(w, Calls), look.now);
    case LookOverdue(c, at, said) => OverdueKeeps(w, c, |w.campaigns[c].people|, at, said); MovesNotBusier(w, Overdue(w, c, at, said));
    case LookText(look) => TextCalls(w, look, same); SameNotBusier(w, Text(w, look, same));
    case LookFinish(c, at) => FinishCalls(w, c, at, false); SameNotBusier(w, FinishIfDone(w, c, at, false));
    case Heard(e, at) => EventNotBusier(w, e, at);
    case Creates(kind, times, gap, replyDeadline, numbers, at) =>
      CreateCalls(w, kind, times, gap, replyDeadline, numbers, at);
      SameNotBusier(w, Create(w, kind, times, gap, replyDeadline, numbers, at));
    case Ends(c, at) => EndNotBusier(w, c, at);
    case _ => RequestNotBusier(w, clock, s, same);
  }

  // ---- Only a look when it is free makes a call back ring ---------------------------------------------

  lemma SavedRings(list: seq<C.Callback>)
    ensures C.Ringing(C.Saved(list)) ==> C.Ringing(list)
  {
    C.OpenHas(list);
    hide C.Open, C.Settled;
    var saved := C.Saved(list);
    if C.Ringing(saved) {
      var i :| 0 <= i < |saved| && saved[i].state == C.Calling;
      assert saved[i] in C.Open(list);
    }
  }

  lemma ChangedRings(list: seq<C.Callback>, i: nat, c: C.Callback)
    requires i < |list| && (c.state == C.Calling ==> list[i].state == C.Calling)
    ensures C.Ringing(list[i := c]) ==> C.Ringing(list)
  {
  }

  lemma MissedRings(list: seq<C.Callback>, number: Number, at: int, queued: bool, same: (Number, Number) -> bool)
    ensures C.Ringing(C.Missed(list, number, at, queued, same)) ==> C.Ringing(list)
  {
    hide C.Saved;
    var open := C.Find(list, number, false, same, 0);
    if open.None? {
      SavedRings(list + [C.Callback(number, at, 0, at + C.FIRST_WAIT, C.Waiting, queued)]);
    } else {
      var c := list[open.value];
      var soon := if c.state == C.Waiting && at + C.FIRST_WAIT < c.nextAt then at + C.FIRST_WAIT else c.nextAt;
      var to := c.(missedAt := at, queued := c.queued || queued, nextAt := soon);
      ChangedRings(list, open.value, to);
      SavedRings(list[open.value := to]);
    }
  }

  lemma SettleRings(list: seq<C.Callback>, number: Number, same: (Number, Number) -> bool)
    ensures C.Ringing(C.Settle(list, number, same)) ==> C.Ringing(list)
  {
    hide C.Saved;
    var all := C.SettleAll(list, number, same);
    SavedRings(all);
    if C.Ringing(all) {
      var i :| 0 <= i < |all| && all[i].state == C.Calling;
      assert list[i].state == C.Calling;
    }
  }

  lemma RangRings(list: seq<C.Callback>, number: Number, answered: bool, now: int, same: (Number, Number) -> bool)
    ensures C.Ringing(C.Rang(list, number, answered, now, same)) ==> C.Ringing(list)
  {
    hide C.Saved;
    var c := C.Find(list, number, true, same, 0);
    if c.Some? {
      ChangedRings(list, c.value, C.Rang1(list[c.value], answered, now));
      SavedRings(list[c.value := C.Rang1(list[c.value], answered, now)]);
    }
  }

  lemma NextRings(list: seq<C.Callback>, s: C.Step, same: (Number, Number) -> bool)
    requires s.Looks? ==> !s.look.free
    ensures C.Ringing(C.Next(list, s, same)) ==> C.Ringing(list)
  {
    hide C.Missed, C.Settle, C.Rang;
    match s
    case Misses(number, at, queued) => MissedRings(list, number, at, queued, same);
    case Settles(number) => SettleRings(list, number, same);
    case Rings(number, answered, at) => RangRings(list, number, answered, at, same);
    case Looks(look) =>
      var lost := C.Lost(list, look.now, 0);
      if lost.Some? {
        RangRings(list, list[lost.value].number, false, look.now, same);
      }
  }

  // ---- Together ----------------------------------------------------------------------------------------------

  datatype Phone = Phone(world: World, clock: int, list: seq<C.Callback>)
  datatype Move = OfOutreach(step: Step) | OfCallbacks(back: C.Step)

  /** Each looks at the other first: a call back ringing goes before a dial, and none is made while outreach is busy. */
  ghost predicate MayMove(p: Phone, m: Move, same: (Number, Number) -> bool) {
    match m
    case OfOutreach(s) => CanCome(p.world, p.clock, s) && (s.LookDial? && C.Ringing(p.list) ==> s.dial.callbackFirst)
    case OfCallbacks(s) => s.Looks? && s.look.free ==> !Busy(p.world)
  }

  ghost function Moved(p: Phone, m: Move, same: (Number, Number) -> bool): Phone
    requires MayMove(p, m, same)
  {
    match m
    case OfOutreach(s) => p.(world := Next(p.world, p.clock, s, same), clock := Clock(p.clock, s))
    case OfCallbacks(s) => p.(list := C.Next(p.list, s, same))
  }

  ghost predicate NotBoth(p: Phone) {
    AllOk(p.world, p.clock) && !(Busy(p.world) && C.Ringing(p.list))
  }

  lemma MovedNotBoth(p: Phone, m: Move, same: (Number, Number) -> bool)
    requires NotBoth(p) && MayMove(p, m, same)
    ensures NotBoth(Moved(p, m, same))
  {
    hide AllOk, Busy, C.Ringing, CanCome, Next, C.Next;
    match m
    case OfOutreach(s) =>
      NextOk(p.world, p.clock, s, same);
      StepIsOk(p.world, Next(p.world, p.clock, s, same), Clock(p.clock, s), same);
      if !Busy(p.world) && C.Ringing(p.list) {
        KeptOf(p.world, p.clock);
        NextNotBusier(p.world, p.clock, s, same);
      }
    case OfCallbacks(s) =>
      if Busy(p.world) {
        NextRings(p.list, s, same);
      }
  }

  datatype Run = Run(phones: seq<Phone>, moves: seq<Move>)

  ghost predicate IsRunOfBoth(r: Run, same: (Number, Number) -> bool) {
    && |r.phones| == |r.moves| + 1
    && r.phones[0].world == World([], [], None, []) && r.phones[0].list == []
    && forall i :: 0 <= i < |r.moves| ==> MayMove(r.phones[i], r.moves[i], same) && r.phones[i + 1] == Moved(r.phones[i], r.moves[i], same)
  }

  /** In every run, a call back ringing and an outreach call are never live together. */
  lemma {:induction false} NeverBoth(r: Run, same: (Number, Number) -> bool, i: nat)
    requires IsRunOfBoth(r, same) && i < |r.phones|
    ensures NotBoth(r.phones[i])
  {
    hide NotBoth, MayMove, Moved;
    if i == 0 {
      BeginsOk(r.phones[0].clock);
      FirstNotBoth(r.phones[0]);
    } else {
      NeverBoth(r, same, i - 1);
      MovedNotBoth(r.phones[i - 1], r.moves[i - 1], same);
    }
  }

  lemma FirstNotBoth(p: Phone)
    requires p.world == World([], [], None, []) && p.list == [] && AllOk(p.world, p.clock)
    ensures NotBoth(p)
  {
    hide AllOk;
  }
}
