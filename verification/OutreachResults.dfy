/**
 * What a recorded result, a wait too long, a stop word and the person's stopping
 * a campaign make of its people (app/src/outreach.ts:885-968, 1395-1407,
 * 1517-1541, 1552-1640).
 */
module OutreachResults {
  import opened Options
  import opened Outreach
  import opened OutreachOutcomes

  // ---- A result is recorded ------------------------------------------------------------------------

  /** What an agent may record: of a call, besides, that they asked to be rung back and that their voicemail answered. */
  predicate IsResult(kind: Kind, o: Outcome) {
    match o
    case Completed => true
    case Partial => true
    case Declined => true
    case WrongNumber => true
    case OptedOut => true
    case CallbackRequested => kind == Calls
    case Voicemail => kind == Calls
    case _ => false
  }

  /** A person with this result noted, and when to ring back, if they said. */
  function Noted(who: Person, o: Outcome, callBackAt: Option<int>): Person {
    who.(outcome := Some(o), callBackAt := if o == CallbackRequested && callBackAt.Some? then callBackAt else who.callBackAt,
         attempt := if who.attempt.Some? then Some(who.attempt.value.(recorded := true)) else None)
  }

  /** What is recorded of someone done with replaces their outcome; of a text, is their outcome; of a call over, settles them; else it is noted until their call is. */
  ghost predicate RecordedTo(it: Campaign, who: Person, o: Outcome, callBackAt: Option<int>, now: int, to: Person) {
    var noted := Noted(who, o, callBackAt);
    if who.state == Done then to == who.(outcome := Some(o), late := true, callBackAt := noted.callBackAt)
    else if it.kind == Texts || (who.attempt.None? && (who.state == Queued || who.state == Waiting)) then
      to == noted.(state := Done, doneAt := Some(now))
    else if who.state == Ended then SettledBy(it, noted, noted.attempt, now, to)
    else to == noted
  }

  /** The number on no list of those not to be contacted. */
  predicate NotListed(w: World, number: Number, same: (Number, Number) -> bool) {
    forall i :: 0 <= i < |w.doNotContact| ==> !same(w.doNotContact[i], number)
  }

  /** No one else is touched; and who opted out, but for the pretend number, is listed, once. */
  lemma RecordsResult(w: World, c: nat, p: nat, o: Outcome, callBackAt: Option<int>, kept: Number, now: int, same: (Number, Number) -> bool)
    requires IsAt(w, c, p)
    ensures
      var it, w' := w.campaigns[c], Record(w, c, p, o, callBackAt, kept, now, same);
      if !IsResult(it.kind, o) then w' == w
      else
        && IsAt(w', c, p) && OnlyBecomes(w.(doNotContact := w'.doNotContact), w', c, p, w'.campaigns[c].people[p])
        && RecordedTo(it, it.people[p], o, callBackAt, now, w'.campaigns[c].people[p])
        && w'.doNotContact == w.doNotContact + if o == OptedOut && it.people[p].number != TEST && NotListed(w, it.people[p].number, same) then [kept] else []
  {
    hide Recorded, RecordedTo, Becomes;
    var it, w' := w.campaigns[c], Record(w, c, p, o, callBackAt, kept, now, same);
    RecordedIs(it, p, o, callBackAt, now);
    if IsResult(it.kind, o) {
      assert w'.campaigns == w.campaigns[c := Recorded(it, p, o, callBackAt, now)];
      ItBecomes(w.(doNotContact := w'.doNotContact), w', c, p);
    }
    assert w.doNotContact + [] == w.doNotContact;
  }

  lemma RecordedIs(it: Campaign, p: nat, o: Outcome, callBackAt: Option<int>, now: int)
    requires p < |it.people|
    ensures
      var d := Recorded(it, p, o, callBackAt, now);
      && |d.people| == |it.people| && (IsResult(it.kind, o) ==> RecordedTo(it, it.people[p], o, callBackAt, now, d.people[p]))
      && (forall q :: 0 <= q < |it.people| && q != p ==> d.people[q] == it.people[q])
      && d == it.(people := d.people)
  {
    hide ApplyResult, SettledBy, Settle, RecordedTo;
    if IsResult(it.kind, o) {
      RecordedThem(it, p, o, callBackAt, now);
    }
  }

  lemma RecordedThem(it: Campaign, p: nat, o: Outcome, callBackAt: Option<int>, now: int)
    requires p < |it.people| && IsResult(it.kind, o)
    ensures RecordedTo(it, it.people[p], o, callBackAt, now, Recorded(it, p, o, callBackAt, now).people[p])
  {
    hide ApplyResult, SettledBy;
    AppliedIs(it, Noted(it.people[p], o, callBackAt), now);
  }

  lemma AppliedIs(it: Campaign, who: Person, now: int)
    ensures SettledBy(it, who, who.attempt, now, ApplyResult(it.times, it.gapMinutes, who, now))
  {
  }

  /** Recorded while the call goes on, and the call then answered and over: done with that outcome, at that time. */
  lemma RecordedThenEnded(w: World, c: nat, p: nat, o: Outcome, callBackAt: Option<int>, kept: Number, at: int, same: (Number, Number) -> bool,
                          call: Id, reason: Reason, now: int)
    requires CallGoesOn(w, call, c, p) && w.campaigns[c].kind == Calls && Live(w.campaigns[c].people[p].state)
    requires IsResult(Calls, o) && o != Voicemail && o != CallbackRequested
    requires EndsOfItself(w.campaigns[c].people[p].attempt.value, reason)
    ensures
      var w' := OnEvent(Record(w, c, p, o, callBackAt, kept, at, same), CallEnded(call, CallCompleted, reason), now);
      && IsAt(w', c, p)
      && w'.campaigns[c].people[p].state == Done && w'.campaigns[c].people[p].outcome == Some(o) && w'.campaigns[c].people[p].doneAt == Some(now)
  {
    hide Record, OnEvent, IsFirst, Becomes;
    FirstIsAt(w, ByCall(call), c, p);
    RecordsResult(w, c, p, o, callBackAt, kept, at, same);
    var w1 := Record(w, c, p, o, callBackAt, kept, at, same);
    StillFirst(w, w1, call, c, p);
    EndedRecorded(w1, call, reason, now, c, p);
  }

  lemma FirstIsAt(w: World, key: Key, c: nat, p: nat)
    requires IsFirst(w, key, c, p)
    ensures IsHit(w, c, p, key)
  {
  }

  lemma StillFirst(w: World, w1: World, call: Id, c: nat, p: nat)
    requires IsFirst(w, ByCall(call), c, p) && IsAt(w1, c, p)
    requires OnlyBecomes(w.(doNotContact := w1.doNotContact), w1, c, p, w1.campaigns[c].people[p])
    requires w1.campaigns[c].people[p].attempt == Some(w.campaigns[c].people[p].attempt.value.(recorded := true))
    ensures IsFirst(w1, ByCall(call), c, p)
  {
    forall d: nat, q: nat | IsHit(w1, d, q, ByCall(call))
      ensures IsHit(w, d, q, ByCall(call))
    {
    }
  }

  // ---- What waited too long ---------------------------------------------------------------------------

  /** From when a reply or a result is waited for. */
  function Since(first: Option<int>, then_: int): int {
    if first.Some? then first.value else then_
  }

  /** A dial no end was heard of for ten minutes, unless its call is known to go on. */
  predicate DialIsLost(it: Campaign, who: Person, now: int, live: bool) {
    && it.kind == Calls && who.attempt.Some? && (who.state == Dialling || who.state == Ringing || who.state == OnCall)
    && now - who.attempt.value.at > 10 * MINUTE && !(who.attempt.value.callId.Some? && live)
  }

  /** An agent was asked for a result two minutes ago. */
  predicate ResultIsLate(who: Person, now: int) {
    && who.attempt.Some? && who.state == Ended && !who.attempt.value.recorded
    && var a := who.attempt.value;
       now - Since(a.askedAt, if a.ended.Some? then a.ended.value.at else a.at) > 2 * MINUTE
  }

  /** A text given to the phone ten minutes ago, which never said that it went. */
  predicate SendingIsLate(who: Person, now: int) {
    who.attempt.Some? && who.state == Sending && now - who.attempt.value.at > 10 * MINUTE
  }

  /** A reply waited for past its campaign's deadline, where that has one. */
  predicate ReplyIsLate(it: Campaign, who: Person, now: int) {
    && who.attempt.Some? && who.state == AwaitingReply && it.replyDeadline != 0
    && now - Since(who.attempt.value.sentAt, who.attempt.value.at) > it.replyDeadline
  }

  /** A lost dial's end: answered, its result recorded or waited for; or not answered, with tries left or not. */
  ghost predicate LostTo(it: Campaign, who: Person, now: int, heard: bool, to: Person)
    requires who.attempt.Some?
  {
    var a := Ended1(who.attempt.value, if heard then CallCompleted else CallNotAnswered, Lost, now);
    if heard && a.recorded then SettledBy(it, who, Some(a), now, to)
    else if heard then to == who.(state := Ended, attempt := Some(a.(askedAt := Some(Since(a.askedAt, now)))))
    else if who.tries <= it.times then to == who.(attempt := Some(a), state := Waiting, nextAt := now + it.gapMinutes * MINUTE, outcome := None)
    else to == who.(attempt := Some(a), state := Done, outcome := Some(NoAnswer), doneAt := Some(now))
  }

  /**
   * Who waited too long: a lost dial is over, answered if words of it were heard;
   * a late result is unclear; a late text is in doubt; a late reply is none.
   */
  ghost predicate OverdueTo(it: Campaign, who: Person, now: int, live: bool, heard: bool, to: Person) {
    if DialIsLost(it, who, now, live) then LostTo(it, who, now, heard, to)
    else if ResultIsLate(who, now) then to == who.(state := Done, outcome := Some(Unclear), doneAt := Some(now))
    else
      var sent := if SendingIsLate(who, now) then InDoubt1(who) else who;
      to == if ReplyIsLate(it, sent, now) then sent.(state := Done, outcome := Some(NoReply), doneAt := Some(now)) else sent
  }

  lemma OverdueOneIs(it: Campaign, p: nat, now: int, live: bool, heard: bool)
    requires p < |it.people|
    ensures
      var d := OverdueOne(it, p, now, live, heard);
      && |d.people| == |it.people| && OverdueTo(it, it.people[p], now, live, heard, d.people[p])
      && (forall q :: 0 <= q < |it.people| && q != p ==> d.people[q] == it.people[q])
      && d == it.(people := d.people, faults := d.faults)
  {
    if DialIsLost(it, it.people[p], now, live) {
      LostDialIs(it, p, now, heard);
      hide SettleCall, LostTo;
    } else {
      hide SettleCall, LostTo, Settle, MayHaveGone, OverdueTo;
      OverdueElse(it, p, now, live, heard);
    }
  }

  lemma OverdueElse(it: Campaign, p: nat, now: int, live: bool, heard: bool)
    requires p < |it.people| && !DialIsLost(it, it.people[p], now, live)
    ensures
      var to := OverdueOne(it, p, now, live, heard).people;
      && |to| == |it.people| && OverdueOne(it, p, now, live, heard) == it.(people := to) && OverdueTo(it, it.people[p], now, live, heard, to[p])
      && forall q :: 0 <= q < |it.people| && q != p ==> to[q] == it.people[q]
  {
    hide SettleCall, LostTo;
  }

  lemma LostDialIs(it: Campaign, p: nat, now: int, heard: bool)
    requires p < |it.people| && it.people[p].attempt.Some?
    ensures
      var who := it.people[p];
      var a := Ended1(who.attempt.value, if heard then CallCompleted else CallNotAnswered, Lost, now);
      var d := SettleCall(SetIn(it, p, who.(attempt := Some(a))), p, now);
      && |d.people| == |it.people| && d == it.(people := d.people, faults := d.faults) && LostTo(it, who, now, heard, d.people[p])
      && forall q :: 0 <= q < |it.people| && q != p ==> d.people[q] == it.people[q]
  {
  }

  /** A look at who has waited too long: each person of the campaign alone, and no other campaign. */
  lemma OverdueIs(w: World, c: nat, now: int, said: Overheard)
    requires c < |w.campaigns|
    ensures
      var it, w' := w.campaigns[c], Overdue(w, c, now, said);
      && |w'.campaigns| == |w.campaigns| && (forall d: nat :: d < |w.campaigns| && d != c ==> w'.campaigns[d] == w.campaigns[d])
      && w'.doNotContact == w.doNotContact && w'.trace == w.trace && w'.dials == w.dials
      && |w'.campaigns[c].people| == |it.people| && w'.campaigns[c] == it.(people := w'.campaigns[c].people, faults := w'.campaigns[c].faults)
      && forall p: nat :: p < |it.people| ==> OverdueTo(it, it.people[p], now, said.live(p), said.heard(p), w'.campaigns[c].people[p])
  {
    hide OverdueTo, OverdueFirst;
    OverdueEach(w.campaigns[c], |w.campaigns[c].people|, now, said);
  }

  lemma {:induction false} OverdueEach(it: Campaign, n: nat, now: int, said: Overheard)
    requires n <= |it.people|
    ensures
      var d := OverdueFirst(it, n, now, said);
      && |d.people| == |it.people| && d == it.(people := d.people, faults := d.faults)
      && (forall p: nat :: p < n ==> OverdueTo(it, it.people[p], now, said.live(p), said.heard(p), d.people[p]))
      && (forall p: nat :: n <= p < |it.people| ==> d.people[p] == it.people[p])
  {
    hide OverdueTo, OverdueOne;
    if n > 0 {
      OverdueEach(it, n - 1, now, said);
      var before := OverdueFirst(it, n - 1, now, said);
      OverdueOneIs(before, n - 1, now, said.live(n - 1), said.heard(n - 1));
      SameRules(it, before, n - 1, now, said.live(n - 1), said.heard(n - 1), OverdueFirst(it, n, now, said).people[n - 1]);
    }
  }

  lemma SameRules(it: Campaign, d: Campaign, p: nat, now: int, live: bool, heard: bool, to: Person)
    requires p < |it.people| == |d.people| && d == it.(people := d.people, faults := d.faults) && d.people[p] == it.people[p]
    requires OverdueTo(d, d.people[p], now, live, heard, to)
    ensures OverdueTo(it, it.people[p], now, live, heard, to)
  {
    hide InDoubt1, Ended1, Since;
  }

  // ---- The voice, stop words, and stopping ---------------------------------------------------------------

  /** This attempt's call is this one: as it was dialled, or as the voice knows it. */
  ghost predicate IsCallOf(w: World, call: Id, c: nat, p: nat) {
    && IsAt(w, c, p) && w.campaigns[c].people[p].attempt.Some?
    && (w.campaigns[c].people[p].attempt.value.callId == Some(call) || w.campaigns[c].people[p].attempt.value.voiceCallId == Some(call))
  }

  ghost predicate IsFirstCallOf(w: World, call: Id, c: nat, p: nat) {
    IsCallOf(w, call, c, p) && forall d: nat, q: nat :: IsCallOf(w, call, d, q) ==> !ComesBefore(d, q, c, p)
  }

  lemma FirstCallOf(w: World, call: Id, c: nat, p: nat)
    requires IsFirstCallOf(w, call, c, p)
    ensures IsFirst(w, ByCallOrVoice(call), c, p)
  {
    forall d: nat, q: nat
      ensures IsHit(w, d, q, ByCallOrVoice(call)) == IsCallOf(w, call, d, q)
    {
    }
  }

  /** The voice has the call of this attempt: an agent is on it. */
  lemma VoiceHasIt(w: World, call: Id, number: Number, same: (Number, Number) -> bool, c: nat, p: nat)
    requires IsFirstCallOf(w, call, c, p)
    ensures
      var who := w.campaigns[c].people[p];
      OnlyBecomes(w, ForCall(w, call, number, same), c, p,
        who.(attempt := Some(who.attempt.value.(bound := true)), state := if who.state == Dialling || who.state == Ringing then OnCall else who.state))
  {
    FirstCallOf(w, call, c, p);
    hide FindFrom, IsFirst;
    FoundIs(w, ByCallOrVoice(call), c, p);
    ItBecomes(w, ForCall(w, call, number, same), c, p);
  }

  /** Being rung, and the same person as this number; and no one before them is. */
  ghost predicate IsFirstRung(w: World, number: Number, same: (Number, Number) -> bool, c: nat, p: nat) {
    && IsRung(w, number, same, c, p) && forall d: nat, q: nat :: IsRung(w, number, same, d, q) ==> !ComesBefore(d, q, c, p)
  }

  predicate IsRung(w: World, number: Number, same: (Number, Number) -> bool, c: nat, p: nat) {
    && IsAt(w, c, p) && w.campaigns[c].kind == Calls && same(w.campaigns[c].people[p].number, number)
    && (w.campaigns[c].people[p].state == Dialling || w.campaigns[c].people[p].state == Ringing || w.campaigns[c].people[p].state == OnCall)
  }

  lemma {:induction false} FindRungIs(w: World, number: Number, same: (Number, Number) -> bool, c: nat, p: nat)
    requires c <= |w.campaigns| && (c < |w.campaigns| ==> p <= |w.campaigns[c].people|)
    ensures
      var r := FindRung(w, number, same, c, p);
      && (r.None? ==> forall d: nat, q: nat :: IsRung(w, number, same, d, q) ==> ComesBefore(d, q, c, p))
      && (r.Some? ==> IsRung(w, number, same, r.value.0, r.value.1))
      && (r.Some? ==> forall d: nat, q: nat :: IsRung(w, number, same, d, q) && ComesBefore(d, q, r.value.0, r.value.1) ==> ComesBefore(d, q, c, p))
    decreases |w.campaigns| - c, if c < |w.campaigns| then |w.campaigns[c].people| - p else 0
  {
    if c < |w.campaigns| {
      if w.campaigns[c].kind != Calls || p == |w.campaigns[c].people| {
        FindRungIs(w, number, same, c + 1, 0);
      } else if !IsRung(w, number, same, c, p) {
        FindRungIs(w, number, same, c, p + 1);
      }
    }
  }

  lemma NoCallOf(w: World, call: Id)
    requires forall d: nat, q: nat :: !IsCallOf(w, call, d, q)
    ensures forall d: nat, q: nat :: !IsHit(w, d, q, ByCallOrVoice(call))
  {
    forall d: nat, q: nat
      ensures IsHit(w, d, q, ByCallOrVoice(call)) == IsCallOf(w, call, d, q)
    {
    }
  }

  /** It has another call, to the number of someone being rung: theirs, and its id is kept with the attempt. */
  lemma VoiceHasAnother(w: World, call: Id, number: Number, same: (Number, Number) -> bool, c: nat, p: nat)
    requires (forall d: nat, q: nat :: !IsCallOf(w, call, d, q)) && number != "" && IsFirstRung(w, number, same, c, p)
    requires w.campaigns[c].people[p].attempt.Some?
    ensures
      var who := w.campaigns[c].people[p];
      OnlyBecomes(w, ForCall(w, call, number, same), c, p,
        who.(attempt := Some(who.attempt.value.(bound := true, voiceCallId := Some(call))), state := OnCall))
  {
    NoCallOf(w, call);
    hide FindFrom, FindRung, IsHit;
    FindRungIs(w, number, same, 0, 0);
    var r := FindRung(w, number, same, 0, 0);
    assert ByAttempt(w, ByCallOrVoice(call)).None?;
    assert r.Some?;
    var (d, q) := r.value;
    assert !ComesBefore(d, q, c, p) && !ComesBefore(c, p, d, q);
    ItBecomes(w, ForCall(w, call, number, same), c, p);
  }

  /** The voice's end: from now an agent is waited for; and that an agent hangs up is noted. */
  lemma VoiceIsOver(w: World, c: nat, p: nat, now: int)
    requires IsAt(w, c, p)
    ensures
      var who := w.campaigns[c].people[p];
      && OnlyBecomes(w, VoiceEnded(w, c, p, now), c, p,
           if who.attempt.None? || who.attempt.value.recorded then who
           else who.(attempt := Some(who.attempt.value.(askedAt := Some(Since(who.attempt.value.askedAt, now))))))
      && OnlyBecomes(w, HangingUp(w, c, p), c, p,
           if who.attempt.None? then who else who.(attempt := Some(who.attempt.value.(hungUp := true))))
  {
    ItBecomes(w, VoiceEnded(w, c, p, now), c, p);
    ItBecomes(w, HangingUp(w, c, p), c, p);
  }

  /** Texted, and of this number, or (but for the pretend one) the same person's. */
  predicate Texted1(who: Person, number: Number, same: (Number, Number) -> bool) {
    who.attempt.Some? && (who.number == number || (who.number != TEST && same(who.number, number)))
  }

  /** A stop word: everyone texted who is that person is opted out, in every campaign of texts, and no one else is touched; listed when there was one. */
  lemma StopWordIs(w: World, number: Number, kept: Number, now: int, same: (Number, Number) -> bool)
    ensures
      var w' := StopWord(w, number, kept, now, same);
      && |w'.campaigns| == |w.campaigns| && w'.trace == w.trace && w'.dials == w.dials
      && (forall c: nat :: c < |w.campaigns| ==>
           |w'.campaigns[c].people| == |w.campaigns[c].people| && w'.campaigns[c] == w.campaigns[c].(people := w'.campaigns[c].people))
      && (forall c: nat, p: nat :: IsAt(w, c, p) ==>
           var who := w.campaigns[c].people[p];
           w'.campaigns[c].people[p] ==
             if w.campaigns[c].kind != Texts || !Texted1(who, number, same) then who
             else if who.state == Done then who.(outcome := Some(OptedOut), late := true)
             else who.(state := Done, outcome := Some(OptedOut), doneAt := Some(now)))
      && w'.doNotContact == w.doNotContact
           + if (exists c: nat, p: nat :: IsAt(w, c, p) && w.campaigns[c].kind == Texts && Texted1(w.campaigns[c].people[p], number, same))
                && number != TEST && NotListed(w, number, same) then [kept] else []
  {
    assert w.doNotContact + [] == w.doNotContact;
    if exists c: nat, p: nat :: IsAt(w, c, p) && w.campaigns[c].kind == Texts && Texted1(w.campaigns[c].people[p], number, same) {
      var c: nat, p: nat :| IsAt(w, c, p) && w.campaigns[c].kind == Texts && Texted1(w.campaigns[c].people[p], number, same);
      assert StopsFor(w.campaigns[c].people[p], number, same);
    }
  }

  /** Stopped by the person: who waits for a reply has none, who was not contacted is cut short, and those done or on a call stay. */
  lemma StoppingIs(w: World, c: nat, now: int)
    requires c < |w.campaigns| && w.campaigns[c].state != Finished && w.campaigns[c].state != Stopped
    ensures
      var it, w' := w.campaigns[c], End(w, c, now);
      && |w'.campaigns| == |w.campaigns| && (forall d: nat :: d < |w.campaigns| && d != c ==> w'.campaigns[d] == w.campaigns[d])
      && |w'.campaigns[c].people| == |it.people| && w'.campaigns[c].state == Stopped
      && forall p: nat :: p < |it.people| ==>
           var who := it.people[p];
           w'.campaigns[c].people[p] ==
             match who.state
             case AwaitingReply => who.(state := Done, outcome := Some(NoReply), doneAt := Some(now))
             case Sending => who.(state := Done, outcome := Some(NoReply), doneAt := Some(now))
             case Queued => who.(state := Done, outcome := Some(CutShort), doneAt := Some(now))
             case Waiting => who.(state := Done, outcome := Some(CutShort), doneAt := Some(now))
             case _ => who
  {
  }

  /** A campaign begins with everyone queued, none tried; of texts there are no retries. */
  lemma CreatedIs(w: World, kind: Kind, times: nat, gap: nat, replyDeadline: int, numbers: seq<Number>, now: int)
    ensures
      var w' := Create(w, kind, times, gap, replyDeadline, numbers, now);
      && |w'.campaigns| == |w.campaigns| + 1 && w'.campaigns[..|w.campaigns|] == w.campaigns && w' == w.(campaigns := w'.campaigns)
      && var it := w'.campaigns[|w.campaigns|];
         && it.kind == kind && it.times == (if kind == Texts then 0 else times) && it.gapMinutes == gap && it.replyDeadline == replyDeadline
         && it.state == Running && it.faults == 0 && it.createdAt == now && it.approvedAt == now && it.endedAt == None && |it.people| == |numbers|
         && forall p :: 0 <= p < |numbers| ==>
              it.people[p] == Person(numbers[p], Queued, 0, 0, None, None, None, false, false, false, false, None)
  {
  }

  /** Resumed, but by no agent where the person has not approved it: with its count of cancelled dials begun again. */
  lemma ResumedIs(w: World, c: nat, byAgent: bool, now: int)
    requires c < |w.campaigns|
    ensures
      var it, w' := w.campaigns[c], Resume(w, c, byAgent, now);
      if it.state != Paused || (byAgent && it.approvedAt == 0) then w' == w
      else w' == w.(campaigns := w.campaigns[c := it.(state := Running, faults := 0, approvedAt := if it.approvedAt == 0 then now else it.approvedAt)])
  {
  }

  // ---- The report ----------------------------------------------------------------------------------------

  /** On the phone, or their result waited for. */
  predicate StillOn(who: Person) {
    who.state == Dialling || who.state == Ringing || who.state == OnCall || who.state == Ended
  }

  predicate IsThrough(who: Person) {
    who.state == Done || who.state == Skipped
  }

  ghost predicate NoneOn(it: Campaign) {
    forall p :: 0 <= p < |it.people| ==> !StillOn(it.people[p])
  }

  ghost predicate AllThrough(it: Campaign) {
    forall p :: 0 <= p < |it.people| ==> IsThrough(it.people[p])
  }

  /** A campaign not reported yet, and begun (or ended by the person), is over once all are through, or it is stopped and no one is on the phone. */
  ghost predicate IsOver(it: Campaign, force: bool) {
    it.endedAt.None? && (it.approvedAt != 0 || force) && (AllThrough(it) || ((force || it.state == Stopped) && NoneOn(it)))
  }

  /** Then it is done (or stays stopped), at that time, and reported once more; else nothing changes. */
  lemma OverIs(w: World, c: nat, now: int, force: bool)
    requires c < |w.campaigns|
    ensures
      var it := w.campaigns[c];
      FinishIfDone(w, c, now, force) ==
      if IsOver(it, force) then
        w.(campaigns := w.campaigns[c := it.(state := if it.state == Stopped then Stopped else Finished, endedAt := Some(now))], trace := w.trace + [Reported(c)])
      else w
  {
    var it := w.campaigns[c];
    assert HasLive(it) <==> !NoneOn(it) by {
      if p :| 0 <= p < |it.people| && StillOn(it.people[p]) {
        assert Live(it.people[p].state) || it.people[p].state == Ended;
      }
    }
    assert AllFinal(it) <==> AllThrough(it) by {
      assert forall p :: 0 <= p < |it.people| ==> Final(it.people[p].state) == IsThrough(it.people[p]);
    }
  }
}
