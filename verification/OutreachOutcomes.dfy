/**
 * What becomes of a person of a campaign (app/src/outreach.ts:926-968, 1045-1077,
 * 1171-1210, 1238-1328, 1347-1414, 1517-1541, 1599-1640): for each way their
 * call ends, a text goes or fails, they are waited for too long, or a result is
 * recorded, the whole person after it, and that no one else is touched.
 */
module OutreachOutcomes {
  import opened Options
  import opened Outreach

  const MINUTE: int := 60_000

  // ---- Who an event is about -----------------------------------------------------------------

  /** In the order of campaigns, and of people in one. */
  predicate ComesBefore(d: nat, q: nat, c: nat, p: nat) {
    d < c || (d == c && q < p)
  }

  /** The first person whose attempt is the one of this key. */
  ghost predicate IsFirst(w: World, key: Key, c: nat, p: nat) {
    IsHit(w, c, p, key) && forall d: nat, q: nat :: IsHit(w, d, q, key) ==> !ComesBefore(d, q, c, p)
  }

  lemma {:induction false} FindFromIs(w: World, key: Key, c: nat, p: nat)
    requires c <= |w.campaigns| && (c < |w.campaigns| ==> p <= |w.campaigns[c].people|)
    ensures
      var r := FindFrom(w, key, c, p);
      && (r.None? ==> forall d: nat, q: nat :: IsHit(w, d, q, key) ==> ComesBefore(d, q, c, p))
      && (r.Some? ==> forall d: nat, q: nat :: IsHit(w, d, q, key) && ComesBefore(d, q, r.value.0, r.value.1) ==> ComesBefore(d, q, c, p))
    decreases |w.campaigns| - c, if c < |w.campaigns| then |w.campaigns[c].people| - p else 0
  {
    hide Matches;
    if c < |w.campaigns| {
      if p == |w.campaigns[c].people| {
        FindFromIs(w, key, c + 1, 0);
      } else if !IsHit(w, c, p, key) {
        FindFromIs(w, key, c, p + 1);
      }
    }
  }

  lemma FoundIs(w: World, key: Key, c: nat, p: nat)
    requires IsFirst(w, key, c, p)
    ensures ByAttempt(w, key) == Some((c, p))
  {
    hide IsHit, FindFrom;
    FindFromIs(w, key, 0, 0);
    var r := ByAttempt(w, key);
    assert r.Some?;
    var (d, q) := r.value;
    assert !ComesBefore(d, q, c, p) && !ComesBefore(c, p, d, q);
  }

  /** Only this person is another now; of their campaign, besides, how often a dial was cancelled in a row, and whether it is paused. */
  ghost predicate Becomes(w: World, w': World, c: nat, p: nat, who: Person, faults: nat, state: CampaignState)
    requires IsAt(w, c, p)
  {
    var it := w.campaigns[c];
    w' == w.(campaigns := w.campaigns[c := it.(people := it.people[p := who], faults := faults, state := state)])
  }

  ghost predicate OnlyBecomes(w: World, w': World, c: nat, p: nat, who: Person)
    requires IsAt(w, c, p)
  {
    Becomes(w, w', c, p, who, w.campaigns[c].faults, w.campaigns[c].state)
  }

  /** It is so when everything else is as it was. */
  lemma ItBecomes(w: World, w': World, c: nat, p: nat)
    requires IsAt(w, c, p) && |w'.campaigns| == |w.campaigns| && forall d: nat :: d < |w.campaigns| && d != c ==> w'.campaigns[d] == w.campaigns[d]
    requires |w'.campaigns[c].people| == |w.campaigns[c].people|
    requires forall q: nat :: q < |w.campaigns[c].people| && q != p ==> w'.campaigns[c].people[q] == w.campaigns[c].people[q]
    requires
      var it, to := w.campaigns[c], w'.campaigns[c];
      to == it.(people := to.people, faults := to.faults, state := to.state)
    requires w'.doNotContact == w.doNotContact && w'.dials == w.dials && w'.trace == w.trace
    ensures Becomes(w, w', c, p, w'.campaigns[c].people[p], w'.campaigns[c].faults, w'.campaigns[c].state)
  {
    var it, to := w.campaigns[c], w'.campaigns[c];
    assert it.people[p := to.people[p]] == to.people;
    assert w'.campaigns == w.campaigns[c := to];
  }

  function OneLess(n: nat): nat {
    if n > 0 then n - 1 else 0
  }

  // ---- A call ends -------------------------------------------------------------------------------

  /** A person whose call goes on, and whose end has not been heard. */
  ghost predicate CallGoesOn(w: World, call: Id, c: nat, p: nat) {
    && IsFirst(w, ByCall(call), c, p)
    && var who := w.campaigns[c].people[p];
       who.attempt.value.ended.None? && who.state != Done && who.state != Skipped
  }

  /** The end of no one's call, or of one whose end was heard, or of someone done with, changes nothing. */
  lemma NoOnesCall(w: World, call: Id, outcome: CallOutcome, reason: Reason, now: int)
    requires !exists c: nat, p: nat :: CallGoesOn(w, call, c, p)
    ensures OnEvent(w, CallEnded(call, outcome, reason), now) == w
  {
    hide FindFrom, Matches;
    var hit := ByAttempt(w, ByCall(call));
    if hit.Some? {
      var (c, p) := hit.value;
      FindFromIs(w, ByCall(call), 0, 0);
      assert IsFirst(w, ByCall(call), c, p);
      assert !CallGoesOn(w, call, c, p);
    }
  }

  /** How the call ended, with the attempt as it was when it did. */
  function Ended1(a: Attempt, outcome: CallOutcome, reason: Reason, now: int): Attempt {
    a.(ended := Some(EndOfCall(outcome, reason, now)))
  }

  /** The phone ended the dial itself: in a minute again, and no try; at the second time in a row its campaign waits for the person. */
  lemma CancelledByThePhone(w: World, call: Id, outcome: CallOutcome, now: int, c: nat, p: nat)
    requires CallGoesOn(w, call, c, p)
    requires !w.campaigns[c].people[p].attempt.value.hungUp && !w.campaigns[c].people[p].attempt.value.bound
    ensures
      var it := w.campaigns[c];
      var who := it.people[p];
      Becomes(w, OnEvent(w, CallEnded(call, outcome, Cancelled), now), c, p,
              who.(state := Queued, tries := OneLess(who.tries), nextAt := now + MINUTE, attempt := None), it.faults + 1,
              if it.faults + 1 >= 2 && it.state == Running then Paused else it.state)
  {
    hide FindFrom, IsFirst;
    FoundIs(w, ByCall(call), c, p);
    ItBecomes(w, OnEvent(w, CallEnded(call, outcome, Cancelled), now), c, p);
  }

  /** The phone went away: in a minute again, and no try. */
  lemma PhoneWentAway(w: World, call: Id, outcome: CallOutcome, now: int, c: nat, p: nat)
    requires CallGoesOn(w, call, c, p)
    ensures
      var who := w.campaigns[c].people[p];
      OnlyBecomes(w, OnEvent(w, CallEnded(call, outcome, DeviceLost), now), c, p,
                  who.(state := Queued, tries := OneLess(who.tries), nextAt := now + MINUTE, attempt := None))
  {
    hide FindFrom, IsFirst;
    FoundIs(w, ByCall(call), c, p);
    ItBecomes(w, OnEvent(w, CallEnded(call, outcome, DeviceLost), now), c, p);
  }

  /** It ended neither so: what the next lemmas ask. */
  predicate EndsOfItself(a: Attempt, reason: Reason) {
    reason != DeviceLost && !(reason == Cancelled && !a.hungUp && !a.bound)
  }

  /** What a recorded result makes of them, their call being over. */
  ghost predicate SettledBy(it: Campaign, who: Person, ended: Option<Attempt>, now: int, to: Person) {
    var o := if who.outcome.Some? then who.outcome.value else Unclear;
    if o == Voicemail && who.tries <= it.times then
      to == who.(attempt := ended, state := Waiting, nextAt := now + it.gapMinutes * MINUTE, outcome := None)
    else if o == CallbackRequested && !who.callBackUsed && who.callBackAt.Some? && who.callBackAt.value > now then
      to == who.(attempt := ended, state := Waiting, nextAt := who.callBackAt.value, outcome := None, callBackUsed := true, tries := OneLess(who.tries))
    else
      to == who.(attempt := ended, state := if o == LeftOut then Skipped else Done, outcome := Some(o), doneAt := Some(now))
  }

  /**
   * Answered, its result recorded: done with that outcome. But a voicemail with
   * tries left waits the gap for another, and the first call back asked for at
   * a later time waits until that, no try used.
   */
  lemma EndedRecorded(w: World, call: Id, reason: Reason, now: int, c: nat, p: nat)
    requires CallGoesOn(w, call, c, p) && EndsOfItself(w.campaigns[c].people[p].attempt.value, reason)
    requires w.campaigns[c].people[p].attempt.value.recorded
    ensures
      var w', it := OnEvent(w, CallEnded(call, CallCompleted, reason), now), w.campaigns[c];
      var who := it.people[p];
      && IsAt(w', c, p) && Becomes(w, w', c, p, w'.campaigns[c].people[p], 0, it.state)
      && SettledBy(it, who, Some(Ended1(who.attempt.value, CallCompleted, reason, now)), now, w'.campaigns[c].people[p])
  {
    hide FindFrom, IsFirst;
    FoundIs(w, ByCall(call), c, p);
    ItBecomes(w, OnEvent(w, CallEnded(call, CallCompleted, reason), now), c, p);
  }

  /** Answered, nothing recorded, and the agent on it (or it hung up, or the end was not heard but told): its result is waited for from now. */
  lemma EndedUnrecorded(w: World, call: Id, reason: Reason, now: int, c: nat, p: nat)
    requires CallGoesOn(w, call, c, p) && EndsOfItself(w.campaigns[c].people[p].attempt.value, reason)
    requires !w.campaigns[c].people[p].attempt.value.recorded
    ensures
      var it := w.campaigns[c];
      var who := it.people[p];
      var a := Ended1(who.attempt.value, CallCompleted, reason, now);
      Becomes(w, OnEvent(w, CallEnded(call, CallCompleted, reason), now), c, p,
              if a.bound || a.hungUp || reason == Lost then who.(state := Ended, attempt := Some(a.(askedAt := if a.askedAt.Some? then a.askedAt else Some(now))))
              else who.(state := Done, attempt := Some(a), outcome := Some(Unclear), doneAt := Some(now)),
              0, it.state)
  {
    hide FindFrom, IsFirst;
    FoundIs(w, ByCall(call), c, p);
    ItBecomes(w, OnEvent(w, CallEnded(call, CallCompleted, reason), now), c, p);
  }

  /** Not answered: after the gap again while there are retries left, else done so. */
  lemma EndedNotAnswered(w: World, call: Id, reason: Reason, now: int, c: nat, p: nat)
    requires CallGoesOn(w, call, c, p) && EndsOfItself(w.campaigns[c].people[p].attempt.value, reason)
    ensures
      var it := w.campaigns[c];
      var who := it.people[p];
      var a := Some(Ended1(who.attempt.value, CallNotAnswered, reason, now));
      OnlyBecomes(w, OnEvent(w, CallEnded(call, CallNotAnswered, reason), now), c, p,
                  if who.tries <= it.times then who.(attempt := a, state := Waiting, nextAt := now + it.gapMinutes * MINUTE, outcome := None)
                  else who.(attempt := a, state := Done, outcome := Some(NoAnswer), doneAt := Some(now)))
  {
    hide FindFrom, IsFirst;
    FoundIs(w, ByCall(call), c, p);
    ItBecomes(w, OnEvent(w, CallEnded(call, CallNotAnswered, reason), now), c, p);
  }

  /** It did not go through: once more, five minutes later at least; and no more than once. */
  lemma EndedFailed(w: World, call: Id, reason: Reason, now: int, c: nat, p: nat)
    requires CallGoesOn(w, call, c, p) && EndsOfItself(w.campaigns[c].people[p].attempt.value, reason)
    ensures
      var it := w.campaigns[c];
      var who := it.people[p];
      var a := Some(Ended1(who.attempt.value, CallFailed, reason, now));
      OnlyBecomes(w, OnEvent(w, CallEnded(call, CallFailed, reason), now), c, p,
                  if who.failed then who.(attempt := a, state := Done, outcome := Some(Unreachable), doneAt := Some(now))
                  else who.(attempt := a, state := Waiting, failed := true, nextAt := now + (if it.gapMinutes > 5 then it.gapMinutes else 5) * MINUTE))
  {
    hide FindFrom, IsFirst;
    FoundIs(w, ByCall(call), c, p);
    ItBecomes(w, OnEvent(w, CallEnded(call, CallFailed, reason), now), c, p);
  }

  // ---- Before it ends -----------------------------------------------------------------------------

  /** Ringing, or answered: so it is, of one whose call is not over. */
  lemma RingsOrIsAnswered(w: World, call: Id, now: int, c: nat, p: nat)
    requires IsFirst(w, ByCall(call), c, p)
    ensures
      var who := w.campaigns[c].people[p];
      var over := who.state == Done || who.state == Skipped || who.state == Ended;
      && OnlyBecomes(w, OnEvent(w, CallRinging(call), now), c, p, if over then who else who.(state := Ringing))
      && OnlyBecomes(w, OnEvent(w, CallAnswered(call), now), c, p, if over then who else who.(state := OnCall))
  {
    hide FindFrom, IsFirst;
    FoundIs(w, ByCall(call), c, p);
    ItBecomes(w, OnEvent(w, CallRinging(call), now), c, p);
    ItBecomes(w, OnEvent(w, CallAnswered(call), now), c, p);
  }

  /** The phone could not place it: in a minute again, and no try. */
  lemma DialDidNotGo(w: World, operation: Id, now: int, c: nat, p: nat)
    requires IsFirst(w, ByOperation(operation), c, p)
    ensures
      var who := w.campaigns[c].people[p];
      OnlyBecomes(w, OnEvent(w, DialFailed(operation), now), c, p,
                  if who.attempt.value.ended.Some? || who.state == Done || who.state == Skipped then who
                  else who.(state := Queued, tries := OneLess(who.tries), nextAt := now + MINUTE, attempt := None))
  {
    hide FindFrom, IsFirst;
    FoundIs(w, ByOperation(operation), c, p);
    ItBecomes(w, OnEvent(w, DialFailed(operation), now), c, p);
  }

  // ---- A text -------------------------------------------------------------------------------------------

  /** It went: their reply is waited for from now, and nothing is in doubt. */
  lemma TextWent(w: World, m: MessageId, now: int, c: nat, p: nat)
    requires IsFirst(w, ByMessage(m), c, p)
    ensures
      var who := w.campaigns[c].people[p];
      OnlyBecomes(w, OnEvent(w, TextSent(m), now), c, p,
                  if who.state == Sending || (who.state == AwaitingReply && who.unconfirmed) then
                    who.(state := AwaitingReply, unconfirmed := false, attempt := Some(who.attempt.value.(sentAt := Some(now))))
                  else who)
  {
    hide FindFrom, IsFirst;
    FoundIs(w, ByMessage(m), c, p);
    ItBecomes(w, OnEvent(w, TextSent(m), now), c, p);
  }

  /** Their reply waited for, from when it went or was asked for, a text in doubt never being sent again. */
  function InDoubt1(who: Person): Person
    requires who.attempt.Some?
  {
    var a := who.attempt.value;
    who.(state := AwaitingReply, unconfirmed := true, attempt := Some(a.(sentAt := if a.sentAt.Some? then a.sentAt else Some(a.at))))
  }

  /** A first failure, and a second. */
  function FailsAgain(who: Person, now: int): Person
    requires who.attempt.Some?
  {
    if who.attempt.value.failedOnce then who.(state := Done, outcome := Some(Unreachable), doneAt := Some(now))
    else who.(state := Queued, nextAt := now + 5 * MINUTE, attempt := Some(who.attempt.value.(failedOnce := true)))
  }

  /** It may have gone: in doubt. It did not: once more in five minutes, and then never, and the failure is noted. */
  lemma TextDidNotGo(w: World, m: MessageId, now: int, c: nat, p: nat)
    requires IsFirst(w, ByMessage(m), c, p)
    ensures
      var who := w.campaigns[c].people[p];
      var final := who.state == Done || who.state == Skipped;
      var w' := OnEvent(w, TextLost(m, false), now);
      && OnlyBecomes(w, OnEvent(w, TextLost(m, true), now), c, p, if final then who else InDoubt1(who))
      && OnlyBecomes(w.(trace := w'.trace), w', c, p, if final then who else FailsAgain(who, now))
      && w'.trace == w.trace + if final then [] else [TextFailed(c, p, who.attempt.value.n)]
  {
    hide FindFrom, IsFirst;
    FoundIs(w, ByMessage(m), c, p);
    assert w.trace + [] == w.trace;
    var w' := OnEvent(w, TextLost(m, false), now);
    ItBecomes(w, OnEvent(w, TextLost(m, true), now), c, p);
    ItBecomes(w.(trace := w'.trace), w', c, p);
  }

  /** The attempt a text is: its try, its time and its id, and whether one failed before. */
  function TextAttempt(who: Person, c: nat, p: nat, now: int): Attempt {
    Attempt(who.tries + 1, now, None, None, None, Some(MessageId(c, p, who.tries + 1)), None, false, false, false, None, None,
            who.attempt.Some? && who.attempt.value.failedOnce)
  }

  /** A text asked of the phone: what its answer makes of them. The pretend number's goes at once, whatever that is. */
  lemma TextAsked(w: World, c: nat, p: nat, look: TextLook)
    requires IsAt(w, c, p)
    ensures
      var who, w' := w.campaigns[c].people[p], Send(w, c, p, look);
      var a := TextAttempt(who, c, p, look.now);
      var sending := who.(state := Sending, tries := who.tries + 1, attempt := Some(a));
      OnlyBecomes(w.(trace := w'.trace), w', c, p,
        if who.number == TEST then sending.(state := AwaitingReply, attempt := Some(a.(sentAt := Some(look.now))))
        else match look.reply
             case Taken => sending
             case InDoubt => InDoubt1(sending)
             case BadRecipient => sending.(state := Done, outcome := Some(InvalidNumber), doneAt := Some(look.now))
             case OtherError => FailsAgain(sending, look.now))
  {
    SendSetsOne(w, c, p, look);
    var w' := Send(w, c, p, look);
    hide Becomes;
    match look.reply {
      case Taken =>
      case InDoubt =>
      case BadRecipient =>
      case OtherError =>
    }
  }

  lemma SendSetsOne(w: World, c: nat, p: nat, look: TextLook)
    requires IsAt(w, c, p)
    ensures
      var w' := Send(w, c, p, look);
      IsAt(w', c, p) && OnlyBecomes(w.(trace := w'.trace), w', c, p, w'.campaigns[c].people[p])
  {
    hide Settle, MayHaveGone;
    var w' := Send(w, c, p, look);
    ItBecomes(w.(trace := w'.trace), w', c, p);
  }

  // ---- A dial -------------------------------------------------------------------------------------------

  /** The attempt a dial is, as the phone answers it. */
  function DialAttempt(who: Person, now: int, callId: Option<Id>, operationId: Option<Id>): Attempt {
    Attempt(who.tries + 1, now, callId, operationId, None, None, None, false, false, false, None, None, false)
  }

  /** A dial taken is a try, and the call's ids are kept; the phone's count of the day's dials too. */
  lemma DialTaken(w: World, c: nat, p: nat, look: DialLook)
    requires IsAt(w, c, p) && look.reply.Dialled?
    ensures
      var who, w' := w.campaigns[c].people[p], Place(w, c, p, look);
      && OnlyBecomes(w.(trace := w'.trace, dials := w'.dials), w', c, p,
           who.(state := Dialling, tries := who.tries + 1, attempt := Some(DialAttempt(who, look.now, look.reply.callId, look.reply.operationId))))
      && w'.dials == if look.reply.today.Some? then look.reply.today else w.dials
  {
    var w' := Place(w, c, p, look);
    ItBecomes(w.(trace := w'.trace, dials := w'.dials), w', c, p);
  }

  /**
   * A dial refused is no try, but to a number that is none, or for no reason it
   * gives: those are tries, the first the last, the second with the retries there
   * are. Where outbound calls are off the campaign waits for the person.
   */
  lemma DialRefused(w: World, c: nat, p: nat, look: DialLook)
    requires IsAt(w, c, p) && look.reply.Refused?
    ensures
      var it, w' := w.campaigns[c], Place(w, c, p, look);
      var who, a := it.people[p], Some(DialAttempt(it.people[p], look.now, None, None));
      var back := who.(state := Queued, attempt := None);
      Becomes(w.(trace := w'.trace), w', c, p,
        match look.reply.why
        case QuietHours => back.(nextAt := look.reply.retryAt)
        case DailyCap => back.(nextAt := look.reply.retryAt)
        case InProgress => back.(nextAt := look.now + MINUTE)
        case NoPhone => back.(nextAt := look.now + MINUTE)
        case OutboundOff => back.(nextAt := look.now)
        case BadNumber => who.(state := Done, attempt := a, tries := who.tries + 1, outcome := Some(InvalidNumber), doneAt := Some(look.now))
        case OtherRefusal =>
          if who.tries + 1 <= it.times then
            who.(state := Waiting, attempt := a, tries := who.tries + 1, nextAt := look.now + it.gapMinutes * MINUTE, outcome := None)
          else who.(state := Done, attempt := a, tries := who.tries + 1, outcome := Some(Unreachable), doneAt := Some(look.now)),
        it.faults, if look.reply.why == OutboundOff && it.state == Running then Paused else it.state)
  {
    var w' := Place(w, c, p, look);
    ItBecomes(w.(trace := w'.trace), w', c, p);
  }
}
