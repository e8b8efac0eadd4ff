/**
 * Outreach (app/src/outreach.ts): campaigns of calls or texts, worked down a
 * person at a time. The state, and what each look, event and request makes of
 * it. `trace` is what the engine asked of the phone and of the conversations,
 * in order, and the text failures it heard.
 *
 * Each look's part, each event and each request is one step: what is awaited
 * within one (the phone's answer, its settings) is a part of its input.
 */
module Outreach {
  import opened Options
  import opened TimeOrder

  type Number = string
  type Id = string

  /** The number of the trial person, whose texts go nowhere. */
  const TEST: Number := "test"

  const HOUR: int := 3_600_000
  const DAY: int := 86_400_000
  const DIAL_LOST: int := 600_000
  const SMS_ACK: int := 600_000
  const AFTER_CALL: int := 120_000
  const TEXT_GAP: int := 20_000
  const TEXTS_PER_HOUR: nat := 40
  const TEXTS_PER_DAY: nat := 200

  function Minutes(n: int): int {
    n * 60_000
  }

  // ---- What is kept ----------------------------------------------------------------

  datatype Kind = Calls | Texts
  datatype PersonState = Queued | Waiting | Dialling | Ringing | OnCall | Ended | Sending | AwaitingReply | Done | Skipped
  datatype Outcome =
    | Completed | Partial | Declined | CallbackRequested | Voicemail
    | NoAnswer | Unreachable | WrongNumber | InvalidNumber | OptedOut | NoReply
    | Unclear | LeftOut | CutShort
  datatype CallOutcome = CallCompleted | CallNotAnswered | CallFailed
  datatype Reason = Cancelled | DeviceLost | Lost | OtherReason
  datatype EndOfCall = EndOfCall(outcome: CallOutcome, reason: Reason, at: int)

  /** A text's id: its campaign, its person, and which try it is. */
  datatype MessageId = MessageId(c: nat, p: nat, n: nat)

  datatype Attempt = Attempt(
    n: nat, at: int,
    callId: Option<Id>, operationId: Option<Id>, voiceCallId: Option<Id>, messageId: Option<MessageId>,
    ended: Option<EndOfCall>, recorded: bool, bound: bool, hungUp: bool,
    askedAt: Option<int>, sentAt: Option<int>, failedOnce: bool)

  datatype Person = Person(
    number: Number, state: PersonState, tries: nat, nextAt: int, attempt: Option<Attempt>, outcome: Option<Outcome>,
    callBackAt: Option<int>, callBackUsed: bool, unconfirmed: bool, failed: bool, late: bool, doneAt: Option<int>)

  datatype CampaignState = Running | Paused | Finished | Stopped

  /** `endedAt` is set with the report; an `approvedAt` of 0 is a backup's, not started since. */
  datatype Campaign = Campaign(
    kind: Kind, times: nat, gapMinutes: nat, replyDeadline: int, state: CampaignState, faults: nat,
    createdAt: int, approvedAt: int, endedAt: Option<int>, people: seq<Person>)

  datatype Entry =
    | Rang(c: nat, p: nat, number: Number, at: int)
    | Texted(c: nat, p: nat, n: nat, number: Number, at: int)
    | TextFailed(c: nat, p: nat, n: nat)
    | Reported(c: nat)

  /** The day's dials and the limit on them, from the answer to the latest dial. */
  datatype Dials = Dials(day: int, count: int, max: int)

  datatype World = World(campaigns: seq<Campaign>, doNotContact: seq<Number>, dials: Option<Dials>, trace: seq<Entry>)

  predicate Final(s: PersonState) {
    s == Done || s == Skipped
  }

  /** A call to them is ringing or going on. */
  predicate Live(s: PersonState) {
    s == Dialling || s == Ringing || s == OnCall
  }

  predicate IsAt(w: World, c: nat, p: nat) {
    c < |w.campaigns| && p < |w.campaigns[c].people|
  }

  function SetCampaign(w: World, c: nat, to: Campaign): World
    requires c < |w.campaigns|
  {
    w.(campaigns := w.campaigns[c := to])
  }

  function SetIn(c: Campaign, p: nat, to: Person): Campaign
    requires p < |c.people|
  {
    c.(people := c.people[p := to])
  }

  function SetPerson(w: World, c: nat, p: nat, to: Person): World
    requires IsAt(w, c, p)
  {
    SetCampaign(w, c, SetIn(w.campaigns[c], p, to))
  }

  function Log(w: World, e: Entry): World {
    w.(trace := w.trace + [e])
  }

  // ---- Settling a person --------------------------------------------------------------

  function Settle(p: Person, outcome: Outcome, now: int): Person {
    p.(state := if outcome == LeftOut then Skipped else Done, outcome := Some(outcome), doneAt := Some(now))
  }

  /** Waiting for a retry while fewer than `times` + 1 were made, and otherwise settled. */
  function RetryOr(times: nat, gap: nat, p: Person, outcome: Outcome, now: int): Person {
    if p.tries < times + 1 then p.(state := Waiting, nextAt := now + Minutes(gap), outcome := None)
    else Settle(p, outcome, now)
  }

  /** Queued again in a minute, the try given back. */
  function GiveBack(p: Person, now: int): Person {
    p.(tries := if p.tries > 0 then p.tries - 1 else 0, state := Queued, nextAt := now + Minutes(1), attempt := None)
  }

  /** What was recorded, now that their call is over. */
  function ApplyResult(times: nat, gap: nat, p: Person, now: int): Person {
    var outcome := if p.outcome.Some? then p.outcome.value else Unclear;
    if outcome == Voicemail && p.tries < times + 1 then RetryOr(times, gap, p, Voicemail, now)
    else if outcome == CallbackRequested && !p.callBackUsed && p.callBackAt.Some? && p.callBackAt.value > now then
      p.(callBackUsed := true, tries := if p.tries > 0 then p.tries - 1 else 0, state := Waiting, nextAt := p.callBackAt.value, outcome := None)
    else Settle(p, outcome, now)
  }

  function PauseFor(c: Campaign): Campaign {
    if c.state == Running then c.(state := Paused) else c
  }

  /** What the end of the call makes of its person, the attempt's end and any recorded result being known. */
  function SettleCall(c: Campaign, i: nat, now: int): Campaign
    requires i < |c.people| && c.people[i].attempt.Some? && c.people[i].attempt.value.ended.Some?
  {
    var p := c.people[i];
    var a, end := p.attempt.value, p.attempt.value.ended.value;
    if end.reason == Cancelled && !a.hungUp && !a.bound then
      var d := SetIn(c, i, GiveBack(p, now)).(faults := c.faults + 1);
      if d.faults >= 2 then PauseFor(d) else d
    else if end.reason == DeviceLost then SetIn(c, i, GiveBack(p, now))
    else if end.outcome == CallCompleted then
      var d := c.(faults := 0);
      if a.recorded then SetIn(d, i, ApplyResult(c.times, c.gapMinutes, p, now))
      else if !a.bound && !a.hungUp && end.reason != Lost then SetIn(d, i, Settle(p, Unclear, now))
      else SetIn(d, i, p.(state := Ended, attempt := Some(a.(askedAt := if a.askedAt.Some? then a.askedAt else Some(now)))))
    else if end.outcome == CallNotAnswered then SetIn(c, i, RetryOr(c.times, c.gapMinutes, p, NoAnswer, now))
    else if p.failed then SetIn(c, i, Settle(p, Unreachable, now))
    else SetIn(c, i, p.(failed := true, state := Waiting, nextAt := now + Minutes(if c.gapMinutes > 5 then c.gapMinutes else 5)))
  }

  /** A text that may have gone is never sent again: their reply is waited for. */
  function MayHaveGone(p: Person): Person
    requires p.attempt.Some?
  {
    var a := p.attempt.value;
    p.(state := AwaitingReply, unconfirmed := true, attempt := Some(a.(sentAt := if a.sentAt.Some? then a.sentAt else Some(a.at))))
  }

  // ---- What has waited too long -----------------------------------------------------------

  /** One person of `overdue`: `live` and `heard` are what the conversations say of their call. */
  function OverdueOne(c: Campaign, i: nat, now: int, live: bool, heard: bool): Campaign
    requires i < |c.people|
  {
    var p := c.people[i];
    if p.attempt.None? then c
    else
      var a := p.attempt.value;
      if c.kind == Calls && Live(p.state) && now - a.at > DIAL_LOST && !(a.callId.Some? && live) then
        var end := EndOfCall(if heard then CallCompleted else CallNotAnswered, Lost, now);
        SettleCall(SetIn(c, i, p.(attempt := Some(a.(ended := Some(end))))), i, now)
      else if p.state == Ended && !a.recorded && now - ResultSince(a) > AFTER_CALL then SetIn(c, i, Settle(p, Unclear, now))
      else
        var q := if p.state == Sending && now - a.at > SMS_ACK then MayHaveGone(p) else p;
        var since := if q.attempt.value.sentAt.Some? then q.attempt.value.sentAt.value else a.at;
        if q.state == AwaitingReply && c.replyDeadline != 0 && now - since > c.replyDeadline then SetIn(c, i, Settle(q, NoReply, now))
        else SetIn(c, i, q)
  }

  /** Since when a result is waited for. */
  function ResultSince(a: Attempt): int {
    if a.askedAt.Some? then a.askedAt.value else if a.ended.Some? then a.ended.value.at else a.at
  }

  /** What the conversations say of a person's call, by their place in the campaign. */
  datatype Overheard = Overheard(live: nat -> bool, heard: nat -> bool)

  /** The first `n` people looked at. */
  function OverdueFirst(c: Campaign, n: nat, now: int, said: Overheard): (d: Campaign)
    requires n <= |c.people|
    ensures |d.people| == |c.people|
  {
    if n == 0 then c else OverdueOne(OverdueFirst(c, n - 1, now, said), n - 1, now, said.live(n - 1), said.heard(n - 1))
  }

  function Overdue(w: World, c: nat, now: int, said: Overheard): World
    requires c < |w.campaigns|
  {
    SetCampaign(w, c, OverdueFirst(w.campaigns[c], |w.campaigns[c].people|, now, said))
  }

  // ---- Who is next ---------------------------------------------------------------------------

  /** A call of any campaign's is ringing or going on. */
  ghost predicate Busy(w: World) {
    exists c: nat, p: nat :: IsAt(w, c, p) && w.campaigns[c].kind == Calls && Live(w.campaigns[c].people[p].state)
  }

  function RunningSlots(w: World, kind: Kind, c: nat): seq<Slot>
    requires c <= |w.campaigns|
    decreases |w.campaigns| - c
  {
    if c == |w.campaigns| then []
    else
      (if w.campaigns[c].kind == kind && w.campaigns[c].state == Running then [Slot(c, 0, At(w.campaigns[c].createdAt))] else [])
      + RunningSlots(w, kind, c + 1)
  }

  function LanesOf(s: seq<Slot>): seq<nat> {
    if s == [] then [] else [s[0].lane] + LanesOf(s[1..])
  }

  /** The running campaigns of a kind, the oldest first. */
  function RunningByAge(w: World, kind: Kind): seq<nat> {
    LanesOf(StableSort(RunningSlots(w, kind, 0)))
  }

  predicate IsDue(kind: Kind, p: Person, now: int) {
    (p.state == Queued || (kind == Calls && p.state == Waiting)) && p.nextAt <= now
  }

  function DueIn(w: World, c: nat, p: nat, now: int): seq<(nat, nat)>
    requires c < |w.campaigns| && p <= |w.campaigns[c].people|
    decreases |w.campaigns[c].people| - p
  {
    if p == |w.campaigns[c].people| then []
    else (if IsDue(w.campaigns[c].kind, w.campaigns[c].people[p], now) then [(c, p)] else []) + DueIn(w, c, p + 1, now)
  }

  function DueOf(w: World, running: seq<nat>, now: int): seq<(nat, nat)>
    requires forall i :: 0 <= i < |running| ==> running[i] < |w.campaigns|
  {
    if running == [] then [] else DueIn(w, running[0], 0, now) + DueOf(w, running[1..], now)
  }

  predicate DueThere(w: World, due: seq<(nat, nat)>) {
    forall i :: 0 <= i < |due| ==> due[i].0 < |w.campaigns| && due[i].1 < |w.campaigns[due[i].0].people|
  }

  predicate Listed(list: seq<Number>, number: Number, same: (Number, Number) -> bool) {
    exists i :: 0 <= i < |list| && same(list[i], number)
  }

  // ---- Ringing --------------------------------------------------------------------------------

  datatype Refusal = QuietHours | DailyCap | InProgress | OutboundOff | NoPhone | BadNumber | OtherRefusal
  datatype DialReply = Dialled(callId: Option<Id>, operationId: Option<Id>, today: Option<Dials>) | Refused(why: Refusal, retryAt: int)

  /**
   * What a look for the next dial finds: whether this page answers the phone's
   * calls, the line, a missed call to ring back first, the phone's settings
   * (none: it did not say), where calls go, which campaigns are within their
   * hours, who the phone's screening keeps from being rung, and the phone's
   * answer to the dial.
   */
  datatype DialLook = DialLook(
    now: int, day: int, phone: bool, lineFree: bool, callbackFirst: bool, outbound: Option<bool>, route: Option<bool>,
    inHours: nat -> bool, barred: Number -> bool, reply: DialReply)

  /** The phone's answer to a dial. */
  function Answered(c: Campaign, i: nat, n: nat, reply: DialReply, now: int): Campaign
    requires i < |c.people|
  {
    var a := Attempt(n, now, None, None, None, None, None, false, false, false, None, None, false);
    var p := c.people[i].(state := Dialling, attempt := Some(a));
    match reply
    case Dialled(callId, operationId, _) =>
      SetIn(c, i, p.(attempt := Some(a.(callId := callId, operationId := operationId)), tries := n))
    case Refused(why, retryAt) =>
      var back := p.(state := Queued, attempt := None);
      match why
      case QuietHours => SetIn(c, i, back.(nextAt := retryAt))
      case DailyCap => SetIn(c, i, back.(nextAt := retryAt))
      case InProgress => SetIn(c, i, back.(nextAt := now + Minutes(1)))
      case OutboundOff => PauseFor(SetIn(c, i, back.(nextAt := now)))
      case NoPhone => SetIn(c, i, back.(nextAt := now + Minutes(1)))
      case BadNumber => SetIn(c, i, Settle(p.(tries := p.tries + 1), InvalidNumber, now))
      case OtherRefusal => SetIn(c, i, RetryOr(c.times, c.gapMinutes, p.(tries := p.tries + 1), Unreachable, now))
  }

  /** Whatever the answer, no one else of the campaign is touched. */
  lemma AnsweredIs(it: Campaign, i: nat, n: nat, reply: DialReply, now: int)
    requires i < |it.people|
    ensures
      var d := Answered(it, i, n, reply, now);
      |d.people| == |it.people| && (d == SetIn(it, i, d.people[i]) || d == PauseFor(SetIn(it, i, d.people[i])))
  {
    hide Settle, RetryOr;
    var d := Answered(it, i, n, reply, now);
    assert d.people == it.people[i := d.people[i]];
  }

  function Place(w: World, c: nat, p: nat, look: DialLook): World
    requires IsAt(w, c, p)
  {
    var who := w.campaigns[c].people[p];
    var w' := SetCampaign(w, c, Answered(w.campaigns[c], p, who.tries + 1, look.reply, look.now));
    Log(w'.(dials := if look.reply.Dialled? && look.reply.today.Some? then look.reply.today else w.dials), Rang(c, p, who.number, look.now))
  }

  /** Down those due, until one is rung: out of hours they are passed over, and screened again they may be skipped. */
  function DialDue(w: World, due: seq<(nat, nat)>, look: DialLook, same: (Number, Number) -> bool): World
    requires DueThere(w, due)
    decreases |due|
  {
    if due == [] then w
    else
      var (c, p) := due[0];
      var who := w.campaigns[c].people[p];
      if !look.inHours(c) then DialDue(w, due[1..], look, same)
      else if look.barred(who.number) || Listed(w.doNotContact, who.number, same) then
        DialDue(SetPerson(w, c, p, Settle(who, LeftOut, look.now)), due[1..], look, same)
      else Place(w, c, p, look)
  }

  function PauseAll(w: World, running: seq<nat>): World
    requires forall i :: 0 <= i < |running| ==> running[i] < |w.campaigns|
    decreases |running|
  {
    if running == [] then w else PauseAll(SetCampaign(w, running[0], PauseFor(w.campaigns[running[0]])), running[1..])
  }

  /** A look for whom to dial: the guards in turn, then down those due. */
  ghost function Dial(w: World, look: DialLook, same: (Number, Number) -> bool): World {
    var running := RunningByAge(w, Calls);
    RunningAreThere(w, Calls);
    var due := DueOf(w, running, look.now);
    DueAreThere(w, Calls, running, look.now);
    if running == [] || Busy(w) || !look.phone || due == [] || !look.lineFree || look.callbackFirst then w
    else if look.outbound == Some(false) then PauseAll(w, running)
    else if w.dials.Some? && w.dials.value.day == look.day && w.dials.value.count >= w.dials.value.max then w
    else if look.route == Some(false) then PauseAll(w, running)
    else if look.route.None? then w
    else DialDue(w, due, look, same)
  }

  // ---- Texting ----------------------------------------------------------------------------------

  datatype TextReply = Taken | InDoubt | BadRecipient | OtherError

  datatype TextLook = TextLook(now: int, phone: bool, inHours: nat -> bool, barred: Number -> bool, reply: TextReply)

  /** The people whose last text went within `span` of now: by every campaign, running or not. */
  ghost function Recent(w: World, now: int, span: int): set<(nat, nat)> {
    set c, p | 0 <= c < |w.campaigns| && 0 <= p < |w.campaigns[c].people| && TextedWithin(w.campaigns[c], p, now, span) :: (c, p)
  }

  predicate TextedWithin(c: Campaign, p: nat, now: int, span: int)
    requires p < |c.people|
  {
    c.kind == Texts && c.people[p].attempt.Some? && c.people[p].attempt.value.at != 0 && now - c.people[p].attempt.value.at < span
  }

  /** Whether a text may go now: 20 seconds after the last, under 40 an hour and 200 a day. */
  ghost predicate MayText(w: World, now: int) {
    && now >= TEXT_GAP
    && (forall c: nat, p: nat :: IsAt(w, c, p) && TextedWithin(w.campaigns[c], p, now, DAY) ==> now - w.campaigns[c].people[p].attempt.value.at >= TEXT_GAP)
    && |Recent(w, now, HOUR)| < TEXTS_PER_HOUR
    && |Recent(w, now, DAY)| < TEXTS_PER_DAY
  }

  /** Text them: the phone's answer decides what happens next. */
  function Send(w: World, c: nat, p: nat, look: TextLook): World
    requires IsAt(w, c, p)
  {
    var who := w.campaigns[c].people[p];
    var n := who.tries + 1;
    var failedOnce := who.attempt.Some? && who.attempt.value.failedOnce;
    var a := Attempt(n, look.now, None, None, None, Some(MessageId(c, p, n)), None, false, false, false, None, None, failedOnce);
    var q := who.(state := Sending, tries := n, attempt := Some(a));
    var w' := Log(w, Texted(c, p, n, who.number, look.now));
    if who.number == TEST then SetPerson(w', c, p, q.(state := AwaitingReply, attempt := Some(a.(sentAt := Some(look.now)))))
    else
      match look.reply
      case Taken => SetPerson(w', c, p, q)
      case InDoubt => SetPerson(w', c, p, MayHaveGone(q))
      case BadRecipient => SetPerson(w', c, p, Settle(q, InvalidNumber, look.now))
      case OtherError => TextDidFail(SetPerson(w', c, p, q), c, p, look.now)
  }

  /** The text failed: once more in five minutes, and no more. */
  function TextDidFail(w: World, c: nat, p: nat, now: int): World
    requires IsAt(w, c, p) && w.campaigns[c].people[p].attempt.Some?
  {
    var who := w.campaigns[c].people[p];
    var a := who.attempt.value;
    Log(SetPerson(w, c, p,
          if !a.failedOnce then who.(state := Queued, nextAt := now + Minutes(5), attempt := Some(a.(failedOnce := true)))
          else Settle(who, Unreachable, now)),
        TextFailed(c, p, a.n))
  }

  /** The text, and its failure when the phone says at once it failed. */
  function SentEntries(c: nat, p: nat, n: nat, number: Number, now: int, failed: bool): seq<Entry> {
    [Texted(c, p, n, number, now)] + if failed then [TextFailed(c, p, n)] else []
  }

  /** What is done of a text to them: it goes, and it may fail at once. */
  function TextEntries(who: Person, c: nat, p: nat, look: TextLook): seq<Entry> {
    SentEntries(c, p, who.tries + 1, who.number, look.now, who.number != TEST && look.reply.OtherError?)
  }

  lemma SentEntriesAre(w: World, c: nat, p: nat, look: TextLook)
    requires IsAt(w, c, p)
    ensures Send(w, c, p, look).trace == w.trace + TextEntries(w.campaigns[c].people[p], c, p, look)
  {
    hide Settle;
  }

  function TextDue(w: World, due: seq<(nat, nat)>, look: TextLook, same: (Number, Number) -> bool): World
    requires DueThere(w, due)
    decreases |due|
  {
    if due == [] then w
    else
      var (c, p) := due[0];
      var who := w.campaigns[c].people[p];
      if !look.inHours(c) then TextDue(w, due[1..], look, same)
      else if who.number != TEST && (look.barred(who.number) || Listed(w.doNotContact, who.number, same)) then
        TextDue(SetPerson(w, c, p, Settle(who, LeftOut, look.now)), due[1..], look, same)
      else Send(w, c, p, look)
  }

  /** A look for whom to text: the guards in turn, then down those due. */
  ghost function Text(w: World, look: TextLook, same: (Number, Number) -> bool): World {
    var running := RunningByAge(w, Texts);
    RunningAreThere(w, Texts);
    var due := DueOf(w, running, look.now);
    DueAreThere(w, Texts, running, look.now);
    if running == [] || due == [] || !look.phone || !MayText(w, look.now) then w
    else TextDue(w, due, look, same)
  }

  // ---- What the phone says -----------------------------------------------------------------------

  datatype Key = ByCall(id: Id) | ByCallOrVoice(id: Id) | ByOperation(id: Id) | ByMessage(message: MessageId)

  predicate Matches(a: Attempt, key: Key) {
    match key
    case ByCall(id) => a.callId == Some(id)
    case ByCallOrVoice(id) => a.callId == Some(id) || a.voiceCallId == Some(id)
    case ByOperation(id) => a.operationId == Some(id)
    case ByMessage(m) => a.messageId == Some(m)
  }

  predicate IsHit(w: World, c: nat, p: nat, key: Key) {
    IsAt(w, c, p) && w.campaigns[c].people[p].attempt.Some? && Matches(w.campaigns[c].people[p].attempt.value, key)
  }

  /** The first person, campaign by campaign from `c` on, whose attempt matches. */
  function FindFrom(w: World, key: Key, c: nat, p: nat): (r: Option<(nat, nat)>)
    requires c < |w.campaigns| ==> p <= |w.campaigns[c].people|
    requires c <= |w.campaigns|
    ensures r.Some? ==> IsHit(w, r.value.0, r.value.1, key)
    decreases |w.campaigns| - c, if c < |w.campaigns| then |w.campaigns[c].people| - p else 0
  {
    if c == |w.campaigns| then None
    else if p == |w.campaigns[c].people| then FindFrom(w, key, c + 1, 0)
    else if IsHit(w, c, p, key) then Some((c, p))
    else FindFrom(w, key, c, p + 1)
  }

  function ByAttempt(w: World, key: Key): (r: Option<(nat, nat)>)
    ensures r.Some? ==> IsHit(w, r.value.0, r.value.1, key)
  {
    FindFrom(w, key, 0, 0)
  }

  datatype Event =
    | CallDialling(call: Id)
    | CallRinging(call: Id)
    | CallAnswered(call: Id)
    | CallEnded(call: Id, outcome: CallOutcome, reason: Reason)
    | DialFailed(operation: Id)
    | TextSent(message: MessageId)
    | TextRefused(message: MessageId)
    | TextLost(message: MessageId, unknown: bool)

  function OnEvent(w: World, e: Event, now: int): World {
    match e
    case CallDialling(_) => w
    case CallRinging(call) => OnRing(w, call, Ringing)
    case CallAnswered(call) => OnRing(w, call, OnCall)
    case CallEnded(call, outcome, reason) => OnEnded(w, call, EndOfCall(outcome, reason, now), now)
    case DialFailed(operation) => OnDialFailed(w, operation, now)
    case TextSent(m) => OnTextSent(w, m, now)
    case TextRefused(_) => w
    case TextLost(m, unknown) => OnTextLost(w, m, unknown, now)
  }

  function OnRing(w: World, call: Id, to: PersonState): World {
    var hit := ByAttempt(w, ByCall(call));
    if hit.None? then w
    else
      var (c, p) := hit.value;
      var who := w.campaigns[c].people[p];
      if Final(who.state) || who.state == Ended then w else SetPerson(w, c, p, who.(state := to))
  }

  function OnEnded(w: World, call: Id, end: EndOfCall, now: int): World {
    var hit := ByAttempt(w, ByCall(call));
    if hit.None? then w
    else
      var (c, p) := hit.value;
      var who := w.campaigns[c].people[p];
      if who.attempt.value.ended.Some? || Final(who.state) then w
      else SetCampaign(w, c, SettleCall(SetIn(w.campaigns[c], p, who.(attempt := Some(who.attempt.value.(ended := Some(end))))), p, now))
  }

  function OnDialFailed(w: World, operation: Id, now: int): World {
    var hit := ByAttempt(w, ByOperation(operation));
    if hit.None? then w
    else
      var (c, p) := hit.value;
      var who := w.campaigns[c].people[p];
      if who.attempt.value.ended.Some? || Final(who.state) then w else SetPerson(w, c, p, GiveBack(who, now))
  }

  function OnTextSent(w: World, m: MessageId, now: int): World {
    var hit := ByAttempt(w, ByMessage(m));
    if hit.None? then w
    else
      var (c, p) := hit.value;
      var who := w.campaigns[c].people[p];
      if !(who.state == Sending || (who.state == AwaitingReply && who.unconfirmed)) then w
      else SetPerson(w, c, p, who.(state := AwaitingReply, attempt := Some(who.attempt.value.(sentAt := Some(now))), unconfirmed := false))
  }

  function OnTextLost(w: World, m: MessageId, unknown: bool, now: int): World {
    var hit := ByAttempt(w, ByMessage(m));
    if hit.None? then w
    else
      var (c, p) := hit.value;
      var who := w.campaigns[c].people[p];
      if Final(who.state) then w
      else if unknown then SetPerson(w, c, p, MayHaveGone(who))
      else TextDidFail(w, c, p, now)
  }

  // ---- The agents' side ----------------------------------------------------------------------------

  /** The first person from `c`, `p` on of a call campaign, being rung, who is the same as `number`. */
  function FindRung(w: World, number: Number, same: (Number, Number) -> bool, c: nat, p: nat): (r: Option<(nat, nat)>)
    requires c < |w.campaigns| ==> p <= |w.campaigns[c].people|
    requires c <= |w.campaigns|
    ensures r.Some? ==> IsAt(w, r.value.0, r.value.1) && w.campaigns[r.value.0].kind == Calls && Live(w.campaigns[r.value.0].people[r.value.1].state)
    decreases |w.campaigns| - c, if c < |w.campaigns| then |w.campaigns[c].people| - p else 0
  {
    if c == |w.campaigns| then None
    else if w.campaigns[c].kind != Calls || p == |w.campaigns[c].people| then FindRung(w, number, same, c + 1, 0)
    else if Live(w.campaigns[c].people[p].state) && same(w.campaigns[c].people[p].number, number) then Some((c, p))
    else FindRung(w, number, same, c, p + 1)
  }

  /** The voice's own call id is noted with an attempt: the one of that call, or else of someone with that number being rung. */
  function ForCall(w: World, call: Id, number: Number, same: (Number, Number) -> bool): World {
    var hit := ByAttempt(w, ByCallOrVoice(call));
    if hit.Some? then BindTo(w, hit.value.0, hit.value.1, None)
    else if number == "" then w
    else
      var rung := FindRung(w, number, same, 0, 0);
      if rung.Some? && w.campaigns[rung.value.0].people[rung.value.1].attempt.Some? then BindTo(w, rung.value.0, rung.value.1, Some(call)) else w
  }

  function BindTo(w: World, c: nat, p: nat, voice: Option<Id>): World
    requires IsAt(w, c, p) && w.campaigns[c].people[p].attempt.Some?
  {
    var who := w.campaigns[c].people[p];
    var a := who.attempt.value;
    SetPerson(w, c, p, who.(
      attempt := Some(a.(bound := true, voiceCallId := if voice.Some? then voice else a.voiceCallId)),
      state := if who.state == Dialling || who.state == Ringing then OnCall else who.state))
  }

  /** The voice says a placed call ended: its agent may be asked for the result. */
  function VoiceEnded(w: World, c: nat, p: nat, now: int): World
    requires IsAt(w, c, p)
  {
    var who := w.campaigns[c].people[p];
    if who.attempt.None? || who.attempt.value.recorded then w
    else
      var a := who.attempt.value;
      SetPerson(w, c, p, who.(attempt := Some(a.(askedAt := if a.askedAt.Some? then a.askedAt else Some(now)))))
  }

  function HangingUp(w: World, c: nat, p: nat): World
    requires IsAt(w, c, p)
  {
    var who := w.campaigns[c].people[p];
    if who.attempt.None? then w else SetPerson(w, c, p, who.(attempt := Some(who.attempt.value.(hungUp := true))))
  }

  function AddDoNotContact(w: World, number: Number, kept: Number, same: (Number, Number) -> bool): World {
    if number == TEST || Listed(w.doNotContact, number, same) then w else w.(doNotContact := w.doNotContact + [kept])
  }

  /** What record_result makes of a person (their call or texts being `c`'s). */
  function Recorded(c: Campaign, i: nat, outcome: Outcome, callBackAt: Option<int>, now: int): Campaign
    requires i < |c.people|
  {
    var p := c.people[i].(callBackAt := if outcome == CallbackRequested && callBackAt.Some? then callBackAt else c.people[i].callBackAt);
    if p.state == Done then SetIn(c, i, p.(outcome := Some(outcome), late := true))
    else
      var q := p.(outcome := Some(outcome), attempt := if p.attempt.Some? then Some(p.attempt.value.(recorded := true)) else None);
      if c.kind == Texts then SetIn(c, i, Settle(q, outcome, now))
      else if q.state == Ended then SetIn(c, i, ApplyResult(c.times, c.gapMinutes, q, now))
      else if q.attempt.None? && (q.state == Queued || q.state == Waiting) then SetIn(c, i, Settle(q, outcome, now))
      else SetIn(c, i, q)
  }

  /** The outcomes an agent may record. */
  predicate MayRecord(kind: Kind, outcome: Outcome) {
    outcome in {Completed, Partial, Declined, WrongNumber, OptedOut} || (kind == Calls && outcome in {CallbackRequested, Voicemail})
  }

  /** `kept` is the number as the list keeps it (its E.164 form when it has one). */
  function Record(w: World, c: nat, p: nat, outcome: Outcome, callBackAt: Option<int>, kept: Number, now: int, same: (Number, Number) -> bool): World
    requires IsAt(w, c, p)
  {
    if !MayRecord(w.campaigns[c].kind, outcome) then w
    else
      var w' := if outcome == OptedOut then AddDoNotContact(w, w.campaigns[c].people[p].number, kept, same) else w;
      SetCampaign(w', c, Recorded(w.campaigns[c], p, outcome, callBackAt, now))
  }

  /** One person of `stopWord`. */
  predicate StopsFor(p: Person, number: Number, same: (Number, Number) -> bool) {
    p.attempt.Some? && (p.number == number || (p.number != TEST && same(p.number, number)))
  }

  function Stop1(p: Person, number: Number, now: int, same: (Number, Number) -> bool): Person {
    if !StopsFor(p, number, same) then p
    else if p.state == Done then p.(outcome := Some(OptedOut), late := true)
    else Settle(p, OptedOut, now)
  }

  function StopPeople(people: seq<Person>, number: Number, now: int, same: (Number, Number) -> bool): (r: seq<Person>)
    ensures |r| == |people|
    ensures forall i :: 0 <= i < |people| ==> r[i] == Stop1(people[i], number, now, same)
  {
    seq(|people|, i requires 0 <= i < |people| => Stop1(people[i], number, now, same))
  }

  function StopIn(c: Campaign, number: Number, now: int, same: (Number, Number) -> bool): Campaign {
    if c.kind == Texts then c.(people := StopPeople(c.people, number, now, same)) else c
  }

  function StopAllIn(cs: seq<Campaign>, number: Number, now: int, same: (Number, Number) -> bool): (r: seq<Campaign>)
    ensures |r| == |cs|
    ensures forall i :: 0 <= i < |cs| ==> r[i] == StopIn(cs[i], number, now, same)
  {
    seq(|cs|, i requires 0 <= i < |cs| => StopIn(cs[i], number, now, same))
  }

  ghost predicate StopFinds(w: World, number: Number, same: (Number, Number) -> bool) {
    exists c: nat, p: nat :: IsAt(w, c, p) && w.campaigns[c].kind == Texts && StopsFor(w.campaigns[c].people[p], number, same)
  }

  /** A stop word from `number`: those of that person in every text campaign settled, and the number listed if there was one. */
  ghost function StopWord(w: World, number: Number, kept: Number, now: int, same: (Number, Number) -> bool): World {
    var w' := w.(campaigns := StopAllIn(w.campaigns, number, now, same));
    if StopFinds(w, number, same) then AddDoNotContact(w', number, kept, same) else w'
  }

  // ---- The person's side -----------------------------------------------------------------------------

  function NewPerson(number: Number): Person {
    Person(number, Queued, 0, 0, None, None, None, false, false, false, false, None)
  }

  function NewPeople(numbers: seq<Number>): (r: seq<Person>)
    ensures |r| == |numbers|
    ensures forall i :: 0 <= i < |numbers| ==> r[i] == NewPerson(numbers[i])
  {
    seq(|numbers|, i requires 0 <= i < |numbers| => NewPerson(numbers[i]))
  }

  /** An approved plan, started: a campaign of texts has no retries. */
  function Create(w: World, kind: Kind, times: nat, gap: nat, replyDeadline: int, numbers: seq<Number>, now: int): World {
    w.(campaigns := w.campaigns + [Campaign(kind, if kind == Texts then 0 else times, gap, replyDeadline, Running, 0, now, now, None, NewPeople(numbers))])
  }

  function Pause(w: World, c: nat): World
    requires c < |w.campaigns|
  {
    SetCampaign(w, c, PauseFor(w.campaigns[c]))
  }

  function Resume(w: World, c: nat, byAgent: bool, now: int): World
    requires c < |w.campaigns|
  {
    var it := w.campaigns[c];
    if it.state != Paused || (it.approvedAt == 0 && byAgent) then w
    else SetCampaign(w, c, it.(state := Running, faults := 0, approvedAt := if it.approvedAt == 0 then now else it.approvedAt))
  }

  function End1(p: Person, now: int): Person {
    if Final(p.state) || Live(p.state) || p.state == Ended then p
    else Settle(p, if p.state == AwaitingReply || p.state == Sending then NoReply else CutShort, now)
  }

  function EndPeople(people: seq<Person>, now: int): (r: seq<Person>)
    ensures |r| == |people|
    ensures forall i :: 0 <= i < |people| ==> r[i] == End1(people[i], now)
  {
    seq(|people|, i requires 0 <= i < |people| => End1(people[i], now))
  }

  /** Stopped by the person: those not contacted yet are settled; then its report, once no call of it goes on. */
  function End(w: World, c: nat, now: int): World
    requires c < |w.campaigns|
  {
    var it := w.campaigns[c];
    if it.state == Finished || it.state == Stopped then w
    else FinishIfDone(SetCampaign(w, c, it.(people := EndPeople(it.people, now), state := Stopped)), c, now, true)
  }

  predicate HasLive(c: Campaign) {
    exists p :: 0 <= p < |c.people| && (Live(c.people[p].state) || c.people[p].state == Ended)
  }

  predicate AllFinal(c: Campaign) {
    forall p :: 0 <= p < |c.people| ==> Final(c.people[p].state)
  }

  /** The campaign ended and reported, where nothing of it is left to do and it was not before. */
  function FinishIfDone(w: World, c: nat, now: int, force: bool): World
    requires c < |w.campaigns|
  {
    var it := w.campaigns[c];
    if it.endedAt.Some? || (it.approvedAt == 0 && !force) then w
    else if !(AllFinal(it) || (force && !HasLive(it)) || (it.state == Stopped && !HasLive(it))) then w
    else Log(SetCampaign(w, c, it.(state := if it.state == Stopped then Stopped else Finished, endedAt := Some(now))), Reported(c))
  }

  // ---- Those who are next are there -----------------------------------------------------------------------

  lemma {:induction false} SlotsAreThere(w: World, kind: Kind, c: nat)
    requires c <= |w.campaigns|
    ensures forall e :: e in RunningSlots(w, kind, c) ==> e.lane < |w.campaigns| && w.campaigns[e.lane].kind == kind && w.campaigns[e.lane].state == Running
    decreases |w.campaigns| - c
  {
    if c < |w.campaigns| {
      SlotsAreThere(w, kind, c + 1);
    }
  }

  lemma {:induction false} LanesAre(s: seq<Slot>)
    ensures |LanesOf(s)| == |s| && forall i :: 0 <= i < |s| ==> LanesOf(s)[i] == s[i].lane
  {
    if s != [] {
      LanesAre(s[1..]);
    }
  }

  lemma RunningAreThere(w: World, kind: Kind)
    ensures forall i :: 0 <= i < |RunningByAge(w, kind)| ==>
      var c := RunningByAge(w, kind)[i];
      c < |w.campaigns| && w.campaigns[c].kind == kind && w.campaigns[c].state == Running
  {
    var s := RunningSlots(w, kind, 0);
    SlotsAreThere(w, kind, 0);
    SortKeeps(s);
    var r := StableSort(s);
    LanesAre(r);
    forall i | 0 <= i < |r|
      ensures r[i] in s
    {
      assert r[i] in multiset(r);
    }
  }

  predicate DueFit(w: World, kind: Kind, due: seq<(nat, nat)>, now: int)
    requires DueThere(w, due)
  {
    forall i :: 0 <= i < |due| ==>
      && w.campaigns[due[i].0].kind == kind && w.campaigns[due[i].0].state == Running
      && IsDue(kind, w.campaigns[due[i].0].people[due[i].1], now)
  }

  lemma {:induction false} DueInFit(w: World, c: nat, p: nat, now: int)
    requires c < |w.campaigns| && p <= |w.campaigns[c].people|
    ensures forall i :: 0 <= i < |DueIn(w, c, p, now)| ==>
      && DueIn(w, c, p, now)[i].0 == c && p <= DueIn(w, c, p, now)[i].1 < |w.campaigns[c].people|
      && IsDue(w.campaigns[c].kind, w.campaigns[c].people[DueIn(w, c, p, now)[i].1], now)
    decreases |w.campaigns[c].people| - p
  {
    if p < |w.campaigns[c].people| {
      DueInFit(w, c, p + 1, now);
    }
  }

  lemma {:induction false} DueAreThere(w: World, kind: Kind, running: seq<nat>, now: int)
    requires forall i :: 0 <= i < |running| ==>
      running[i] < |w.campaigns| && w.campaigns[running[i]].kind == kind && w.campaigns[running[i]].state == Running
    ensures DueThere(w, DueOf(w, running, now)) && DueFit(w, kind, DueOf(w, running, now), now)
  {
    if running != [] {
      DueAreThere(w, kind, running[1..], now);
      DueInFit(w, running[0], 0, now);
    }
  }
}
