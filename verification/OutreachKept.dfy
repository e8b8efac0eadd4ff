/**
 * What every step of the outreach engine keeps of its people and campaigns
 * (app/src/outreach.ts): one call at a time, tries within bounds, and no one
 * live in a campaign that is over.
 */
module OutreachKept {
  import opened Options
  import opened Outreach

  // ---- What is kept of each person ---------------------------------------------------

  /** A person of a call campaign: a live call's end is not heard yet, and their tries are bounded. */
  ghost predicate CallPersonOk(times: nat, p: Person) {
    var more := if p.failed then 1 else 0;
    && p.state != Sending && p.state != AwaitingReply
    && (Live(p.state) ==> p.attempt.Some? && p.attempt.value.ended.None?)
    && (p.state == Ended ==> p.attempt.Some? && p.attempt.value.ended.Some?)
    && (p.state == Queued ==> p.attempt.None?)
    && (p.attempt.Some? ==>
      && p.attempt.value.messageId.None?
      && (p.attempt.value.ended.None? && (p.attempt.value.callId.Some? || p.attempt.value.operationId.Some? || p.attempt.value.voiceCallId.Some?)
          ==> Live(p.state) || Final(p.state)))
    && (p.state == Queued || p.state == Waiting ==> p.tries <= times + more)
    && (Live(p.state) || p.state == Ended ==> p.tries <= times + 1 + more)
    && p.tries <= times + 2
  }

  /** A person of a text campaign: one text, or two when the first failed. */
  ghost predicate TextPersonOk(c: nat, i: nat, p: Person) {
    && p.state in {Queued, Sending, AwaitingReply, Done, Skipped}
    && (p.attempt.None? ==> p.tries == 0 && p.state != Sending && p.state != AwaitingReply)
    && (p.attempt.Some? ==>
      var a := p.attempt.value;
      && a.callId.None? && a.operationId.None? && a.voiceCallId.None? && a.ended.None?
      && a.messageId == Some(MessageId(c, i, p.tries))
      && a.n == p.tries && 1 <= p.tries <= 2 && a.at > 0
      && (p.tries == 2 ==> a.failedOnce)
      && (p.state == Queued ==> a.failedOnce && p.tries == 1))
  }

  ghost predicate PersonOk(c: nat, it: Campaign, i: nat)
    requires i < |it.people|
  {
    if it.kind == Calls then CallPersonOk(it.times, it.people[i]) else TextPersonOk(c, i, it.people[i])
  }

  ghost predicate PeopleOk(w: World) {
    forall c: nat, i: nat :: c < |w.campaigns| && i < |w.campaigns[c].people| ==> PersonOk(c, w.campaigns[c], i)
  }

  ghost predicate LiveAt(w: World, c: nat, i: nat) {
    IsAt(w, c, i) && w.campaigns[c].kind == Calls && Live(w.campaigns[c].people[i].state)
  }

  /** At most one person over all campaigns is rung or on a call. */
  ghost predicate OneLive(w: World) {
    forall c: nat, i: nat, d: nat, j: nat :: LiveAt(w, c, i) && LiveAt(w, d, j) ==> c == d && i == j
  }

  ghost predicate CampaignOk(it: Campaign) {
    && (it.endedAt.Some? ==> (it.state == Finished || it.state == Stopped) && !HasLive(it))
    && (it.state == Finished ==> it.endedAt.Some? && AllFinal(it))
  }

  ghost predicate CampaignsOk(w: World) {
    forall c :: 0 <= c < |w.campaigns| ==> CampaignOk(w.campaigns[c])
  }

  ghost predicate Kept(w: World) {
    PeopleOk(w) && OneLive(w) && CampaignsOk(w)
  }

  // ---- Steps that ring and text no one ----------------------------------------------------

  /** What a step that rings and texts no one may make of a person. */
  ghost predicate PersonMoves(kind: Kind, p: Person, q: Person) {
    && q.number == p.number
    && (Final(p.state) ==> Final(q.state))
    && (Live(q.state) ==> Live(p.state))
    && (q.state == Ended ==> Live(p.state) || p.state == Ended)
    && (kind == Texts ==>
      && q.tries == p.tries && (q.attempt.Some? <==> p.attempt.Some?)
      && (p.attempt.Some? ==> q.attempt.value.at == p.attempt.value.at && q.attempt.value.failedOnce == p.attempt.value.failedOnce))
  }

  ghost predicate CampaignMoves(c: Campaign, d: Campaign) {
    && |d.people| == |c.people| && d.kind == c.kind && d.times == c.times && d.endedAt == c.endedAt
    && (c.state == Finished || c.state == Stopped ==> d.state == c.state)
    && (d.state == Finished ==> c.state == Finished)
    && forall i :: 0 <= i < |c.people| ==> PersonMoves(c.kind, c.people[i], d.people[i])
  }

  ghost predicate WorldMoves(w: World, w': World) {
    && |w'.campaigns| == |w.campaigns|
    && forall c :: 0 <= c < |w.campaigns| ==> CampaignMoves(w.campaigns[c], w'.campaigns[c])
  }

  lemma MovingKeeps(w: World, w': World)
    requires Kept(w) && WorldMoves(w, w') && PeopleOk(w')
    ensures Kept(w')
  {
    forall c: nat, i: nat | LiveAt(w', c, i)
      ensures LiveAt(w, c, i)
    {
      assert CampaignMoves(w.campaigns[c], w'.campaigns[c]);
      assert PersonMoves(w.campaigns[c].kind, w.campaigns[c].people[i], w'.campaigns[c].people[i]);
    }
    forall c | 0 <= c < |w'.campaigns|
      ensures CampaignOk(w'.campaigns[c])
    {
      assert CampaignMoves(w.campaigns[c], w'.campaigns[c]);
      assert CampaignOk(w.campaigns[c]);
      CampaignMovingKeeps(w.campaigns[c], w'.campaigns[c]);
    }
  }

  lemma CampaignMovingKeeps(c: Campaign, d: Campaign)
    requires CampaignMoves(c, d) && CampaignOk(c)
    ensures CampaignOk(d)
  {
    if HasLive(d) {
      var p :| 0 <= p < |d.people| && (Live(d.people[p].state) || d.people[p].state == Ended);
      assert PersonMoves(c.kind, c.people[p], d.people[p]);
      assert HasLive(c);
    }
    forall p | 0 <= p < |d.people| && AllFinal(c)
      ensures Final(d.people[p].state)
    {
      assert PersonMoves(c.kind, c.people[p], d.people[p]);
    }
  }

  /** One person of one campaign moves. */
  ghost predicate OneMoves(c: nat, it: Campaign, to: Campaign, i: nat)
    requires i < |it.people|
  {
    && |to.people| == |it.people| && to == it.(people := to.people, state := to.state, faults := to.faults)
    && to.people == it.people[i := to.people[i]]
    && (it.state == Finished || it.state == Stopped ==> to.state == it.state)
    && (to.state == Finished ==> it.state == Finished)
    && PersonMoves(it.kind, it.people[i], to.people[i])
    && PersonOk(c, to, i)
  }

  lemma OneMovingKeeps(w: World, c: nat, to: Campaign, i: nat)
    requires Kept(w) && c < |w.campaigns| && i < |w.campaigns[c].people| && OneMoves(c, w.campaigns[c], to, i)
    ensures WorldMoves(w, SetCampaign(w, c, to)) && Kept(SetCampaign(w, c, to))
  {
    var w' := SetCampaign(w, c, to);
    forall d | 0 <= d < |w.campaigns|
      ensures CampaignMoves(w.campaigns[d], w'.campaigns[d])
    {
    }
    forall d: nat, j: nat | d < |w'.campaigns| && j < |w'.campaigns[d].people|
      ensures PersonOk(d, w'.campaigns[d], j)
    {
      assert PersonOk(d, w.campaigns[d], j);
    }
    MovingKeeps(w, w');
  }

  // ---- Calls that end -------------------------------------------------------------------------

  /** A person whose call's end is heard, not settled yet. */
  ghost predicate EndHeard(times: nat, p: Person) {
    && p.attempt.Some? && p.attempt.value.ended.Some? && p.attempt.value.messageId.None?
    && p.tries <= times + 1 + (if p.failed then 1 else 0)
    && !Final(p.state)
  }

  /** What such a person becomes: not live, and kept. */
  ghost predicate Settles(times: nat, p: Person, q: Person) {
    q.number == p.number && !Live(q.state) && CallPersonOk(times, q)
  }

  lemma FinalSettles(times: nat, p: Person, outcome: Outcome, now: int)
    requires EndHeard(times, p)
    ensures Settles(times, p, Settle(p, outcome, now))
  {
  }

  lemma WaitingSettles(times: nat, p: Person, q: Person)
    requires EndHeard(times, p) && q.state == Waiting && q.number == p.number
    requires q.attempt == p.attempt && q.tries <= times + if q.failed then 1 else 0
    ensures Settles(times, p, q)
  {
  }

  lemma GivenBackSettles(times: nat, p: Person, now: int)
    requires EndHeard(times, p)
    ensures Settles(times, p, GiveBack(p, now))
  {
  }

  lemma RetrySettles(times: nat, gap: nat, p: Person, outcome: Outcome, now: int)
    requires EndHeard(times, p)
    ensures Settles(times, p, RetryOr(times, gap, p, outcome, now))
  {
    hide Settles, Settle;
    if p.tries < times + 1 {
      WaitingSettles(times, p, RetryOr(times, gap, p, outcome, now));
    } else {
      FinalSettles(times, p, outcome, now);
    }
  }

  lemma ResultSettles(times: nat, gap: nat, p: Person, now: int)
    requires EndHeard(times, p)
    ensures Settles(times, p, ApplyResult(times, gap, p, now))
  {
    hide Settles, Settle, RetryOr;
    var outcome := if p.outcome.Some? then p.outcome.value else Unclear;
    RetrySettles(times, gap, p, Voicemail, now);
    FinalSettles(times, p, outcome, now);
    if outcome == CallbackRequested && !p.callBackUsed && p.callBackAt.Some? && p.callBackAt.value > now {
      WaitingSettles(times, p, ApplyResult(times, gap, p, now));
    }
  }

  /** What settling a call may make of a campaign: one person settled, and it may be paused. */
  ghost predicate CampaignSettles(it: Campaign, to: Campaign, i: nat)
    requires i < |it.people|
  {
    && |to.people| == |it.people| && to == it.(people := to.people, state := to.state, faults := to.faults)
    && to.people == it.people[i := to.people[i]]
    && (to.state == it.state || (it.state == Running && to.state == Paused))
    && Settles(it.times, it.people[i], to.people[i])
  }

  lemma SetSettles(it: Campaign, i: nat, q: Person, state: CampaignState, faults: nat)
    requires i < |it.people| && Settles(it.times, it.people[i], q)
    requires state == it.state || (it.state == Running && state == Paused)
    ensures CampaignSettles(it, SetIn(it, i, q).(state := state, faults := faults), i)
  {
    hide Settles;
  }

  lemma CallSettles(it: Campaign, i: nat, now: int)
    requires i < |it.people| && EndHeard(it.times, it.people[i])
    ensures CampaignSettles(it, SettleCall(it, i, now), i)
  {
    hide CampaignSettles, Settles, GiveBack, ApplyResult, RetryOr, Settle;
    var p, a := it.people[i], it.people[i].attempt.value;
    var end, to := a.ended.value, SettleCall(it, i, now);
    assert to == SetIn(it, i, to.people[i]).(state := to.state, faults := to.faults);
    if end.reason == DeviceLost || (end.reason == Cancelled && !a.hungUp && !a.bound) {
      GivenBackSettles(it.times, p, now);
    } else if end.outcome == CallCompleted {
      CompletedSettles(it, i, now);
    } else if end.outcome == CallNotAnswered {
      RetrySettles(it.times, it.gapMinutes, p, NoAnswer, now);
    } else if p.failed {
      FinalSettles(it.times, p, Unreachable, now);
    } else {
      WaitingSettles(it.times, p, to.people[i]);
    }
    SetSettles(it, i, to.people[i], to.state, to.faults);
  }

  lemma CompletedSettles(it: Campaign, i: nat, now: int)
    requires i < |it.people| && EndHeard(it.times, it.people[i])
    requires
      var a := it.people[i].attempt.value;
      a.ended.value.outcome == CallCompleted && a.ended.value.reason != DeviceLost && !(a.ended.value.reason == Cancelled && !a.hungUp && !a.bound)
    ensures Settles(it.times, it.people[i], SettleCall(it, i, now).people[i])
  {
    hide ApplyResult, Settle;
    var p := it.people[i];
    ResultSettles(it.times, it.gapMinutes, p, now);
    FinalSettles(it.times, p, Unclear, now);
  }

  /** A live call's end is heard: what settles it is a move. */
  lemma SettlingMoves(c: nat, it: Campaign, i: nat, end: EndOfCall, now: int)
    requires i < |it.people| && it.people[i].attempt.Some? && it.kind == Calls
    requires PersonOk(c, it, i) && Live(it.people[i].state)
    ensures
      var heard := SetIn(it, i, it.people[i].(attempt := Some(it.people[i].attempt.value.(ended := Some(end)))));
      OneMoves(c, it, SettleCall(heard, i, now), i)
  {
    hide SettleCall;
    var heard := SetIn(it, i, it.people[i].(attempt := Some(it.people[i].attempt.value.(ended := Some(end)))));
    CallSettles(heard, i, now);
  }

  lemma OverdueMoves(c: nat, it: Campaign, i: nat, now: int, live: bool, heard: bool)
    requires i < |it.people| && PersonOk(c, it, i)
    ensures OneMoves(c, it, OverdueOne(it, i, now, live, heard), i)
  {
    hide SettleCall;
    var p := it.people[i];
    assert it.people == it.people[i := p];
    if p.attempt.None? {
    } else if it.kind == Calls && Live(p.state) {
      SettlingMoves(c, it, i, EndOfCall(if heard then CallCompleted else CallNotAnswered, Lost, now), now);
    } else if p.state == Ended {
    } else {
      TextOverdueMoves(c, it, i, now, live, heard);
    }
  }

  lemma TextOverdueMoves(c: nat, it: Campaign, i: nat, now: int, live: bool, heard: bool)
    requires i < |it.people| && PersonOk(c, it, i)
    requires it.people[i].attempt.Some? && it.people[i].state != Ended && !(it.kind == Calls && Live(it.people[i].state))
    ensures OneMoves(c, it, OverdueOne(it, i, now, live, heard), i)
  {
    hide SettleCall;
    assert it.people == it.people[i := it.people[i]];
  }

  lemma {:induction false} OverdueKeeps(w: World, c: nat, n: nat, now: int, said: Overheard)
    requires Kept(w) && c < |w.campaigns| && n <= |w.campaigns[c].people|
    ensures
      var w' := SetCampaign(w, c, OverdueFirst(w.campaigns[c], n, now, said));
      WorldMoves(w, w') && Kept(w')
  {
    hide WorldMoves, CampaignMoves, OverdueOne, PersonOk;
    if n == 0 {
      assert SetCampaign(w, c, w.campaigns[c]) == w;
      NoMove(w);
    } else {
      OverdueKeeps(w, c, n - 1, now, said);
      var it := OverdueFirst(w.campaigns[c], n - 1, now, said);
      var w1 := SetCampaign(w, c, it);
      assert PersonOk(c, w1.campaigns[c], n - 1);
      OverdueMoves(c, it, n - 1, now, said.live(n - 1), said.heard(n - 1));
      var to := OverdueFirst(w.campaigns[c], n, now, said);
      OneMovingKeeps(w1, c, to, n - 1);
      assert SetCampaign(w1, c, to) == SetCampaign(w, c, to);
      MovesJoin(w, w1, SetCampaign(w, c, to));
    }
  }

  lemma NoMove(w: World)
    ensures WorldMoves(w, w)
  {
  }

  lemma MovesJoin(w: World, w1: World, w2: World)
    requires WorldMoves(w, w1) && WorldMoves(w1, w2)
    ensures WorldMoves(w, w2)
  {
    forall c | 0 <= c < |w.campaigns|
      ensures CampaignMoves(w.campaigns[c], w2.campaigns[c])
    {
      var a, b, d := w.campaigns[c], w1.campaigns[c], w2.campaigns[c];
      assert CampaignMoves(a, b) && CampaignMoves(b, d);
      forall i | 0 <= i < |a.people|
        ensures PersonMoves(a.kind, a.people[i], d.people[i])
      {
        assert PersonMoves(a.kind, a.people[i], b.people[i]) && PersonMoves(b.kind, b.people[i], d.people[i]);
      }
    }
  }

  // ---- Events -----------------------------------------------------------------------------------

  /** A call's end was heard, its person is not done, and an event of it would put them on the phone again. */
  predicate Revives(w: World, call: Id) {
    var hit := ByAttempt(w, ByCall(call));
    hit.Some? &&
    var who := w.campaigns[hit.value.0].people[hit.value.1];
    who.attempt.value.ended.Some? && !Final(who.state) && who.state != Ended
  }

  lemma RingKeeps(w: World, call: Id, to: PersonState)
    requires Kept(w) && (to == Ringing || to == OnCall) && !Revives(w, call)
    ensures WorldMoves(w, OnRing(w, call, to)) && Kept(OnRing(w, call, to))
  {
    NoMove(w);
    var hit := ByAttempt(w, ByCall(call));
    if hit.Some? {
      var (c, p) := hit.value;
      var who := w.campaigns[c].people[p];
      assert PersonOk(c, w.campaigns[c], p);
      if !Final(who.state) && who.state != Ended {
        OneMovingKeeps(w, c, SetIn(w.campaigns[c], p, who.(state := to)), p);
      }
    }
  }

  lemma EndedKeeps(w: World, call: Id, end: EndOfCall, now: int)
    requires Kept(w)
    ensures WorldMoves(w, OnEnded(w, call, end, now)) && Kept(OnEnded(w, call, end, now))
  {
    NoMove(w);
    var hit := ByAttempt(w, ByCall(call));
    if hit.Some? {
      var (c, p) := hit.value;
      var who := w.campaigns[c].people[p];
      assert PersonOk(c, w.campaigns[c], p);
      if who.attempt.value.ended.None? && !Final(who.state) {
        SettlingMoves(c, w.campaigns[c], p, end, now);
        var heard := SetIn(w.campaigns[c], p, who.(attempt := Some(who.attempt.value.(ended := Some(end)))));
        OneMovingKeeps(w, c, SettleCall(heard, p, now), p);
      }
    }
  }

  lemma DialFailedKeeps(w: World, operation: Id, now: int)
    requires Kept(w)
    ensures WorldMoves(w, OnDialFailed(w, operation, now)) && Kept(OnDialFailed(w, operation, now))
  {
    NoMove(w);
    var hit := ByAttempt(w, ByOperation(operation));
    if hit.Some? {
      var (c, p) := hit.value;
      var who := w.campaigns[c].people[p];
      assert PersonOk(c, w.campaigns[c], p);
      if who.attempt.value.ended.None? && !Final(who.state) {
        OneMovingKeeps(w, c, SetIn(w.campaigns[c], p, GiveBack(who, now)), p);
      }
    }
  }

  lemma TextSentKeeps(w: World, m: MessageId, now: int)
    requires Kept(w)
    ensures WorldMoves(w, OnTextSent(w, m, now)) && Kept(OnTextSent(w, m, now))
  {
    NoMove(w);
    var hit := ByAttempt(w, ByMessage(m));
    if hit.Some? {
      var (c, p) := hit.value;
      var who := w.campaigns[c].people[p];
      assert PersonOk(c, w.campaigns[c], p);
      if who.state == Sending || (who.state == AwaitingReply && who.unconfirmed) {
        var to := who.(state := AwaitingReply, attempt := Some(who.attempt.value.(sentAt := Some(now))), unconfirmed := false);
        OneMovingKeeps(w, c, SetIn(w.campaigns[c], p, to), p);
      }
    }
  }

  lemma TextInDoubtKeeps(w: World, m: MessageId, now: int)
    requires Kept(w)
    ensures WorldMoves(w, OnTextLost(w, m, true, now)) && Kept(OnTextLost(w, m, true, now))
  {
    NoMove(w);
    var hit := ByAttempt(w, ByMessage(m));
    if hit.Some? {
      var (c, p) := hit.value;
      var who := w.campaigns[c].people[p];
      assert PersonOk(c, w.campaigns[c], p);
      if !Final(who.state) {
        OneMovingKeeps(w, c, SetIn(w.campaigns[c], p, MayHaveGone(who)), p);
      }
    }
  }

  // ---- The agents' side -----------------------------------------------------------------------------

  /** A person rewritten in ways that neither ring nor text: the common case of a move. */
  lemma PersonMovingKeeps(w: World, c: nat, p: nat, to: Person)
    requires Kept(w) && IsAt(w, c, p)
    requires PersonMoves(w.campaigns[c].kind, w.campaigns[c].people[p], to)
    requires if w.campaigns[c].kind == Calls then CallPersonOk(w.campaigns[c].times, to) else TextPersonOk(c, p, to)
    ensures WorldMoves(w, SetPerson(w, c, p, to)) && Kept(SetPerson(w, c, p, to))
  {
    hide CallPersonOk, TextPersonOk, PersonMoves;
    OneMovingKeeps(w, c, SetIn(w.campaigns[c], p, to), p);
  }

  lemma BindKeeps(w: World, c: nat, p: nat, voice: Option<Id>)
    requires Kept(w) && IsAt(w, c, p) && w.campaigns[c].people[p].attempt.Some?
    requires voice.Some? ==> w.campaigns[c].kind == Calls && Live(w.campaigns[c].people[p].state)
    ensures WorldMoves(w, BindTo(w, c, p, voice)) && Kept(BindTo(w, c, p, voice))
  {
    assert PersonOk(c, w.campaigns[c], p);
    PersonMovingKeeps(w, c, p, BindTo(w, c, p, voice).campaigns[c].people[p]);
  }

  lemma ForCallKeeps(w: World, call: Id, number: Number, same: (Number, Number) -> bool)
    requires Kept(w)
    ensures WorldMoves(w, ForCall(w, call, number, same)) && Kept(ForCall(w, call, number, same))
  {
    hide BindTo, Kept, WorldMoves;
    NoMove(w);
    var hit := ByAttempt(w, ByCallOrVoice(call));
    if hit.Some? {
      BindKeeps(w, hit.value.0, hit.value.1, None);
    } else if number != "" {
      var rung := FindRung(w, number, same, 0, 0);
      if rung.Some? && w.campaigns[rung.value.0].people[rung.value.1].attempt.Some? {
        BindKeeps(w, rung.value.0, rung.value.1, Some(call));
      }
    }
  }

  lemma VoiceEndedKeeps(w: World, c: nat, p: nat, now: int)
    requires Kept(w) && IsAt(w, c, p)
    ensures WorldMoves(w, VoiceEnded(w, c, p, now)) && Kept(VoiceEnded(w, c, p, now))
  {
    NoMove(w);
    assert PersonOk(c, w.campaigns[c], p);
    var who := w.campaigns[c].people[p];
    if who.attempt.Some? && !who.attempt.value.recorded {
      PersonMovingKeeps(w, c, p, VoiceEnded(w, c, p, now).campaigns[c].people[p]);
    }
  }

  lemma HangingUpKeeps(w: World, c: nat, p: nat)
    requires Kept(w) && IsAt(w, c, p)
    ensures WorldMoves(w, HangingUp(w, c, p)) && Kept(HangingUp(w, c, p))
  {
    NoMove(w);
    assert PersonOk(c, w.campaigns[c], p);
    var who := w.campaigns[c].people[p];
    if who.attempt.Some? {
      PersonMovingKeeps(w, c, p, HangingUp(w, c, p).campaigns[c].people[p]);
    }
  }

  /** Which numbers are not to be contacted makes no one move. */
  lemma ListingKeeps(w: World, w': World)
    requires w' == w.(doNotContact := w'.doNotContact)
    ensures WorldMoves(w, w')
    ensures Kept(w) ==> Kept(w')
  {
    if Kept(w) {
      forall c: nat, i: nat | LiveAt(w', c, i)
        ensures LiveAt(w, c, i)
      {
      }
    }
  }

  lemma RecordedMoves(c: nat, it: Campaign, i: nat, outcome: Outcome, callBackAt: Option<int>, now: int)
    requires i < |it.people| && PersonOk(c, it, i) && MayRecord(it.kind, outcome)
    ensures OneMoves(c, it, Recorded(it, i, outcome, callBackAt, now), i)
  {
    if it.kind == Texts {
      TextRecordedMoves(c, it, i, outcome, callBackAt, now);
    } else if it.people[i].state == Ended {
      EndedRecordedMoves(c, it, i, outcome, callBackAt, now);
    } else {
      CallRecordedMoves(c, it, i, outcome, callBackAt, now);
    }
  }

  lemma TextRecordedMoves(c: nat, it: Campaign, i: nat, outcome: Outcome, callBackAt: Option<int>, now: int)
    requires i < |it.people| && PersonOk(c, it, i) && MayRecord(it.kind, outcome) && it.kind == Texts
    ensures OneMoves(c, it, Recorded(it, i, outcome, callBackAt, now), i)
  {
  }

  lemma EndedRecordedMoves(c: nat, it: Campaign, i: nat, outcome: Outcome, callBackAt: Option<int>, now: int)
    requires i < |it.people| && PersonOk(c, it, i) && it.kind == Calls && it.people[i].state == Ended
    ensures OneMoves(c, it, Recorded(it, i, outcome, callBackAt, now), i)
  {
    hide ApplyResult;
    var p := it.people[i].(callBackAt := if outcome == CallbackRequested && callBackAt.Some? then callBackAt else it.people[i].callBackAt);
    var q := p.(outcome := Some(outcome), attempt := Some(p.attempt.value.(recorded := true)));
    ResultSettles(it.times, it.gapMinutes, q, now);
  }

  lemma CallRecordedMoves(c: nat, it: Campaign, i: nat, outcome: Outcome, callBackAt: Option<int>, now: int)
    requires i < |it.people| && PersonOk(c, it, i) && it.kind == Calls && it.people[i].state != Ended && MayRecord(it.kind, outcome)
    ensures OneMoves(c, it, Recorded(it, i, outcome, callBackAt, now), i)
  {
    if it.people[i].state == Done {
      LateRecordedMoves(c, it, i, outcome, callBackAt, now);
    } else {
      EarlyRecordedMoves(c, it, i, outcome, callBackAt, now);
    }
  }

  lemma LateRecordedMoves(c: nat, it: Campaign, i: nat, outcome: Outcome, callBackAt: Option<int>, now: int)
    requires i < |it.people| && PersonOk(c, it, i) && it.kind == Calls && it.people[i].state == Done && MayRecord(it.kind, outcome)
    ensures OneMoves(c, it, Recorded(it, i, outcome, callBackAt, now), i)
  {
    hide ApplyResult, Settle;
  }

  lemma EarlyRecordedMoves(c: nat, it: Campaign, i: nat, outcome: Outcome, callBackAt: Option<int>, now: int)
    requires i < |it.people| && PersonOk(c, it, i) && it.kind == Calls && it.people[i].state != Ended && it.people[i].state != Done && MayRecord(it.kind, outcome)
    ensures OneMoves(c, it, Recorded(it, i, outcome, callBackAt, now), i)
  {
    hide OneMoves, Recorded;
    var who := it.people[i];
    if who.attempt.Some? {
      TriedRecordedMoves(c, it, i, outcome, callBackAt, now);
    } else if who.state == Queued || who.state == Waiting {
      WaitingRecordedMoves(c, it, i, outcome, callBackAt, now);
    } else {
      OtherRecordedMoves(c, it, i, outcome, callBackAt, now);
    }
  }

  lemma TriedRecordedMoves(c: nat, it: Campaign, i: nat, outcome: Outcome, callBackAt: Option<int>, now: int)
    requires i < |it.people| && PersonOk(c, it, i) && it.kind == Calls && MayRecord(it.kind, outcome)
    requires it.people[i].state != Ended && it.people[i].state != Done && it.people[i].attempt.Some?
    ensures OneMoves(c, it, Recorded(it, i, outcome, callBackAt, now), i)
  {
    hide ApplyResult, Settle;
  }

  lemma WaitingRecordedMoves(c: nat, it: Campaign, i: nat, outcome: Outcome, callBackAt: Option<int>, now: int)
    requires i < |it.people| && PersonOk(c, it, i) && it.kind == Calls && MayRecord(it.kind, outcome)
    requires (it.people[i].state == Queued || it.people[i].state == Waiting) && it.people[i].attempt.None?
    ensures OneMoves(c, it, Recorded(it, i, outcome, callBackAt, now), i)
  {
    hide ApplyResult;
  }

  lemma OtherRecordedMoves(c: nat, it: Campaign, i: nat, outcome: Outcome, callBackAt: Option<int>, now: int)
    requires i < |it.people| && PersonOk(c, it, i) && it.kind == Calls && MayRecord(it.kind, outcome)
    requires it.people[i].state !in {Queued, Waiting, Ended, Done} && it.people[i].attempt.None?
    ensures OneMoves(c, it, Recorded(it, i, outcome, callBackAt, now), i)
  {
    hide ApplyResult, Settle;
  }

  lemma RecordKeeps(w: World, c: nat, p: nat, outcome: Outcome, callBackAt: Option<int>, kept: Number, now: int, same: (Number, Number) -> bool)
    requires Kept(w) && IsAt(w, c, p)
    ensures
      var w' := Record(w, c, p, outcome, callBackAt, kept, now, same);
      WorldMoves(w, w') && Kept(w') && w'.trace == w.trace
  {
    hide Recorded, OneMoves, Kept, WorldMoves;
    NoMove(w);
    if MayRecord(w.campaigns[c].kind, outcome) {
      var w1 := if outcome == OptedOut then AddDoNotContact(w, w.campaigns[c].people[p].number, kept, same) else w;
      ListingKeeps(w, w1);
      PersonIsOk(w, c, p);
      RecordedMoves(c, w.campaigns[c], p, outcome, callBackAt, now);
      OneMovingKeeps(w1, c, Recorded(w.campaigns[c], p, outcome, callBackAt, now), p);
      MovesJoin(w, w1, Record(w, c, p, outcome, callBackAt, kept, now, same));
    }
  }

  lemma PersonIsOk(w: World, c: nat, p: nat)
    requires Kept(w) && IsAt(w, c, p)
    ensures PersonOk(c, w.campaigns[c], p)
  {
  }

  lemma StopKeeps(w: World, number: Number, kept: Number, now: int, same: (Number, Number) -> bool)
    requires Kept(w)
    ensures
      var w' := StopWord(w, number, kept, now, same);
      WorldMoves(w, w') && Kept(w') && w'.trace == w.trace
  {
    var w1 := w.(campaigns := StopAllIn(w.campaigns, number, now, same));
    forall c: nat, p: nat | c < |w.campaigns| && p < |w.campaigns[c].people|
      ensures PersonMoves(w.campaigns[c].kind, w.campaigns[c].people[p], w1.campaigns[c].people[p])
      ensures PersonOk(c, w1.campaigns[c], p)
    {
      StopMoves(w, c, p, number, now, same);
    }
    forall c | 0 <= c < |w.campaigns|
      ensures CampaignMoves(w.campaigns[c], w1.campaigns[c])
    {
    }
    MovingKeeps(w, w1);
    var w' := StopWord(w, number, kept, now, same);
    ListingKeeps(w1, w');
    MovesJoin(w, w1, w');
  }

  lemma StopMoves(w: World, c: nat, p: nat, number: Number, now: int, same: (Number, Number) -> bool)
    requires Kept(w) && IsAt(w, c, p)
    ensures
      var to := StopIn(w.campaigns[c], number, now, same);
      && PersonMoves(w.campaigns[c].kind, w.campaigns[c].people[p], to.people[p])
      && PersonOk(c, to, p)
  {
    assert PersonOk(c, w.campaigns[c], p);
  }

  // ---- The person's side -------------------------------------------------------------------------------

  lemma StateKeeps(w: World, c: nat, to: Campaign)
    requires Kept(w) && c < |w.campaigns| && to == w.campaigns[c].(state := to.state, faults := to.faults, approvedAt := to.approvedAt)
    requires w.campaigns[c].state == Finished || w.campaigns[c].state == Stopped ==> to.state == w.campaigns[c].state
    requires to.state == Finished ==> w.campaigns[c].state == Finished
    ensures WorldMoves(w, SetCampaign(w, c, to)) && Kept(SetCampaign(w, c, to))
  {
    var w' := SetCampaign(w, c, to);
    forall d | 0 <= d < |w.campaigns|
      ensures CampaignMoves(w.campaigns[d], w'.campaigns[d])
    {
    }
    forall d: nat, j: nat | d < |w'.campaigns| && j < |w'.campaigns[d].people|
      ensures PersonOk(d, w'.campaigns[d], j)
    {
      assert PersonOk(d, w.campaigns[d], j);
    }
    MovingKeeps(w, w');
  }

  lemma PauseKeeps(w: World, c: nat)
    requires Kept(w) && c < |w.campaigns|
    ensures WorldMoves(w, Pause(w, c)) && Kept(Pause(w, c))
  {
    StateKeeps(w, c, PauseFor(w.campaigns[c]));
  }

  lemma {:induction false} PauseAllKeeps(w: World, running: seq<nat>)
    requires Kept(w) && forall i :: 0 <= i < |running| ==> running[i] < |w.campaigns|
    ensures WorldMoves(w, PauseAll(w, running)) && Kept(PauseAll(w, running))
    ensures PauseAll(w, running).trace == w.trace && PauseAll(w, running).doNotContact == w.doNotContact
    decreases |running|
  {
    if running == [] {
      NoMove(w);
    } else {
      var w1 := Pause(w, running[0]);
      PauseKeeps(w, running[0]);
      PauseAllKeeps(w1, running[1..]);
      MovesJoin(w, w1, PauseAll(w, running));
    }
  }

  lemma ResumeKeeps(w: World, c: nat, byAgent: bool, now: int)
    requires Kept(w) && c < |w.campaigns|
    ensures WorldMoves(w, Resume(w, c, byAgent, now)) && Kept(Resume(w, c, byAgent, now))
  {
    NoMove(w);
    var it := w.campaigns[c];
    if !(it.state != Paused || (it.approvedAt == 0 && byAgent)) {
      StateKeeps(w, c, it.(state := Running, faults := 0, approvedAt := if it.approvedAt == 0 then now else it.approvedAt));
    }
  }

  /** Stopping a campaign: everyone not on a call is settled. */
  lemma StoppingKeeps(w: World, c: nat, now: int)
    requires Kept(w) && c < |w.campaigns| && w.campaigns[c].state != Finished && w.campaigns[c].state != Stopped
    ensures
      var w' := SetCampaign(w, c, w.campaigns[c].(people := EndPeople(w.campaigns[c].people, now), state := Stopped));
      WorldMoves(w, w') && Kept(w')
  {
    var w' := SetCampaign(w, c, w.campaigns[c].(people := EndPeople(w.campaigns[c].people, now), state := Stopped));
    forall d: nat, p: nat | d < |w.campaigns| && p < |w.campaigns[d].people|
      ensures PersonMoves(w.campaigns[d].kind, w.campaigns[d].people[p], w'.campaigns[d].people[p])
      ensures PersonOk(d, w'.campaigns[d], p)
    {
      assert PersonOk(d, w.campaigns[d], p);
      if d == c {
        EndMoves(c, w.campaigns[c], p, now);
      }
    }
    forall d | 0 <= d < |w.campaigns|
      ensures CampaignMoves(w.campaigns[d], w'.campaigns[d])
    {
    }
    MovingKeeps(w, w');
  }

  lemma EndMoves(c: nat, it: Campaign, p: nat, now: int)
    requires p < |it.people| && PersonOk(c, it, p)
    ensures PersonMoves(it.kind, it.people[p], End1(it.people[p], now))
    ensures if it.kind == Calls then CallPersonOk(it.times, End1(it.people[p], now)) else TextPersonOk(c, p, End1(it.people[p], now))
  {
  }

  /** A campaign over: the report made, nobody being live in it. */
  lemma FinishKeeps(w: World, c: nat, now: int, force: bool)
    requires Kept(w) && c < |w.campaigns| && (force ==> w.campaigns[c].state == Stopped)
    ensures Kept(FinishIfDone(w, c, now, force))
  {
    var it, w' := w.campaigns[c], FinishIfDone(w, c, now, force);
    assert CampaignOk(it);
    if w' != w {
      var to := it.(state := if it.state == Stopped then Stopped else Finished, endedAt := Some(now));
      FinishedOk(it, now, force);
      OverKeeps(w, c, to, w');
    }
  }

  lemma OverKeeps(w: World, c: nat, to: Campaign, w': World)
    requires Kept(w) && c < |w.campaigns| && to == w.campaigns[c].(state := to.state, endedAt := to.endedAt) && CampaignOk(to)
    requires w'.campaigns == w.campaigns[c := to]
    ensures Kept(w')
  {
    hide CampaignOk;
    forall d: nat, j: nat | d < |w'.campaigns| && j < |w'.campaigns[d].people|
      ensures PersonOk(d, w'.campaigns[d], j)
    {
      assert PersonOk(d, w.campaigns[d], j);
    }
    forall d: nat, j: nat | LiveAt(w', d, j)
      ensures LiveAt(w, d, j)
    {
    }
  }

  lemma FinishedOk(it: Campaign, now: int, force: bool)
    requires CampaignOk(it) && it.endedAt.None?
    requires AllFinal(it) || ((force || it.state == Stopped) && !HasLive(it))
    requires !AllFinal(it) ==> it.state == Stopped
    ensures CampaignOk(it.(state := if it.state == Stopped then Stopped else Finished, endedAt := Some(now)))
  {
  }

  lemma CreateKeeps(w: World, kind: Kind, times: nat, gap: nat, replyDeadline: int, numbers: seq<Number>, now: int)
    requires Kept(w)
    ensures Kept(Create(w, kind, times, gap, replyDeadline, numbers, now))
  {
    var w' := Create(w, kind, times, gap, replyDeadline, numbers, now);
    forall c: nat, i: nat | c < |w'.campaigns| && i < |w'.campaigns[c].people|
      ensures PersonOk(c, w'.campaigns[c], i)
    {
      if c < |w.campaigns| {
        assert PersonOk(c, w.campaigns[c], i);
      } else {
        NewPersonIsOk(c, w'.campaigns[c], i, numbers);
      }
    }
    forall c: nat, i: nat | LiveAt(w', c, i)
      ensures LiveAt(w, c, i)
    {
    }
  }

  lemma NewPersonIsOk(c: nat, it: Campaign, i: nat, numbers: seq<Number>)
    requires i < |it.people| && it.people == NewPeople(numbers)
    ensures PersonOk(c, it, i)
  {
  }
}
