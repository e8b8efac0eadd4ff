/**
 * The outreach engine's looks for who to ring and who to text
 * (app/src/outreach.ts:984-1211): what they keep, and whom they contact.
 */
module OutreachContacts {
  import opened Options
  import opened TimeOrder
  import opened Subsequences
  import opened Outreach
  import opened OutreachKept

  // ---- What every step leaves as it was ---------------------------------------------------

  ghost predicate PersonGoesOn(kind: Kind, p: Person, q: Person) {
    && q.number == p.number
    && (Final(p.state) ==> Final(q.state))
    && (kind == Texts && p.attempt.Some? ==> q.attempt.Some? && p.tries <= q.tries && p.attempt.value.at <= q.attempt.value.at)
  }

  ghost predicate CampaignGoesOn(c: Campaign, d: Campaign) {
    && |d.people| == |c.people| && d.kind == c.kind && d.times == c.times
    && (c.state == Finished || c.state == Stopped ==> d.state == c.state)
    && (c.endedAt.Some? ==> d.endedAt == c.endedAt)
    && forall i :: 0 <= i < |c.people| ==> PersonGoesOn(c.kind, c.people[i], d.people[i])
  }

  ghost predicate CampaignsGoOn(w: World, w': World) {
    && |w.campaigns| <= |w'.campaigns|
    && forall c :: 0 <= c < |w.campaigns| ==> CampaignGoesOn(w.campaigns[c], w'.campaigns[c])
  }

  /** Nothing over is begun again, and nothing said is taken back. */
  ghost predicate GoesOn(w: World, w': World) {
    CampaignsGoOn(w, w') && w.doNotContact <= w'.doNotContact && w.trace <= w'.trace
  }

  lemma SameGoesOn(w: World, w': World)
    requires w.campaigns == w'.campaigns
    ensures CampaignsGoOn(w, w')
  {
  }

  lemma MovesGoOn(w: World, w': World)
    requires WorldMoves(w, w')
    ensures CampaignsGoOn(w, w')
  {
    forall c | 0 <= c < |w.campaigns|
      ensures CampaignGoesOn(w.campaigns[c], w'.campaigns[c])
    {
      assert CampaignMoves(w.campaigns[c], w'.campaigns[c]);
      forall i | 0 <= i < |w.campaigns[c].people|
        ensures PersonGoesOn(w.campaigns[c].kind, w.campaigns[c].people[i], w'.campaigns[c].people[i])
      {
        assert PersonMoves(w.campaigns[c].kind, w.campaigns[c].people[i], w'.campaigns[c].people[i]);
      }
    }
  }

  lemma CampaignsGoOnJoin(w: World, w1: World, w2: World)
    requires CampaignsGoOn(w, w1) && CampaignsGoOn(w1, w2)
    ensures CampaignsGoOn(w, w2)
  {
    forall c | 0 <= c < |w.campaigns|
      ensures CampaignGoesOn(w.campaigns[c], w2.campaigns[c])
    {
      var a, b, d := w.campaigns[c], w1.campaigns[c], w2.campaigns[c];
      assert CampaignGoesOn(a, b) && CampaignGoesOn(b, d);
      forall i | 0 <= i < |a.people|
        ensures PersonGoesOn(a.kind, a.people[i], d.people[i])
      {
        assert PersonGoesOn(a.kind, a.people[i], b.people[i]) && PersonGoesOn(b.kind, b.people[i], d.people[i]);
      }
    }
  }

  lemma GoesOnJoin(w: World, w1: World, w2: World)
    requires GoesOn(w, w1) && GoesOn(w1, w2)
    ensures GoesOn(w, w2)
  {
    hide CampaignsGoOn;
    CampaignsGoOnJoin(w, w1, w2);
  }

  // ---- One person is contacted, or left out --------------------------------------------------

  /** One person of a campaign not over changes: they may be rung when no one else is. */
  ghost predicate MayBecome(w: World, c: nat, p: nat, q: Person)
    requires IsAt(w, c, p)
  {
    var it := w.campaigns[c];
    && !Final(it.people[p].state) && q.state != Ended
    && PersonGoesOn(it.kind, it.people[p], q)
    && (if it.kind == Calls then CallPersonOk(it.times, q) else TextPersonOk(c, p, q))
    && (Live(q.state) ==> it.state == Running && !Busy(w))
  }

  lemma ChangeKeeps(w: World, c: nat, p: nat, q: Person)
    requires Kept(w) && IsAt(w, c, p) && MayBecome(w, c, p, q)
    ensures Kept(SetPerson(w, c, p, q))
  {
    var w' := SetPerson(w, c, p, q);
    forall d: nat, j: nat | d < |w'.campaigns| && j < |w'.campaigns[d].people|
      ensures PersonOk(d, w'.campaigns[d], j)
    {
      assert PersonOk(d, w.campaigns[d], j);
    }
    ChangeOneLive(w, c, p, q);
    ChangeCampaignOk(w.campaigns[c], p, q);
    forall d | 0 <= d < |w'.campaigns|
      ensures CampaignOk(w'.campaigns[d])
    {
      assert CampaignOk(w.campaigns[d]);
    }
  }

  lemma ChangeOneLive(w: World, c: nat, p: nat, q: Person)
    requires OneLive(w) && IsAt(w, c, p) && (Live(q.state) ==> !Busy(w))
    ensures OneLive(SetPerson(w, c, p, q))
  {
    var w' := SetPerson(w, c, p, q);
    forall d: nat, j: nat | LiveAt(w', d, j)
      ensures (d == c && j == p) || LiveAt(w, d, j)
    {
    }
  }

  lemma ChangeCampaignOk(it: Campaign, p: nat, q: Person)
    requires p < |it.people| && CampaignOk(it) && !Final(it.people[p].state) && q.state != Ended
    requires Live(q.state) ==> it.state == Running
    ensures CampaignOk(SetIn(it, p, q))
  {
    var to := SetIn(it, p, q);
    if HasLive(to) && it.endedAt.Some? {
      var j :| 0 <= j < |to.people| && (Live(to.people[j].state) || to.people[j].state == Ended);
      assert j != p;
      assert HasLive(it);
    }
    assert !AllFinal(it);
  }

  lemma ChangeGoesOn(w: World, c: nat, p: nat, q: Person)
    requires IsAt(w, c, p) && PersonGoesOn(w.campaigns[c].kind, w.campaigns[c].people[p], q)
    ensures CampaignsGoOn(w, SetPerson(w, c, p, q))
  {
    var w' := SetPerson(w, c, p, q);
    forall d | 0 <= d < |w.campaigns|
      ensures CampaignGoesOn(w.campaigns[d], w'.campaigns[d])
    {
    }
  }

  /** Kept is of the campaigns alone. */
  lemma SameKept(w: World, w': World)
    requires Kept(w) && w'.campaigns == w.campaigns
    ensures Kept(w')
  {
    forall c: nat, i: nat | LiveAt(w', c, i)
      ensures LiveAt(w, c, i)
    {
    }
  }

  /** They may be rung, or texted: their campaign is running, they are not done, and they have not asked not to be. */
  ghost predicate MayContact(w: World, kind: Kind, c: nat, p: nat, number: Number, same: (Number, Number) -> bool) {
    && IsAt(w, c, p) && w.campaigns[c].kind == kind && w.campaigns[c].state == Running
    && !Final(w.campaigns[c].people[p].state) && w.campaigns[c].people[p].number == number
    && ((kind == Texts && number == TEST) || !Listed(w.doNotContact, number, same))
  }

  function LeaveOut(w: World, c: nat, p: nat, now: int): World
    requires IsAt(w, c, p)
  {
    SetPerson(w, c, p, Settle(w.campaigns[c].people[p], LeftOut, now))
  }

  lemma LeavingOutKeeps(w: World, c: nat, p: nat, now: int)
    requires Kept(w) && IsAt(w, c, p) && IsDue(w.campaigns[c].kind, w.campaigns[c].people[p], now)
    ensures Kept(LeaveOut(w, c, p, now)) && GoesOn(w, LeaveOut(w, c, p, now))
    ensures !Busy(w) ==> !Busy(LeaveOut(w, c, p, now))
  {
    var q := Settle(w.campaigns[c].people[p], LeftOut, now);
    PersonIsOk(w, c, p);
    ChangeKeeps(w, c, p, q);
    ChangeGoesOn(w, c, p, q);
    if !Busy(w) {
      NotBusierLeftOut(w, c, p, now);
    }
  }

  lemma NotBusierLeftOut(w: World, c: nat, p: nat, now: int)
    requires !Busy(w) && IsAt(w, c, p)
    ensures !Busy(LeaveOut(w, c, p, now))
  {
    var w' := LeaveOut(w, c, p, now);
    forall d: nat, j: nat | IsAt(w', d, j) && w'.campaigns[d].kind == Calls
      ensures !Live(w'.campaigns[d].people[j].state)
    {
      assert IsAt(w, d, j);
    }
  }

  lemma ContactBefore(w: World, c: nat, p: nat, now: int, kind: Kind, d: nat, q: nat, number: Number, same: (Number, Number) -> bool)
    requires IsAt(w, c, p) && MayContact(LeaveOut(w, c, p, now), kind, d, q, number, same)
    ensures MayContact(w, kind, d, q, number, same)
  {
  }

  // ---- Who is due, each once ------------------------------------------------------------------

  lemma {:induction false} SlotsAreOnce(w: World, kind: Kind, c: nat, lane: nat)
    requires c <= |w.campaigns|
    ensures |OfLane(RunningSlots(w, kind, c), lane)| <= (if c <= lane then 1 else 0)
    decreases |w.campaigns| - c
  {
    if c < |w.campaigns| {
      SlotsAreOnce(w, kind, c + 1, lane);
      var first := if w.campaigns[c].kind == kind && w.campaigns[c].state == Running then [Slot(c, 0, At(w.campaigns[c].createdAt))] else [];
      OfLaneJoin(first, RunningSlots(w, kind, c + 1), lane);
    }
  }

  /** A lane twice in a sequence is twice among those of the lane. */
  lemma TwiceOfLane(s: seq<Slot>, i: nat, j: nat)
    requires i < j < |s| && s[i].lane == s[j].lane
    ensures |OfLane(s, s[i].lane)| >= 2
  {
    var lane := s[i].lane;
    assert s == s[..j] + s[j..];
    OfLaneJoin(s[..j], s[j..], lane);
    OfLaneIsPart(s[..j], lane);
    OfLaneIsPart(s[j..], lane);
    assert s[..j][i] in s[..j] && s[j..][0] in s[j..];
    assert s[i] in OfLane(s[..j], lane) && s[j] in OfLane(s[j..], lane);
  }

  lemma RunningAreOnce(w: World, kind: Kind)
    ensures NoRepeats(RunningByAge(w, kind))
  {
    var s := RunningSlots(w, kind, 0);
    var r := StableSort(s);
    LanesAre(r);
    forall i, j | 0 <= i < j < |r|
      ensures r[i].lane != r[j].lane
    {
      if r[i].lane == r[j].lane {
        TwiceOfLane(r, i, j);
        SlotsAreOnce(w, kind, 0, r[i].lane);
        SortOfLane(s, r[i].lane);
        assert false;
      }
    }
  }

  lemma {:induction false} DueInOnce(w: World, c: nat, p: nat, now: int)
    requires c < |w.campaigns| && p <= |w.campaigns[c].people|
    ensures NoRepeats(DueIn(w, c, p, now))
    decreases |w.campaigns[c].people| - p
  {
    if p < |w.campaigns[c].people| {
      DueInOnce(w, c, p + 1, now);
      DueInFit(w, c, p + 1, now);
    }
  }

  predicate Within(running: seq<nat>, due: seq<(nat, nat)>) {
    forall i :: 0 <= i < |due| ==> due[i].0 in running
  }

  lemma {:induction false} DueAreOnce(w: World, running: seq<nat>, now: int)
    requires NoRepeats(running) && forall i :: 0 <= i < |running| ==> running[i] < |w.campaigns|
    ensures NoRepeats(DueOf(w, running, now)) && Within(running, DueOf(w, running, now))
  {
    if running != [] {
      DueAreOnce(w, running[1..], now);
      DueInOnce(w, running[0], 0, now);
      DueInFit(w, running[0], 0, now);
      assert running[0] !in running[1..];
      var rest := DueOf(w, running[1..], now);
      forall i | 0 <= i < |rest|
        ensures rest[i].0 in running && rest[i].0 != running[0]
      {
        assert rest[i].0 in running[1..];
      }
    }
  }

  /** Those due that are left, one of them left out. */
  lemma StillDue(w: World, kind: Kind, due: seq<(nat, nat)>, now: int)
    requires due != [] && DueThere(w, due) && DueFit(w, kind, due, now) && NoRepeats(due)
    ensures
      var w1 := LeaveOut(w, due[0].0, due[0].1, now);
      DueThere(w1, due[1..]) && DueFit(w1, kind, due[1..], now) && NoRepeats(due[1..])
  {
  }

  // ---- Ringing -------------------------------------------------------------------------------------

  /** What a look for a dial asked of the phone: nothing, or one dial of one who may be rung. */
  ghost predicate RangFairly(w: World, w': World, now: int, same: (Number, Number) -> bool) {
    || w'.trace == w.trace
    || exists c: nat, p: nat, number: Number :: w'.trace == w.trace + [Rang(c, p, number, now)] && MayContact(w, Calls, c, p, number, same) && !Busy(w)
  }

  lemma AnsweredIsOk(it: Campaign, i: nat, reply: DialReply, now: int)
    requires i < |it.people| && it.kind == Calls && CallPersonOk(it.times, it.people[i]) && IsDue(Calls, it.people[i], now)
    ensures
      var q := Answered(it, i, it.people[i].tries + 1, reply, now).people[i];
      CallPersonOk(it.times, q) && PersonGoesOn(Calls, it.people[i], q) && q.state != Ended
  {
    hide CallPersonOk, RetryOr, Settle, Answered;
    match reply
    case Dialled(_, _, _) => DialledIsOk(it, i, reply, now);
    case Refused(BadNumber, _) => SettledIsOk(it, i, reply, now);
    case Refused(OtherRefusal, _) => SettledIsOk(it, i, reply, now);
    case Refused(_, _) => QueuedIsOk(it, i, reply, now);
  }

  ghost predicate AnswerOk(it: Campaign, i: nat, reply: DialReply, now: int)
    requires i < |it.people|
  {
    var q := Answered(it, i, it.people[i].tries + 1, reply, now).people[i];
    CallPersonOk(it.times, q) && PersonGoesOn(Calls, it.people[i], q) && q.state != Ended
  }

  lemma DialledIsOk(it: Campaign, i: nat, reply: DialReply, now: int)
    requires i < |it.people| && CallPersonOk(it.times, it.people[i]) && IsDue(Calls, it.people[i], now)
    requires reply.Dialled?
    ensures AnswerOk(it, i, reply, now)
  {
  }

  lemma QueuedIsOk(it: Campaign, i: nat, reply: DialReply, now: int)
    requires i < |it.people| && CallPersonOk(it.times, it.people[i]) && IsDue(Calls, it.people[i], now)
    requires reply.Refused? && reply.why != BadNumber && reply.why != OtherRefusal
    ensures AnswerOk(it, i, reply, now)
  {
  }

  lemma SettledIsOk(it: Campaign, i: nat, reply: DialReply, now: int)
    requires i < |it.people| && CallPersonOk(it.times, it.people[i]) && IsDue(Calls, it.people[i], now)
    requires reply.Refused? && (reply.why == BadNumber || reply.why == OtherRefusal)
    ensures AnswerOk(it, i, reply, now)
  {
  }

  lemma PlaceKeeps(w: World, c: nat, p: nat, look: DialLook)
    requires Kept(w) && !Busy(w) && IsAt(w, c, p) && w.campaigns[c].kind == Calls && w.campaigns[c].state == Running
    requires IsDue(Calls, w.campaigns[c].people[p], look.now)
    ensures Kept(Place(w, c, p, look)) && CampaignsGoOn(w, Place(w, c, p, look))
  {
    hide Kept, CallPersonOk, Answered, PersonGoesOn, CampaignsGoOn, WorldMoves;
    var it := w.campaigns[c];
    var d := Answered(it, p, it.people[p].tries + 1, look.reply, look.now);
    PersonIsOk(w, c, p);
    AnsweredIsOk(it, p, look.reply, look.now);
    AnsweredIs(it, p, it.people[p].tries + 1, look.reply, look.now);
    var w1 := SetPerson(w, c, p, d.people[p]);
    ChangeKeeps(w, c, p, d.people[p]);
    ChangeGoesOn(w, c, p, d.people[p]);
    PauseKeeps(w1, c);
    MovesGoOn(w1, Pause(w1, c));
    CampaignsGoOnJoin(w, w1, Pause(w1, c));
    var w2 := SetCampaign(w, c, d);
    assert w2 == w1 || w2 == Pause(w1, c);
    SameKept(w2, Place(w, c, p, look));
    SameGoesOn(w2, Place(w, c, p, look));
    CampaignsGoOnJoin(w, w2, Place(w, c, p, look));
  }

  lemma {:induction false} DialDueKeeps(w: World, due: seq<(nat, nat)>, look: DialLook, same: (Number, Number) -> bool)
    requires Kept(w) && !Busy(w) && DueThere(w, due) && DueFit(w, Calls, due, look.now) && NoRepeats(due)
    ensures
      var w' := DialDue(w, due, look, same);
      Kept(w') && GoesOn(w, w') && RangFairly(w, w', look.now, same)
    decreases |due|
  {
    hide Kept, Busy, CampaignsGoOn, MayContact, Place, Settle, NoRepeats;
    if due == [] {
      SameGoesOn(w, w);
    } else {
      var (c, p) := due[0];
      var who := w.campaigns[c].people[p];
      if !look.inHours(c) {
        OneLess(w, due);
        DialDueKeeps(w, due[1..], look, same);
      } else if look.barred(who.number) || Listed(w.doNotContact, who.number, same) {
        var w1 := LeaveOut(w, c, p, look.now);
        LeavingOutKeeps(w, c, p, look.now);
        StillDue(w, Calls, due, look.now);
        DialDueKeeps(w1, due[1..], look, same);
        LeftOutThenRang(w, c, p, DialDue(w1, due[1..], look, same), look.now, same);
      } else {
        PlaceKeeps(w, c, p, look);
        PlacedFairly(w, c, p, look, same);
      }
    }
  }

  lemma OneLess(w: World, due: seq<(nat, nat)>)
    requires due != [] && NoRepeats(due)
    ensures NoRepeats(due[1..])
  {
  }

  lemma LeftOutThenRang(w: World, c: nat, p: nat, w': World, now: int, same: (Number, Number) -> bool)
    requires IsAt(w, c, p) && !Busy(w)
    requires GoesOn(w, LeaveOut(w, c, p, now)) && GoesOn(LeaveOut(w, c, p, now), w')
    requires RangFairly(LeaveOut(w, c, p, now), w', now, same)
    ensures GoesOn(w, w') && RangFairly(w, w', now, same)
  {
    hide CampaignsGoOn, Busy, MayContact, Settle;
    var w1 := LeaveOut(w, c, p, now);
    GoesOnJoin(w, w1, w');
    if w'.trace != w1.trace {
      var d: nat, q: nat, number: Number :| w'.trace == w1.trace + [Rang(d, q, number, now)] && MayContact(w1, Calls, d, q, number, same) && !Busy(w1);
      ContactBefore(w, c, p, now, Calls, d, q, number, same);
    }
  }

  lemma PlacedFairly(w: World, c: nat, p: nat, look: DialLook, same: (Number, Number) -> bool)
    requires !Busy(w) && IsAt(w, c, p) && w.campaigns[c].kind == Calls && w.campaigns[c].state == Running
    requires IsDue(Calls, w.campaigns[c].people[p], look.now) && !Listed(w.doNotContact, w.campaigns[c].people[p].number, same)
    requires CampaignsGoOn(w, Place(w, c, p, look))
    ensures GoesOn(w, Place(w, c, p, look)) && RangFairly(w, Place(w, c, p, look), look.now, same)
  {
    hide Busy, CampaignsGoOn, Answered;
    var number := w.campaigns[c].people[p].number;
    assert MayContact(w, Calls, c, p, number, same);
    assert Place(w, c, p, look).trace == w.trace + [Rang(c, p, number, look.now)];
  }

  lemma DialKeeps(w: World, look: DialLook, same: (Number, Number) -> bool)
    requires Kept(w)
    ensures
      var w' := Dial(w, look, same);
      Kept(w') && GoesOn(w, w') && RangFairly(w, w', look.now, same)
  {
    hide Kept, Busy, CampaignsGoOn, DialDue, DueOf, RunningByAge, PauseAll, WorldMoves;
    SameGoesOn(w, w);
    var running := RunningByAge(w, Calls);
    RunningAreThere(w, Calls);
    RunningAreOnce(w, Calls);
    var due := DueOf(w, running, look.now);
    DueAreThere(w, Calls, running, look.now);
    DueAreOnce(w, running, look.now);
    PauseAllKeeps(w, running);
    MovesGoOn(w, PauseAll(w, running));
    if !Busy(w) {
      DialDueKeeps(w, due, look, same);
    }
  }
}
