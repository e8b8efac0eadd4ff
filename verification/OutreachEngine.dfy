/**
 * The outreach engine itself (app/src/outreach.ts): its fields, and the loops
 * of its looks, events and requests, each proved to make of the whole state
 * what the transitions of Outreach say. What every run of those keeps is in
 * OutreachRuns.
 */
module OutreachEngine {
  import opened Options
  import opened Outreach

  /** But for one person, and their campaign's being paused, everything is as it was. */
  ghost predicate OnlyPerson(was: seq<Campaign>, now: seq<Campaign>, c: nat, p: nat) {
    && c < |was| == |now| && p < |was[c].people| == |now[c].people|
    && (forall d :: 0 <= d < |was| && d != c ==> now[d] == was[d])
    && (forall q :: 0 <= q < |was[c].people| && q != p ==> now[c].people[q] == was[c].people[q])
    && now[c].people[p].number == was[c].people[p].number && now[c].endedAt == was[c].endedAt
  }

  // ---- What a loop has looked at --------------------------------------------------------

  predicate Before(c: nat, p: nat, d: nat, q: nat) {
    c < d || (c == d && p < q)
  }

  /** Someone before `d`, `q` is being rung or on a call. */
  ghost predicate BusyBefore(w: World, d: nat, q: nat) {
    exists c: nat, p: nat :: IsAt(w, c, p) && Before(c, p, d, q) && w.campaigns[c].kind == Calls && Live(w.campaigns[c].people[p].state)
  }

  /** The people before `d`, `q` texted within `span`. */
  ghost function RecentBefore(w: World, now: int, span: int, d: nat, q: nat): set<(nat, nat)> {
    set c: nat, p: nat | c < |w.campaigns| && p < |w.campaigns[c].people| && Before(c, p, d, q) && TextedWithin(w.campaigns[c], p, now, span) :: (c, p)
  }

  lemma RecentGrows(w: World, now: int, span: int, d: nat, q: nat)
    requires IsAt(w, d, q)
    ensures |RecentBefore(w, now, span, d, q + 1)| == |RecentBefore(w, now, span, d, q)| + if TextedWithin(w.campaigns[d], q, now, span) then 1 else 0
  {
    RecentNow(w, now, span, d, q);
    hide RecentBefore, TextedWithin;
    assert (d, q) !in RecentBefore(w, now, span, d, q) by {
      NotYet(w, now, span, d, q);
    }
  }

  lemma RecentNow(w: World, now: int, span: int, d: nat, q: nat)
    requires IsAt(w, d, q)
    ensures RecentBefore(w, now, span, d, q + 1) == RecentBefore(w, now, span, d, q) + if TextedWithin(w.campaigns[d], q, now, span) then {(d, q)} else {}
  {
    hide TextedWithin;
    var before, after := RecentBefore(w, now, span, d, q), RecentBefore(w, now, span, d, q + 1);
    forall c: nat, p: nat
      ensures (c, p) in after <==> (c, p) in before || (c == d && p == q && TextedWithin(w.campaigns[d], q, now, span))
    {
      assert Before(c, p, d, q + 1) <==> Before(c, p, d, q) || (c == d && p == q);
    }
  }

  lemma NotYet(w: World, now: int, span: int, d: nat, q: nat)
    ensures (d, q) !in RecentBefore(w, now, span, d, q)
  {
  }

  lemma RecentNext(w: World, now: int, span: int, d: nat, q: nat)
    requires d < |w.campaigns| && (q >= |w.campaigns[d].people| || w.campaigns[d].kind != Texts)
    ensures w.campaigns[d].kind != Texts ==> RecentBefore(w, now, span, d + 1, 0) == RecentBefore(w, now, span, d, 0)
    ensures q >= |w.campaigns[d].people| ==> RecentBefore(w, now, span, d + 1, 0) == RecentBefore(w, now, span, d, q)
  {
  }

  lemma RecentAll(w: World, now: int, span: int)
    ensures RecentBefore(w, now, span, |w.campaigns|, 0) == Recent(w, now, span)
    ensures RecentBefore(w, now, span, 0, 0) == {}
  {
  }

  lemma SetTwice(w: World, c: nat, p: nat, a: Person, b: Person)
    requires IsAt(w, c, p)
    ensures IsAt(SetPerson(w, c, p, a), c, p) && SetPerson(SetPerson(w, c, p, a), c, p, b) == SetPerson(w, c, p, b)
  {
    assert w.campaigns[c].people[p := a][p := b] == w.campaigns[c].people[p := b];
    assert w.campaigns[c := SetIn(w.campaigns[c], p, a)][c := SetIn(w.campaigns[c], p, b)] == w.campaigns[c := SetIn(w.campaigns[c], p, b)];
  }

  lemma SentOnly(w: World, c: nat, p: nat, look: TextLook)
    requires IsAt(w, c, p)
    ensures
      var w' := Send(w, c, p, look);
      && w'.trace == w.trace + TextEntries(w.campaigns[c].people[p], c, p, look) && w'.doNotContact == w.doNotContact
      && OnlyPerson(w.campaigns, w'.campaigns, c, p)
  {
    SentEntriesAre(w, c, p, look);
  }

  class Engine {
    var campaigns: seq<Campaign>
    var doNotContact: seq<Number>
    var dials: Option<Dials>
    var trace: seq<Entry>

    constructor ()
      ensures State() == World([], [], None, [])
    {
      campaigns, doNotContact, dials, trace := [], [], None, [];
    }

    function State(): World
      reads this
    {
      World(campaigns, doNotContact, dials, trace)
    }

    // ---- Finding -----------------------------------------------------------------------

    /** The person an event is about. */
    method Find(key: Key) returns (hit: Option<(nat, nat)>)
      ensures hit == ByAttempt(State(), key)
    {
      var w := State();
      var c: nat := 0;
      while c < |campaigns|
        invariant c <= |campaigns| && FindFrom(w, key, 0, 0) == FindFrom(w, key, c, 0)
      {
        var p: nat := 0;
        while p < |campaigns[c].people|
          invariant p <= |campaigns[c].people| && FindFrom(w, key, 0, 0) == FindFrom(w, key, c, p)
        {
          if IsHit(w, c, p, key) {
            return Some((c, p));
          }
          p := p + 1;
        }
        c := c + 1;
      }
      hit := None;
    }

    /** A call of any campaign's is ringing or going on. */
    method IsBusy() returns (busy: bool)
      ensures busy == Busy(State())
    {
      var w := State();
      var c: nat := 0;
      while c < |campaigns|
        invariant c <= |campaigns| && !BusyBefore(w, c, 0)
      {
        if campaigns[c].kind == Calls {
          var p: nat := 0;
          while p < |campaigns[c].people|
            invariant p <= |campaigns[c].people| && !BusyBefore(w, c, p)
          {
            if Live(campaigns[c].people[p].state) {
              assert IsAt(w, c, p);
              return true;
            }
            p := p + 1;
          }
        }
        c := c + 1;
      }
      busy := false;
    }

    /** Counts who was texted within an hour and within a day, and finds the latest text of the day (0 where there is none). */
    method CountTexts(now: int) returns (hour: nat, day: nat, last: int)
      ensures hour == |Recent(State(), now, HOUR)| && day == |Recent(State(), now, DAY)|
      ensures last >= 0 && forall c: nat, p: nat :: IsAt(State(), c, p) && TextedWithin(State().campaigns[c], p, now, DAY) ==> State().campaigns[c].people[p].attempt.value.at <= last
      ensures last == 0 || exists c: nat, p: nat :: IsAt(State(), c, p) && TextedWithin(State().campaigns[c], p, now, DAY) && State().campaigns[c].people[p].attempt.value.at == last
    {
      var w := State();
      hour, day, last := 0, 0, 0;
      var c: nat := 0;
      RecentAll(w, now, HOUR);
      RecentAll(w, now, DAY);
      while c < |campaigns|
        invariant c <= |campaigns|
        invariant hour == |RecentBefore(w, now, HOUR, c, 0)| && day == |RecentBefore(w, now, DAY, c, 0)|
        invariant LastBefore(w, now, last, c, 0)
      {
        var p: nat := 0;
        if campaigns[c].kind == Texts {
          while p < |campaigns[c].people|
            invariant p <= |campaigns[c].people|
            invariant hour == |RecentBefore(w, now, HOUR, c, p)| && day == |RecentBefore(w, now, DAY, c, p)|
            invariant LastBefore(w, now, last, c, p)
          {
            RecentGrows(w, now, HOUR, c, p);
            RecentGrows(w, now, DAY, c, p);
            LastGrows(w, now, last, c, p);
            if TextedWithin(campaigns[c], p, now, DAY) {
              day := day + 1;
              if TextedWithin(campaigns[c], p, now, HOUR) {
                hour := hour + 1;
              }
              if campaigns[c].people[p].attempt.value.at > last {
                last := campaigns[c].people[p].attempt.value.at;
              }
            }
            p := p + 1;
          }
        }
        RecentNext(w, now, HOUR, c, p);
        RecentNext(w, now, DAY, c, p);
        LastNext(w, now, last, c, p);
        c := c + 1;
      }
      LastAll(w, now, last);
    }

    // ---- Looking -------------------------------------------------------------------------

    /** What has waited too long in a campaign, person after person. */
    method LookOverdue(c: nat, now: int, said: Overheard)
      requires c < |campaigns|
      modifies this
      ensures State() == Overdue(old(State()), c, now, said)
    {
      ghost var it := campaigns[c];
      var p: nat := 0;
      while p < |campaigns[c].people|
        invariant p <= |it.people| && c < |campaigns|
        invariant State() == SetCampaign(old(State()), c, OverdueFirst(it, p, now, said))
      {
        campaigns := campaigns[c := OverdueOne(campaigns[c], p, now, said.live(p), said.heard(p))];
        p := p + 1;
      }
    }

    method PauseRunning(running: seq<nat>)
      requires forall i :: 0 <= i < |running| ==> running[i] < |campaigns|
      modifies this
      ensures State() == PauseAll(old(State()), running)
    {
      var i := 0;
      while i < |running|
        invariant 0 <= i <= |running| && |campaigns| == |old(campaigns)|
        invariant PauseAll(State(), running[i..]) == PauseAll(old(State()), running)
      {
        assert running[i..][1..] == running[i + 1..];
        campaigns := campaigns[running[i] := PauseFor(campaigns[running[i]])];
        i := i + 1;
      }
    }

    /** Ring them; the phone's answer decides what happens next. */
    method Ring(c: nat, p: nat, look: DialLook)
      requires IsAt(State(), c, p)
      modifies this
      ensures State() == Place(old(State()), c, p, look)
      ensures trace == old(trace) + [Rang(c, p, old(campaigns[c].people[p].number), look.now)] && doNotContact == old(doNotContact)
      ensures OnlyPerson(old(campaigns), campaigns, c, p)
    {
      AnsweredIs(campaigns[c], p, campaigns[c].people[p].tries + 1, look.reply, look.now);
      hide Answered;
      var who := campaigns[c].people[p];
      trace := trace + [Rang(c, p, who.number, look.now)];
      campaigns := campaigns[c := Answered(campaigns[c], p, who.tries + 1, look.reply, look.now)];
      if look.reply.Dialled? && look.reply.today.Some? {
        dials := look.reply.today;
      }
    }

    /** The look for whom to dial, with its early returns. */
    method LookDial(look: DialLook, same: (Number, Number) -> bool)
      modifies this
      ensures State() == Dial(old(State()), look, same)
    {
      hide Busy, DueOf, RunningByAge, Place, PauseAll, Settle;
      var running := RunningByAge(State(), Calls);
      RunningAreThere(State(), Calls);
      var due := DueOf(State(), running, look.now);
      DueAreThere(State(), Calls, running, look.now);
      if running == [] {
        return;
      }
      var busy := IsBusy();
      if busy || !look.phone || due == [] || !look.lineFree || look.callbackFirst {
        return;
      }
      if look.outbound == Some(false) {
        PauseRunning(running);
        return;
      }
      if dials.Some? && dials.value.day == look.day && dials.value.count >= dials.value.max {
        return;
      }
      if look.route == Some(false) {
        PauseRunning(running);
        return;
      }
      if look.route.None? {
        return;
      }
      RingFirst(due, look, same);
    }

    method RingFirst(due: seq<(nat, nat)>, look: DialLook, same: (Number, Number) -> bool)
      requires DueThere(State(), due)
      modifies this
      ensures State() == DialDue(old(State()), due, look, same)
    {
      hide Place, Settle;
      var i := 0;
      while i < |due|
        invariant 0 <= i <= |due| && DueThere(State(), due)
        invariant DialDue(State(), due[i..], look, same) == DialDue(old(State()), due, look, same)
      {
        var (c, p) := due[i];
        assert due[i..][1..] == due[i + 1..] && due[i..][0] == due[i];
        var who := campaigns[c].people[p];
        if look.inHours(c) {
          if look.barred(who.number) || Listed(doNotContact, who.number, same) {
            campaigns := campaigns[c := SetIn(campaigns[c], p, Settle(who, LeftOut, look.now))];
          } else {
            Ring(c, p, look);
            return;
          }
        }
        i := i + 1;
      }
    }

    /** Text them; the phone's answer decides what happens next. */
    method SendTo(c: nat, p: nat, look: TextLook)
      requires IsAt(State(), c, p)
      modifies this
      ensures State() == Send(old(State()), c, p, look)
      ensures trace == old(trace) + TextEntries(old(campaigns[c].people[p]), c, p, look) && doNotContact == old(doNotContact)
      ensures OnlyPerson(old(campaigns), campaigns, c, p)
    {
      hide TextEntries, OnlyPerson, Settle, MayHaveGone;
      SentOnly(State(), c, p, look);
      var who := campaigns[c].people[p];
      var n := who.tries + 1;
      var failedOnce := who.attempt.Some? && who.attempt.value.failedOnce;
      var a := Attempt(n, look.now, None, None, None, Some(MessageId(c, p, n)), None, false, false, false, None, None, failedOnce);
      campaigns := campaigns[c := SetIn(campaigns[c], p, who.(state := Sending, tries := n, attempt := Some(a)))];
      trace := trace + [Texted(c, p, n, who.number, look.now)];
      var q := campaigns[c].people[p];
      if who.number == TEST {
        campaigns := campaigns[c := SetIn(campaigns[c], p, q.(state := AwaitingReply, attempt := Some(a.(sentAt := Some(look.now)))))];
        SetTwice(old(State()), c, p, q, campaigns[c].people[p]);
      } else {
        match look.reply
        case Taken =>
        case InDoubt =>
          campaigns := campaigns[c := SetIn(campaigns[c], p, MayHaveGone(q))];
          SetTwice(old(State()), c, p, q, MayHaveGone(q));
        case BadRecipient =>
          campaigns := campaigns[c := SetIn(campaigns[c], p, Settle(q, InvalidNumber, look.now))];
          SetTwice(old(State()), c, p, q, Settle(q, InvalidNumber, look.now));
        case OtherError => DidFail(c, p, look.now);
      }
    }

    method DidFail(c: nat, p: nat, now: int)
      requires IsAt(State(), c, p) && campaigns[c].people[p].attempt.Some?
      modifies this
      ensures State() == TextDidFail(old(State()), c, p, now)
    {
      var who := campaigns[c].people[p];
      var a := who.attempt.value;
      if !a.failedOnce {
        campaigns := campaigns[c := SetIn(campaigns[c], p, who.(state := Queued, nextAt := now + Minutes(5), attempt := Some(a.(failedOnce := true))))];
      } else {
        campaigns := campaigns[c := SetIn(campaigns[c], p, Settle(who, Unreachable, now))];
      }
      trace := trace + [TextFailed(c, p, a.n)];
    }

    /** The look for whom to text, with its early returns. */
    method LookText(look: TextLook, same: (Number, Number) -> bool)
      modifies this
      ensures State() == Text(old(State()), look, same)
    {
      hide DueOf, RunningByAge, TextDue, Recent, TextedWithin;
      var running := RunningByAge(State(), Texts);
      RunningAreThere(State(), Texts);
      if running == [] {
        return;
      }
      var due := DueOf(State(), running, look.now);
      DueAreThere(State(), Texts, running, look.now);
      if due == [] || !look.phone {
        return;
      }
      var hour, day, last := CountTexts(look.now);
      if look.now - last < TEXT_GAP || hour >= TEXTS_PER_HOUR || day >= TEXTS_PER_DAY {
        return;
      }
      SendFirst(due, look, same);
    }

    method SendFirst(due: seq<(nat, nat)>, look: TextLook, same: (Number, Number) -> bool)
      requires DueThere(State(), due)
      modifies this
      ensures State() == TextDue(old(State()), due, look, same)
    {
      hide Send, Settle;
      var i := 0;
      while i < |due|
        invariant 0 <= i <= |due| && DueThere(State(), due)
        invariant TextDue(State(), due[i..], look, same) == TextDue(old(State()), due, look, same)
      {
        var (c, p) := due[i];
        assert due[i..][1..] == due[i + 1..] && due[i..][0] == due[i];
        var who := campaigns[c].people[p];
        if look.inHours(c) {
          if who.number != TEST && (look.barred(who.number) || Listed(doNotContact, who.number, same)) {
            campaigns := campaigns[c := SetIn(campaigns[c], p, Settle(who, LeftOut, look.now))];
          } else {
            SendTo(c, p, look);
            return;
          }
        }
        i := i + 1;
      }
    }

    // ---- Events and requests ----------------------------------------------------------------

    /** An event from the desktop. */
    method OnDesktop(e: Event, now: int)
      modifies this
      ensures State() == OnEvent(old(State()), e, now)
    {
      hide SettleCall, FindFrom;
      match e
      case CallDialling(_) =>
      case CallRinging(call) => Rings(call, Ringing);
      case CallAnswered(call) => Rings(call, OnCall);
      case CallEnded(call, outcome, reason) =>
        var hit := Find(ByCall(call));
        if hit.Some? {
          var (c, p) := hit.value;
          var who := campaigns[c].people[p];
          if who.attempt.value.ended.None? && !Final(who.state) {
            var end := EndOfCall(outcome, reason, now);
            campaigns := campaigns[c := SettleCall(SetIn(campaigns[c], p, who.(attempt := Some(who.attempt.value.(ended := Some(end))))), p, now)];
          }
        }
      case DialFailed(operation) =>
        var hit := Find(ByOperation(operation));
        if hit.Some? {
          var (c, p) := hit.value;
          var who := campaigns[c].people[p];
          if who.attempt.value.ended.None? && !Final(who.state) {
            campaigns := campaigns[c := SetIn(campaigns[c], p, GiveBack(who, now))];
          }
        }
      case TextSent(m) =>
        var hit := Find(ByMessage(m));
        if hit.Some? {
          var (c, p) := hit.value;
          var who := campaigns[c].people[p];
          if who.state == Sending || (who.state == AwaitingReply && who.unconfirmed) {
            campaigns := campaigns[c := SetIn(campaigns[c], p,
              who.(state := AwaitingReply, attempt := Some(who.attempt.value.(sentAt := Some(now))), unconfirmed := false))];
          }
        }
      case TextRefused(_) =>
      case TextLost(m, unknown) =>
        var hit := Find(ByMessage(m));
        if hit.Some? {
          var (c, p) := hit.value;
          if !Final(campaigns[c].people[p].state) {
            if unknown {
              campaigns := campaigns[c := SetIn(campaigns[c], p, MayHaveGone(campaigns[c].people[p]))];
            } else {
              DidFail(c, p, now);
            }
          }
        }
    }

    method Rings(call: Id, to: PersonState)
      modifies this
      ensures State() == OnRing(old(State()), call, to)
    {
      hide FindFrom;
      var hit := Find(ByCall(call));
      if hit.Some? {
        var (c, p) := hit.value;
        var who := campaigns[c].people[p];
        if !Final(who.state) && who.state != Ended {
          campaigns := campaigns[c := SetIn(campaigns[c], p, who.(state := to))];
        }
      }
    }

    /** Those not contacted yet are settled; then its report, once no call of it goes on. */
    method EndCampaign(c: nat, now: int)
      requires c < |campaigns|
      modifies this
      ensures State() == End(old(State()), c, now)
    {
      hide Settle;
      if campaigns[c].state == Finished || campaigns[c].state == Stopped {
        return;
      }
      ghost var it := campaigns[c];
      var p := 0;
      while p < |campaigns[c].people|
        invariant 0 <= p <= |it.people| && |campaigns| == |old(campaigns)| && |campaigns[c].people| == |it.people|
        invariant State() == SetCampaign(old(State()), c, it.(people := campaigns[c].people))
        invariant forall i :: 0 <= i < p ==> campaigns[c].people[i] == End1(it.people[i], now)
        invariant forall i :: p <= i < |it.people| ==> campaigns[c].people[i] == it.people[i]
      {
        campaigns := campaigns[c := SetIn(campaigns[c], p, End1(campaigns[c].people[p], now))];
        p := p + 1;
      }
      assert campaigns[c].people == EndPeople(it.people, now);
      campaigns := campaigns[c := campaigns[c].(state := Stopped)];
      assert State() == SetCampaign(old(State()), c, it.(people := EndPeople(it.people, now), state := Stopped));
      Finish(c, now, true);
    }

    /** Ends and reports the campaign, or leaves it. */
    method Finish(c: nat, now: int, force: bool)
      requires c < |campaigns|
      modifies this
      ensures State() == FinishIfDone(old(State()), c, now, force)
      ensures trace == old(trace) || trace == old(trace) + [Reported(c)]
      ensures trace != old(trace) ==> old(campaigns[c].endedAt).None? && campaigns[c].endedAt.Some?
      ensures trace != old(trace) ==> AllFinal(campaigns[c]) || (!HasLive(campaigns[c]) && (force || old(campaigns[c].state) == Stopped))
      ensures old(campaigns[c].endedAt).Some? ==> campaigns == old(campaigns) && trace == old(trace)
    {
      if campaigns[c].endedAt.Some? || (campaigns[c].approvedAt == 0 && !force) {
        return;
      }
      var live, all := HasLive(campaigns[c]), AllFinal(campaigns[c]);
      if !(all || (force && !live) || (campaigns[c].state == Stopped && !live)) {
        return;
      }
      campaigns := campaigns[c := campaigns[c].(state := if campaigns[c].state == Stopped then Stopped else Finished, endedAt := Some(now))];
      trace := trace + [Reported(c)];
    }

    /** Goes over the text campaigns for the sender of a stop word. */
    method StopFor(number: Number, kept: Number, now: int, same: (Number, Number) -> bool) returns (found: bool)
      modifies this
      ensures State() == StopWord(old(State()), number, kept, now, same)
      ensures found == StopFinds(old(State()), number, same)
    {
      hide StopsFor, Stop1;
      ghost var w := State();
      found := false;
      var c: nat := 0;
      while c < |campaigns|
        invariant c <= |campaigns| == |w.campaigns| && State() == w.(campaigns := campaigns)
        invariant forall d :: 0 <= d < c ==> campaigns[d] == StopIn(w.campaigns[d], number, now, same)
        invariant forall d :: c <= d < |campaigns| ==> campaigns[d] == w.campaigns[d]
        invariant found == FoundBefore(w, number, same, c)
      {
        if campaigns[c].kind == Texts {
          var here := StopInOne(c, number, now, same);
          found := found || here;
        }
        c := c + 1;
      }
      assert campaigns == StopAllIn(w.campaigns, number, now, same);
      if found {
        doNotContact := AddDoNotContact(State(), number, kept, same).doNotContact;
      }
    }

    method StopInOne(c: nat, number: Number, now: int, same: (Number, Number) -> bool) returns (found: bool)
      requires c < |campaigns| && campaigns[c].kind == Texts
      modifies this
      ensures State() == SetCampaign(old(State()), c, StopIn(old(campaigns[c]), number, now, same))
      ensures found == FoundIn(old(campaigns[c]), number, same)
    {
      hide StopsFor, Stop1;
      ghost var w, it := State(), campaigns[c];
      found := false;
      var p := 0;
      while p < |campaigns[c].people|
        invariant 0 <= p <= |it.people| && |campaigns| == |w.campaigns| && |campaigns[c].people| == |it.people|
        invariant State() == SetCampaign(w, c, it.(people := campaigns[c].people))
        invariant forall i :: 0 <= i < p ==> campaigns[c].people[i] == Stop1(it.people[i], number, now, same)
        invariant forall i :: p <= i < |it.people| ==> campaigns[c].people[i] == it.people[i]
        invariant found == exists i :: 0 <= i < p && StopsFor(it.people[i], number, same)
      {
        found := found || StopsFor(campaigns[c].people[p], number, same);
        campaigns := campaigns[c := SetIn(campaigns[c], p, Stop1(campaigns[c].people[p], number, now, same))];
        p := p + 1;
      }
      assert campaigns[c].people == StopPeople(it.people, number, now, same);
    }
  }

  ghost predicate FoundIn(it: Campaign, number: Number, same: (Number, Number) -> bool) {
    it.kind == Texts && exists p :: 0 <= p < |it.people| && StopsFor(it.people[p], number, same)
  }

  ghost predicate FoundBefore(w: World, number: Number, same: (Number, Number) -> bool, c: nat) {
    exists d :: 0 <= d < c && d < |w.campaigns| && FoundIn(w.campaigns[d], number, same)
  }

  /** `last` is when the last text of those before `d`, `q` went, within the day. */
  ghost predicate LastBefore(w: World, now: int, last: int, d: nat, q: nat) {
    && last >= 0
    && (forall c: nat, p: nat :: IsAt(w, c, p) && Before(c, p, d, q) && TextedWithin(w.campaigns[c], p, now, DAY) ==> w.campaigns[c].people[p].attempt.value.at <= last)
    && (last == 0 || exists c: nat, p: nat :: IsAt(w, c, p) && TextedWithin(w.campaigns[c], p, now, DAY) && w.campaigns[c].people[p].attempt.value.at == last)
  }

  lemma LastGrows(w: World, now: int, last: int, d: nat, q: nat)
    requires IsAt(w, d, q) && LastBefore(w, now, last, d, q)
    ensures
      var recent := TextedWithin(w.campaigns[d], q, now, DAY);
      LastBefore(w, now, if recent && w.campaigns[d].people[q].attempt.value.at > last then w.campaigns[d].people[q].attempt.value.at else last, d, q + 1)
  {
    hide TextedWithin;
  }

  lemma LastNext(w: World, now: int, last: int, d: nat, q: nat)
    requires d < |w.campaigns| && LastBefore(w, now, last, d, q)
    requires q >= |w.campaigns[d].people| || (w.campaigns[d].kind != Texts && q == 0)
    ensures LastBefore(w, now, last, d + 1, 0)
  {
  }

  lemma LastAll(w: World, now: int, last: int)
    requires LastBefore(w, now, last, |w.campaigns|, 0)
    ensures forall c: nat, p: nat :: IsAt(w, c, p) && TextedWithin(w.campaigns[c], p, now, DAY) ==> w.campaigns[c].people[p].attempt.value.at <= last
  {
    hide TextedWithin;
  }
}
