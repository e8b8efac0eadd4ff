/**
 * Whom the outreach engine's looks ring and text (app/src/outreach.ts:984-1031,
 * 1122-1168): of all who may be, the first in turn, and someone whenever
 * anyone may be.
 */
module OutreachDue {
  import opened Options
  import opened TimeOrder
  import opened Subsequences
  import opened Outreach
  import opened OutreachContacts

  predicate IsRunning(w: World, kind: Kind, c: nat) {
    c < |w.campaigns| && w.campaigns[c].kind == kind && w.campaigns[c].state == Running
  }

  /** A person of a running campaign, whose time has come. */
  predicate Due(w: World, kind: Kind, c: nat, p: nat, now: int) {
    IsRunning(w, kind, c) && p < |w.campaigns[c].people| && IsDue(kind, w.campaigns[c].people[p], now)
  }

  /** An older campaign's, or one listed before as old; in a campaign, as listed. */
  predicate InTurn(w: World, c: nat, p: nat, d: nat, q: nat)
    requires c < |w.campaigns| && d < |w.campaigns|
  {
    if c == d then p < q
    else w.campaigns[c].createdAt < w.campaigns[d].createdAt || (w.campaigns[c].createdAt == w.campaigns[d].createdAt && c < d)
  }

  // ---- The running campaigns, by age -----------------------------------------------------------

  lemma {:induction false} SlotsHave(w: World, kind: Kind, from: nat, e: Slot)
    requires from <= |w.campaigns|
    ensures e in RunningSlots(w, kind, from) <==> from <= e.lane && IsRunning(w, kind, e.lane) && e == Slot(e.lane, 0, At(w.campaigns[e.lane].createdAt))
    decreases |w.campaigns| - from
  {
    if from < |w.campaigns| {
      SlotsHave(w, kind, from + 1, e);
    }
  }

  lemma {:induction false} SlotsByLane(w: World, kind: Kind, from: nat)
    requires from <= |w.campaigns|
    ensures ByLane(RunningSlots(w, kind, from))
    decreases |w.campaigns| - from
  {
    if from < |w.campaigns| {
      SlotsByLane(w, kind, from + 1);
      var rest := RunningSlots(w, kind, from + 1);
      forall i | 0 <= i < |rest|
        ensures rest[i].lane > from
      {
        SlotsHave(w, kind, from + 1, rest[i]);
        assert rest[i] in rest;
      }
    }
  }

  /** What is sorted is the running campaigns' slots. */
  ghost predicate SlotsAreRunning(w: World, kind: Kind, t: seq<Slot>) {
    forall e: Slot :: e in t <==> IsRunning(w, kind, e.lane) && e == Slot(e.lane, 0, At(w.campaigns[e.lane].createdAt))
  }

  lemma SortedSlotsAre(w: World, kind: Kind)
    ensures
      var t := StableSort(RunningSlots(w, kind, 0));
      SlotsAreRunning(w, kind, t) && ByTime(t) && TiesByLane(t)
  {
    hide RunningSlots, StableSort, ByTime, TiesByLane, ByLane;
    var s := RunningSlots(w, kind, 0);
    var t := StableSort(s);
    SortKeeps(s);
    SlotsByLane(w, kind, 0);
    StableTies(s);
    forall e: Slot
      ensures e in t <==> IsRunning(w, kind, e.lane) && e == Slot(e.lane, 0, At(w.campaigns[e.lane].createdAt))
    {
      SlotsHave(w, kind, 0, e);
      assert e in t <==> e in multiset(t);
    }
  }

  /** Every running campaign of the kind, once, and in turn. */
  lemma RunningAre(w: World, kind: Kind)
    ensures
      var r := RunningByAge(w, kind);
      (forall c: nat :: c in r <==> IsRunning(w, kind, c)) && Ordered(w, r)
  {
    hide RunningSlots, StableSort, ByTime, TiesByLane, SlotsAreRunning, Ordered, IsRunning, NoRepeats;
    var t, r := StableSort(RunningSlots(w, kind, 0)), RunningByAge(w, kind);
    SortedSlotsAre(w, kind);
    LanesAre(t);
    RunningAreOnce(w, kind);
    LanesHave(w, kind, t, r);
    LanesInTurn(w, kind, t, r);
  }

  lemma LanesHave(w: World, kind: Kind, t: seq<Slot>, r: seq<nat>)
    requires SlotsAreRunning(w, kind, t) && |r| == |t| && forall i :: 0 <= i < |t| ==> r[i] == t[i].lane
    ensures forall c: nat :: c in r <==> IsRunning(w, kind, c)
  {
    forall c: nat
      ensures c in r <==> IsRunning(w, kind, c)
    {
      if IsRunning(w, kind, c) {
        assert Slot(c, 0, At(w.campaigns[c].createdAt)) in t;
        var i :| 0 <= i < |t| && t[i] == Slot(c, 0, At(w.campaigns[c].createdAt));
        assert r[i] == c;
      }
      if c in r {
        var i :| 0 <= i < |r| && r[i] == c;
        assert t[i] in t;
      }
    }
  }

  lemma LanesInTurn(w: World, kind: Kind, t: seq<Slot>, r: seq<nat>)
    requires SlotsAreRunning(w, kind, t) && ByTime(t) && TiesByLane(t)
    requires |r| == |t| && NoRepeats(r) && forall i :: 0 <= i < |t| ==> r[i] == t[i].lane
    ensures Ordered(w, r)
  {
    forall i | 0 <= i < |t|
      ensures r[i] < |w.campaigns| && t[i].time == At(w.campaigns[r[i]].createdAt)
    {
      assert t[i] in t;
    }
  }

  // ---- Who is due, in turn -----------------------------------------------------------------------

  lemma {:induction false} DueInHas(w: World, c: nat, p: nat, now: int, e: (nat, nat))
    requires c < |w.campaigns| && p <= |w.campaigns[c].people|
    ensures e in DueIn(w, c, p, now) <==> e.0 == c && p <= e.1 < |w.campaigns[c].people| && IsDue(w.campaigns[c].kind, w.campaigns[c].people[e.1], now)
    decreases |w.campaigns[c].people| - p
  {
    hide IsDue;
    if p < |w.campaigns[c].people| {
      DueInHas(w, c, p + 1, now, e);
    }
  }

  ghost predicate Rises(due: seq<(nat, nat)>) {
    forall i, j :: 0 <= i < j < |due| ==> due[i].1 < due[j].1
  }

  lemma {:induction false} DueInRises(w: World, c: nat, p: nat, now: int)
    requires c < |w.campaigns| && p <= |w.campaigns[c].people|
    ensures Rises(DueIn(w, c, p, now))
    decreases |w.campaigns[c].people| - p
  {
    if p < |w.campaigns[c].people| {
      DueInRises(w, c, p + 1, now);
      var rest := DueIn(w, c, p + 1, now);
      forall i | 0 <= i < |rest|
        ensures rest[i].1 > p
      {
        DueInHas(w, c, p + 1, now, rest[i]);
        assert rest[i] in rest;
      }
    }
  }

  lemma {:induction false} DueOfHas(w: World, running: seq<nat>, now: int, e: (nat, nat))
    requires forall i :: 0 <= i < |running| ==> running[i] < |w.campaigns|
    ensures e in DueOf(w, running, now) <==>
      e.0 in running && e.1 < |w.campaigns[e.0].people| && IsDue(w.campaigns[e.0].kind, w.campaigns[e.0].people[e.1], now)
  {
    hide IsDue;
    if running != [] {
      DueOfHas(w, running[1..], now, e);
      DueInHas(w, running[0], 0, now, e);
      assert running == [running[0]] + running[1..];
    }
  }

  /** Campaigns in turn, each once. */
  ghost predicate Ordered(w: World, running: seq<nat>) {
    && (forall i :: 0 <= i < |running| ==> running[i] < |w.campaigns|)
    && (forall i, j :: 0 <= i < j < |running| ==> running[i] != running[j] && InTurn(w, running[i], 0, running[j], 0))
  }

  /** People of these campaigns, in turn. */
  ghost predicate PeopleInTurn(w: World, running: seq<nat>, due: seq<(nat, nat)>) {
    && (forall i :: 0 <= i < |due| ==> due[i].0 in running && due[i].0 < |w.campaigns|)
    && (forall i, j :: 0 <= i < j < |due| ==> InTurn(w, due[i].0, due[i].1, due[j].0, due[j].1))
  }

  lemma {:induction false} DueInOrder(w: World, running: seq<nat>, now: int)
    requires Ordered(w, running)
    ensures PeopleInTurn(w, running, DueOf(w, running, now))
  {
    hide DueIn, PeopleInTurn, InTurn, Rises;
    if running == [] {
      NoPeople(w);
    } else {
      var c, rest := running[0], running[1..];
      assert Ordered(w, rest) by {
        assert forall i :: 0 <= i < |rest| ==> rest[i] == running[i + 1];
      }
      DueInOrder(w, rest, now);
      var here, later := DueIn(w, c, 0, now), DueOf(w, rest, now);
      DueInRises(w, c, 0, now);
      forall i | 0 <= i < |here|
        ensures here[i].0 == c
      {
        DueInHas(w, c, 0, now, here[i]);
        assert here[i] in here;
      }
      HereThenLater(w, running, here, later);
    }
  }

  lemma NoPeople(w: World)
    ensures PeopleInTurn(w, [], [])
  {
  }

  lemma HereThenLater(w: World, running: seq<nat>, here: seq<(nat, nat)>, later: seq<(nat, nat)>)
    requires running != [] && Ordered(w, running) && forall i :: 0 <= i < |here| ==> here[i].0 == running[0]
    requires Rises(here) && PeopleInTurn(w, running[1..], later)
    ensures PeopleInTurn(w, running, here + later)
  {
    var due, c, rest := here + later, running[0], running[1..];
    forall j | 0 <= j < |later|
      ensures later[j].0 in running && later[j].0 != c && InTurn(w, c, 0, later[j].0, 0)
    {
      var k :| 0 <= k < |rest| && rest[k] == later[j].0;
      assert rest[k] == running[k + 1];
    }
    forall i, j | 0 <= i < j < |due|
      ensures InTurn(w, due[i].0, due[i].1, due[j].0, due[j].1)
    {
      if i >= |here| {
        assert due[i] == later[i - |here|] && due[j] == later[j - |here|];
      } else if j >= |here| {
        assert due[j] == later[j - |here|] && due[i].0 == c;
      }
    }
  }

  /** The list of those due: each of them, once, in turn. */
  ghost predicate IsDueList(w: World, kind: Kind, now: int, due: seq<(nat, nat)>) {
    && (forall e: (nat, nat) :: e in due <==> Due(w, kind, e.0, e.1, now))
    && (forall i, j :: 0 <= i < j < |due| ==>
          due[i].0 < |w.campaigns| && due[j].0 < |w.campaigns| && InTurn(w, due[i].0, due[i].1, due[j].0, due[j].1))
  }

  lemma DueAre(w: World, kind: Kind, now: int)
    ensures
      && (forall i :: 0 <= i < |RunningByAge(w, kind)| ==> RunningByAge(w, kind)[i] < |w.campaigns|)
      && IsDueList(w, kind, now, DueOf(w, RunningByAge(w, kind), now))
  {
    hide RunningByAge, DueOf, InTurn, IsDue, Ordered;
    RunningAreThere(w, kind);
    RunningAre(w, kind);
    var running := RunningByAge(w, kind);
    DueInOrder(w, running, now);
    forall e: (nat, nat)
      ensures e in DueOf(w, running, now) <==> Due(w, kind, e.0, e.1, now)
    {
      DueOfHas(w, running, now, e);
    }
  }

  // ---- The first who may be contacted --------------------------------------------------------------------

  /** Of those due who may be contacted, the one in turn. */
  ghost predicate First(w: World, kind: Kind, now: int, may: (nat, nat) -> bool, c: nat, p: nat) {
    && Due(w, kind, c, p, now) && may(c, p)
    && forall d: nat, q: nat :: Due(w, kind, d, q, now) && may(d, q) ==> (d == c && q == p) || InTurn(w, c, p, d, q)
  }

  ghost predicate Someone(w: World, kind: Kind, now: int, may: (nat, nat) -> bool) {
    exists c: nat, p: nat :: Due(w, kind, c, p, now) && may(c, p)
  }

  /** The first of the list, when there is one. */
  ghost predicate FirstAt(due: seq<(nat, nat)>, may: (nat, nat) -> bool, k: nat) {
    k <= |due| && (forall i :: 0 <= i < k ==> !may(due[i].0, due[i].1)) && (k < |due| ==> may(due[k].0, due[k].1))
  }

  lemma FirstIs(w: World, kind: Kind, now: int, due: seq<(nat, nat)>, may: (nat, nat) -> bool, k: nat)
    requires IsDueList(w, kind, now, due) && FirstAt(due, may, k)
    ensures k < |due| <==> Someone(w, kind, now, may)
    ensures k < |due| ==> First(w, kind, now, may, due[k].0, due[k].1)
  {
    hide InTurn, IsDue;
    forall d: nat, q: nat | Due(w, kind, d, q, now) && may(d, q)
      ensures k < |due| && ((d == due[k].0 && q == due[k].1) || InTurn(w, due[k].0, due[k].1, d, q))
    {
      assert (d, q) in due;
      var j :| 0 <= j < |due| && due[j] == (d, q);
    }
    if k < |due| {
      assert due[k] in due;
    }
  }

  /** One who may not be contacted is passed over. */
  lemma PassedOver(due: seq<(nat, nat)>, may: (nat, nat) -> bool, later: (nat, nat) -> bool, j: nat)
    requires due != [] && !may(due[0].0, due[0].1) && FirstAt(due[1..], later, j)
    requires forall i :: 0 <= i < |due| ==> later(due[i].0, due[i].1) == may(due[i].0, due[i].1)
    ensures FirstAt(due, may, j + 1) && (j < |due[1..]| ==> due[1..][j] == due[j + 1])
  {
    forall i | 0 <= i < j + 1
      ensures !may(due[i].0, due[i].1)
    {
      assert i > 0 ==> due[1..][i - 1] == due[i];
    }
  }

  // ---- Whom a look rings -------------------------------------------------------------------------------

  /** Within its hours, neither kept from the phone by its screening nor asked not to be contacted. */
  predicate MayRing(w: World, look: DialLook, same: (Number, Number) -> bool, c: nat, p: nat) {
    && IsAt(w, c, p) && look.inHours(c)
    && !look.barred(w.campaigns[c].people[p].number) && !Listed(w.doNotContact, w.campaigns[c].people[p].number, same)
  }

  function RingTest(w: World, look: DialLook, same: (Number, Number) -> bool): (nat, nat) -> bool {
    (c: nat, p: nat) => MayRing(w, look, same, c, p)
  }

  /** The phone may make a dial at all. */
  ghost predicate MayDial(w: World, look: DialLook) {
    && !Busy(w) && look.phone && look.lineFree && !look.callbackFirst && look.outbound != Some(false) && look.route == Some(true)
    && !(w.dials.Some? && w.dials.value.day == look.day && w.dials.value.count >= w.dials.value.max)
  }

  /** Down the list, the first who may be rung is. */
  lemma {:induction false} DialDueRings(w: World, due: seq<(nat, nat)>, look: DialLook, same: (Number, Number) -> bool) returns (k: nat)
    requires DueThere(w, due)
    ensures FirstAt(due, RingTest(w, look, same), k)
    ensures DialDue(w, due, look, same).trace ==
      w.trace + if k < |due| then [Rang(due[k].0, due[k].1, w.campaigns[due[k].0].people[due[k].1].number, look.now)] else []
    decreases |due|
  {
    hide DialDue, MayRing, FirstAt, LeaveOut;
    DialDueStep(w, due, look, same);
    if due == [] {
      k := 0;
      NooneLeft(RingTest(w, look, same));
      assert w.trace + [] == w.trace;
    } else {
      var (c, p) := due[0];
      if MayRing(w, look, same, c, p) {
        k := 0;
        AtOnce(due, RingTest(w, look, same));
      } else {
        var w1 := if !look.inHours(c) then w else LeaveOut(w, c, p, look.now);
        LeftOutAlike(w, c, p, look.now, due);
        SameTest(w, w1, look, same, due);
        var j := DialDueRings(w1, due[1..], look, same);
        PassedOver(due, RingTest(w, look, same), RingTest(w1, look, same), j);
        k := j + 1;
      }
    }
  }

  lemma DialDueStep(w: World, due: seq<(nat, nat)>, look: DialLook, same: (Number, Number) -> bool)
    requires DueThere(w, due)
    ensures due == [] ==> DialDue(w, due, look, same) == w
    ensures due != [] ==>
      var (c, p) := due[0];
      var w1 := if !look.inHours(c) then w else LeaveOut(w, c, p, look.now);
      && DueThere(w1, due[1..])
      && if MayRing(w, look, same, c, p) then DialDue(w, due, look, same).trace == w.trace + [Rang(c, p, w.campaigns[c].people[p].number, look.now)]
         else DialDue(w, due, look, same) == DialDue(w1, due[1..], look, same)
  {
    hide Answered, Settle;
  }

  lemma SameTest(w: World, w1: World, look: DialLook, same: (Number, Number) -> bool, due: seq<(nat, nat)>)
    requires DueThere(w, due) && DueThere(w1, due) && w1.doNotContact == w.doNotContact
    requires forall i :: 0 <= i < |due| ==> w1.campaigns[due[i].0].people[due[i].1].number == w.campaigns[due[i].0].people[due[i].1].number
    ensures forall i :: 0 <= i < |due| ==> RingTest(w1, look, same)(due[i].0, due[i].1) == RingTest(w, look, same)(due[i].0, due[i].1)
  {
  }

  lemma NooneLeft(may: (nat, nat) -> bool)
    ensures FirstAt([], may, 0)
  {
  }

  lemma AtOnce(due: seq<(nat, nat)>, may: (nat, nat) -> bool)
    requires due != [] && may(due[0].0, due[0].1)
    ensures FirstAt(due, may, 0)
  {
  }

  lemma LeftOutAlike(w: World, c: nat, p: nat, now: int, due: seq<(nat, nat)>)
    requires IsAt(w, c, p) && DueThere(w, due)
    ensures
      var w1 := LeaveOut(w, c, p, now);
      && w1.trace == w.trace && w1.doNotContact == w.doNotContact && DueThere(w1, due)
      && (forall d: nat, q: nat :: IsAt(w1, d, q) <==> IsAt(w, d, q))
      && (forall d: nat, q: nat :: IsAt(w, d, q) ==> w1.campaigns[d].people[q].number == w.campaigns[d].people[q].number)
      && (forall i :: 0 <= i < |due| ==> w1.campaigns[due[i].0].people[due[i].1].number == w.campaigns[due[i].0].people[due[i].1].number)
      && (forall i :: 0 <= i < |due| && due[i] != (c, p) ==> w1.campaigns[due[i].0].people[due[i].1] == w.campaigns[due[i].0].people[due[i].1])
  {
  }

  lemma PausedAlike(w: World, running: seq<nat>)
    requires forall i :: 0 <= i < |running| ==> running[i] < |w.campaigns|
    ensures PauseAll(w, running).trace == w.trace
    decreases |running|
  {
  }

  /**
   * A look for a dial rings someone exactly when the phone may make one and
   * someone due may be rung; then the first of those in turn, and no one else.
   */
  lemma RingsTheFirst(w: World, look: DialLook, same: (Number, Number) -> bool)
    ensures
      var w', may := Dial(w, look, same), RingTest(w, look, same);
      if MayDial(w, look) && Someone(w, Calls, look.now, may) then
        exists c: nat, p: nat :: First(w, Calls, look.now, may, c, p) && w'.trace == w.trace + [Rang(c, p, w.campaigns[c].people[p].number, look.now)]
      else w'.trace == w.trace
  {
    hide RunningByAge, DueOf, DialDue, PauseAll, Busy, RingTest, First, FirstAt, IsDueList, Someone;
    var running := RunningByAge(w, Calls);
    RunningAreThere(w, Calls);
    var due := DueOf(w, running, look.now);
    DueAreThere(w, Calls, running, look.now);
    DueAre(w, Calls, look.now);
    PausedAlike(w, running);
    var k := DialDueRings(w, due, look, same);
    FirstIs(w, Calls, look.now, due, RingTest(w, look, same), k);
    NooneAt(due, RingTest(w, look, same), k);
    assert w.trace + [] == w.trace;
    NooneRunning(w, look.now);
    assert look.route.Some? ==> look.route.value == true || look.route.value == false;
  }

  lemma NooneAt(due: seq<(nat, nat)>, may: (nat, nat) -> bool, k: nat)
    requires FirstAt(due, may, k)
    ensures k <= |due|
  {
  }

  lemma NooneRunning(w: World, now: int)
    ensures DueOf(w, [], now) == []
  {
  }

  // ---- Whom a look texts -------------------------------------------------------------------------------

  /** Within its hours; the pretend number, or one neither kept from the phone nor asked not to be contacted. */
  predicate MayBeSent(w: World, look: TextLook, same: (Number, Number) -> bool, c: nat, p: nat) {
    && IsAt(w, c, p) && look.inHours(c)
    && var number := w.campaigns[c].people[p].number;
       (number == TEST || (!look.barred(number) && !Listed(w.doNotContact, number, same)))
  }

  function TextTest(w: World, look: TextLook, same: (Number, Number) -> bool): (nat, nat) -> bool {
    (c: nat, p: nat) => MayBeSent(w, look, same, c, p)
  }

  lemma {:induction false} TextDueSends(w: World, due: seq<(nat, nat)>, look: TextLook, same: (Number, Number) -> bool) returns (k: nat)
    requires DueThere(w, due) && NoRepeats(due)
    ensures FirstAt(due, TextTest(w, look, same), k)
    ensures TextDue(w, due, look, same).trace ==
      w.trace + if k < |due| then TextEntries(w.campaigns[due[k].0].people[due[k].1], due[k].0, due[k].1, look) else []
    decreases |due|
  {
    hide TextDue, TextEntries, MayBeSent, FirstAt, LeaveOut;
    TextDueStep(w, due, look, same);
    if due == [] {
      k := 0;
      NooneLeft(TextTest(w, look, same));
      assert w.trace + [] == w.trace;
    } else {
      var (c, p) := due[0];
      if MayBeSent(w, look, same, c, p) {
        k := 0;
        AtOnce(due, TextTest(w, look, same));
      } else {
        var w1 := if !look.inHours(c) then w else LeaveOut(w, c, p, look.now);
        LeftOutAlike(w, c, p, look.now, due);
        SameTextTest(w, w1, look, same, due);
        var j := TextDueSends(w1, due[1..], look, same);
        PassedOver(due, TextTest(w, look, same), TextTest(w1, look, same), j);
        k := j + 1;
        SameLater(w, w1, due, j);
      }
    }
  }

  lemma SameLater(w: World, w1: World, due: seq<(nat, nat)>, j: nat)
    requires due != [] && NoRepeats(due) && DueThere(w, due) && DueThere(w1, due) && j < |due|
    requires forall i :: 0 <= i < |due| && due[i] != due[0] ==> w1.campaigns[due[i].0].people[due[i].1] == w.campaigns[due[i].0].people[due[i].1]
    ensures j + 1 < |due| ==>
      w1.campaigns[due[1..][j].0].people[due[1..][j].1] == w.campaigns[due[j + 1].0].people[due[j + 1].1]
  {
  }

  lemma TextDueStep(w: World, due: seq<(nat, nat)>, look: TextLook, same: (Number, Number) -> bool)
    requires DueThere(w, due)
    ensures due == [] ==> TextDue(w, due, look, same) == w
    ensures due != [] ==>
      var (c, p) := due[0];
      var w1 := if !look.inHours(c) then w else LeaveOut(w, c, p, look.now);
      && DueThere(w1, due[1..])
      && if MayBeSent(w, look, same, c, p) then TextDue(w, due, look, same).trace == w.trace + TextEntries(w.campaigns[c].people[p], c, p, look)
         else TextDue(w, due, look, same) == TextDue(w1, due[1..], look, same)
  {
    hide Send, Settle, TextEntries;
    if due != [] {
      SentEntriesAre(w, due[0].0, due[0].1, look);
    }
  }

  lemma SameTextTest(w: World, w1: World, look: TextLook, same: (Number, Number) -> bool, due: seq<(nat, nat)>)
    requires DueThere(w, due) && DueThere(w1, due) && w1.doNotContact == w.doNotContact
    requires forall i :: 0 <= i < |due| ==> w1.campaigns[due[i].0].people[due[i].1].number == w.campaigns[due[i].0].people[due[i].1].number
    ensures forall i :: 0 <= i < |due| ==> TextTest(w1, look, same)(due[i].0, due[i].1) == TextTest(w, look, same)(due[i].0, due[i].1)
  {
  }

  lemma InTurnOnce(w: World, kind: Kind, now: int, due: seq<(nat, nat)>)
    requires IsDueList(w, kind, now, due)
    ensures NoRepeats(due)
  {
  }

  /**
   * A look for a text sends one exactly when the phone is there, the pace lets
   * one go and someone due may be texted; then to the first of those in turn,
   * and to no one else.
   */
  lemma TextsTheFirst(w: World, look: TextLook, same: (Number, Number) -> bool)
    ensures
      var w', may := Text(w, look, same), TextTest(w, look, same);
      if look.phone && MayText(w, look.now) && Someone(w, Texts, look.now, may) then
        exists c: nat, p: nat :: First(w, Texts, look.now, may, c, p) && w'.trace == w.trace + TextEntries(w.campaigns[c].people[p], c, p, look)
      else w'.trace == w.trace
  {
    hide RunningByAge, DueOf, TextDue, MayText, TextTest, First, FirstAt, IsDueList, Someone, TextEntries;
    var running := RunningByAge(w, Texts);
    RunningAreThere(w, Texts);
    var due := DueOf(w, running, look.now);
    DueAreThere(w, Texts, running, look.now);
    DueAre(w, Texts, look.now);
    InTurnOnce(w, Texts, look.now, due);
    var k := TextDueSends(w, due, look, same);
    FirstIs(w, Texts, look.now, due, TextTest(w, look, same), k);
    NooneAt(due, TextTest(w, look, same), k);
    assert w.trace + [] == w.trace;
    NooneRunning(w, look.now);
  }
}
