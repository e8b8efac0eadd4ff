/**
 * All that a look of the outreach engine changes (app/src/outreach.ts:984-1043,
 * 1122-1168): whom it leaves out on its way to the one it rings or texts, and
 * when it pauses instead.
 */
module OutreachLooks {
  import opened Options
  import opened Subsequences
  import opened Outreach
  import opened OutreachContacts
  import opened OutreachDue

  // ---- Those left out ----------------------------------------------------------------------

  /** Due, within hours, and not to be contacted; and no one who may be comes before them. */
  ghost predicate PassedBy(w: World, kind: Kind, now: int, inHours: nat -> bool, may: (nat, nat) -> bool, c: nat, p: nat) {
    && Due(w, kind, c, p, now) && inHours(c) && !may(c, p)
    && forall d: nat, q: nat :: Due(w, kind, d, q, now) && may(d, q) ==> InTurn(w, c, p, d, q)
  }

  function Skip(who: Person, now: int): Person {
    who.(state := Skipped, outcome := Some(LeftOut), doneAt := Some(now))
  }

  /** Only those passed by are another: skipped. */
  ghost predicate OnlySkips(w: World, w1: World, passed: (nat, nat) -> bool, now: int) {
    && w1 == w.(campaigns := w1.campaigns) && |w1.campaigns| == |w.campaigns|
    && forall c: nat :: c < |w.campaigns| ==> SkipsIn(w.campaigns[c], w1.campaigns[c], c, passed, now)
  }

  ghost predicate SkipsIn(it: Campaign, to: Campaign, c: nat, passed: (nat, nat) -> bool, now: int) {
    && to == it.(people := to.people) && |to.people| == |it.people|
    && forall p: nat :: p < |it.people| ==> to.people[p] == if passed(c, p) then Skip(it.people[p], now) else it.people[p]
  }

  /** Of the first `k` of the list, those within hours. */
  function Before(due: seq<(nat, nat)>, k: nat, inHours: nat -> bool): (nat, nat) -> bool {
    (c: nat, p: nat) => InFirst(due, k, (c, p)) && inHours(c)
  }

  predicate InFirst(due: seq<(nat, nat)>, k: nat, e: (nat, nat)) {
    exists i :: 0 <= i < k && i < |due| && due[i] == e
  }

  lemma NoneSkipped(w: World, due: seq<(nat, nat)>, inHours: nat -> bool, now: int)
    ensures OnlySkips(w, w, Before(due, 0, inHours), now)
  {
    forall c: nat | c < |w.campaigns|
      ensures SkipsIn(w.campaigns[c], w.campaigns[c], c, Before(due, 0, inHours), now)
    {
      assert forall p: nat :: !InFirst(due, 0, (c, p));
    }
  }

  lemma OneSkipped(w: World, w1: World, due: seq<(nat, nat)>, k: nat, inHours: nat -> bool, now: int)
    requires due != [] && IsAt(w, due[0].0, due[0].1)
    requires
      var from := if inHours(due[0].0) then LeaveOut(w, due[0].0, due[0].1, now) else w;
      OnlySkips(from, w1, Before(due[1..], k, inHours), now)
    ensures OnlySkips(w, w1, Before(due, k + 1, inHours), now)
  {
    var (d, q) := due[0];
    var from := if inHours(d) then LeaveOut(w, d, q, now) else w;
    forall c: nat | c < |w.campaigns|
      ensures SkipsIn(w.campaigns[c], w1.campaigns[c], c, Before(due, k + 1, inHours), now)
    {
      assert SkipsIn(from.campaigns[c], w1.campaigns[c], c, Before(due[1..], k, inHours), now);
      forall p: nat | p < |w.campaigns[c].people|
        ensures w1.campaigns[c].people[p] == if Before(due, k + 1, inHours)(c, p) then Skip(w.campaigns[c].people[p], now) else w.campaigns[c].people[p]
      {
        FirstOrLater(due, k, (c, p));
        assert from.campaigns[c].people[p] == if inHours(d) && d == c && q == p then Skip(w.campaigns[c].people[p], now) else w.campaigns[c].people[p];
      }
    }
  }

  lemma FirstOrLater(due: seq<(nat, nat)>, k: nat, e: (nat, nat))
    requires due != []
    ensures InFirst(due, k + 1, e) <==> e == due[0] || InFirst(due[1..], k, e)
  {
    if InFirst(due, k + 1, e) && e != due[0] {
      var i :| 0 <= i < k + 1 && i < |due| && due[i] == e;
      assert due[1..][i - 1] == e;
    }
    if InFirst(due[1..], k, e) {
      var i :| 0 <= i < k && i < |due[1..]| && due[1..][i] == e;
      assert due[i + 1] == e;
    }
  }

  /** Those before the first who may be contacted, told of turns. */
  lemma PassedAre(w: World, kind: Kind, now: int, due: seq<(nat, nat)>, may: (nat, nat) -> bool, k: nat, inHours: nat -> bool, c: nat, p: nat)
    requires IsDueList(w, kind, now, due) && FirstAt(due, may, k)
    ensures Before(due, k, inHours)(c, p) <==> PassedBy(w, kind, now, inHours, may, c, p)
  {
    hide InTurn, IsDue;
    if Before(due, k, inHours)(c, p) {
      assert InFirst(due, k, (c, p));
      var i :| 0 <= i < k && i < |due| && due[i] == (c, p);
      forall d: nat, q: nat | Due(w, kind, d, q, now) && may(d, q)
        ensures InTurn(w, c, p, d, q)
      {
        assert (d, q) in due;
        var j :| 0 <= j < |due| && due[j] == (d, q);
      }
    }
    if PassedBy(w, kind, now, inHours, may, c, p) {
      assert (c, p) in due;
      var i :| 0 <= i < |due| && due[i] == (c, p);
      if i >= k {
        NotBefore(w, kind, now, due, may, k, i);
      }
    }
  }

  lemma NotBefore(w: World, kind: Kind, now: int, due: seq<(nat, nat)>, may: (nat, nat) -> bool, k: nat, i: nat)
    requires IsDueList(w, kind, now, due) && FirstAt(due, may, k) && k <= i < |due| && !may(due[i].0, due[i].1)
    ensures exists d: nat, q: nat :: Due(w, kind, d, q, now) && may(d, q) && !InTurn(w, due[i].0, due[i].1, d, q)
  {
    assert due[k] in due;
    assert Due(w, kind, due[k].0, due[k].1, now) && may(due[k].0, due[k].1);
    assert k < i;
    assert InTurn(w, due[k].0, due[k].1, due[i].0, due[i].1);
  }

  lemma SkipsAlike(w: World, w1: World, a: (nat, nat) -> bool, b: (nat, nat) -> bool, now: int)
    requires OnlySkips(w, w1, a, now) && forall c: nat, p: nat :: a(c, p) == b(c, p)
    ensures OnlySkips(w, w1, b, now)
  {
    forall c: nat | c < |w.campaigns|
      ensures SkipsIn(w.campaigns[c], w1.campaigns[c], c, b, now)
    {
      assert SkipsIn(w.campaigns[c], w1.campaigns[c], c, a, now);
    }
  }

  // ---- Looking for whom to ring ----------------------------------------------------------------------

  /** Down the list: those within hours are skipped until one may be rung, and that one is. */
  lemma {:induction false} DialDueIs(w: World, due: seq<(nat, nat)>, look: DialLook, same: (Number, Number) -> bool) returns (w1: World, k: nat)
    requires DueThere(w, due)
    ensures FirstAt(due, RingTest(w, look, same), k) && OnlySkips(w, w1, Before(due, k, look.inHours), look.now)
    ensures k < |due| ==> IsAt(w1, due[k].0, due[k].1) && DialDue(w, due, look, same) == Place(w1, due[k].0, due[k].1, look)
    ensures k == |due| ==> DialDue(w, due, look, same) == w1
    ensures due == [] ==> w1 == w
    decreases |due|
  {
    hide DialDue, MayRing, FirstAt, LeaveOut, OnlySkips, Place, Before;
    DialStep(w, due, look, same);
    if due == [] {
      w1, k := w, 0;
      NooneLeft(RingTest(w, look, same));
      NoneSkipped(w, due, look.inHours, look.now);
    } else {
      var (c, p) := due[0];
      if MayRing(w, look, same, c, p) {
        w1, k := w, 0;
        AtOnce(due, RingTest(w, look, same));
        NoneSkipped(w, due, look.inHours, look.now);
      } else {
        var from := if look.inHours(c) then LeaveOut(w, c, p, look.now) else w;
        LeftOutAlike(w, c, p, look.now, due);
        SameTest(w, from, look, same, due);
        var j: nat;
        w1, j := DialDueIs(from, due[1..], look, same);
        PassedOver(due, RingTest(w, look, same), RingTest(from, look, same), j);
        OneSkipped(w, w1, due, j, look.inHours, look.now);
        k := j + 1;
      }
    }
  }

  lemma DialStep(w: World, due: seq<(nat, nat)>, look: DialLook, same: (Number, Number) -> bool)
    requires DueThere(w, due)
    ensures due == [] ==> DialDue(w, due, look, same) == w
    ensures due != [] ==>
      var (c, p) := due[0];
      var w1 := if look.inHours(c) then LeaveOut(w, c, p, look.now) else w;
      && DueThere(w1, due[1..])
      && DialDue(w, due, look, same) == if MayRing(w, look, same, c, p) then Place(w, c, p, look) else DialDue(w1, due[1..], look, same)
  {
    hide Place, Settle;
  }

  /** Who is passed by on the way to the one rung. */
  ghost function PassedForRing(w: World, look: DialLook, same: (Number, Number) -> bool): (nat, nat) -> bool {
    (c: nat, p: nat) => PassedBy(w, Calls, look.now, look.inHours, RingTest(w, look, same), c, p)
  }

  /** A look that may dial: those passed by are skipped, the first who may be rung is rung, and no one else is touched. */
  lemma LookForDialIs(w: World, look: DialLook, same: (Number, Number) -> bool) returns (w1: World, c: nat, p: nat)
    requires MayDial(w, look)
    ensures OnlySkips(w, w1, PassedForRing(w, look, same), look.now)
    ensures
      if Someone(w, Calls, look.now, RingTest(w, look, same)) then
        First(w, Calls, look.now, RingTest(w, look, same), c, p) && IsAt(w1, c, p) && Dial(w, look, same) == Place(w1, c, p, look)
      else Dial(w, look, same) == w1
  {
    hide RunningByAge, DueOf, DialDue, PauseAll, Busy, RingTest, First, FirstAt, IsDueList, Someone, OnlySkips, PassedBy, Before, Place;
    var running := RunningByAge(w, Calls);
    RunningAreThere(w, Calls);
    var due := DueOf(w, running, look.now);
    DueAreThere(w, Calls, running, look.now);
    DueAre(w, Calls, look.now);
    NooneRunning(w, look.now);
    var k: nat;
    w1, k := DialDueIs(w, due, look, same);
    c, p := if k < |due| then due[k].0 else 0, if k < |due| then due[k].1 else 0;
    FirstIs(w, Calls, look.now, due, RingTest(w, look, same), k);
    NooneAt(due, RingTest(w, look, same), k);
    forall d: nat, q: nat
      ensures Before(due, k, look.inHours)(d, q) == PassedForRing(w, look, same)(d, q)
    {
      PassedAre(w, Calls, look.now, due, RingTest(w, look, same), k, look.inHours, d, q);
    }
    SkipsAlike(w, w1, Before(due, k, look.inHours), PassedForRing(w, look, same), look.now);
  }

  // ---- Pausing instead ---------------------------------------------------------------------------------

  /** Every running campaign of calls is paused, and nothing else is another. */
  ghost predicate CallsPaused(w: World, w1: World) {
    && w1 == w.(campaigns := w1.campaigns) && |w1.campaigns| == |w.campaigns|
    && forall c: nat :: c < |w.campaigns| ==> w1.campaigns[c] == if IsRunning(w, Calls, c) then w.campaigns[c].(state := Paused) else w.campaigns[c]
  }

  lemma {:induction false} PausedAre(w: World, running: seq<nat>)
    requires forall i :: 0 <= i < |running| ==> running[i] < |w.campaigns|
    ensures
      var w1 := PauseAll(w, running);
      && w1 == w.(campaigns := w1.campaigns) && |w1.campaigns| == |w.campaigns|
      && forall c: nat :: c < |w.campaigns| ==>
           w1.campaigns[c] == if c in running && w.campaigns[c].state == Running then w.campaigns[c].(state := Paused) else w.campaigns[c]
    decreases |running|
  {
    if running != [] {
      assert running == [running[0]] + running[1..];
      PausedAre(SetCampaign(w, running[0], PauseFor(w.campaigns[running[0]])), running[1..]);
    }
  }

  /** Someone's time has come, the line is free and nothing goes before them. */
  ghost predicate WouldDial(w: World, look: DialLook) {
    && !Busy(w) && look.phone && look.lineFree && !look.callbackFirst
    && exists c: nat, p: nat :: Due(w, Calls, c, p, look.now)
  }

  ghost predicate AtTheLimit(w: World, look: DialLook) {
    w.dials.Some? && w.dials.value.day == look.day && w.dials.value.count >= w.dials.value.max
  }

  /** A look that may not dial pauses every campaign of calls where outbound calls are off, or (within the day's limit) go elsewhere; else it changes nothing. */
  lemma NoDialIs(w: World, look: DialLook, same: (Number, Number) -> bool)
    requires !MayDial(w, look)
    ensures
      if WouldDial(w, look) && (look.outbound == Some(false) || (!AtTheLimit(w, look) && look.route == Some(false))) then CallsPaused(w, Dial(w, look, same))
      else Dial(w, look, same) == w
  {
    hide RunningByAge, DueOf, DialDue, PauseAll, Busy, IsDue;
    var running := RunningByAge(w, Calls);
    RunningAreThere(w, Calls);
    RunningAre(w, Calls);
    var due := DueOf(w, running, look.now);
    DueAreThere(w, Calls, running, look.now);
    DueAre(w, Calls, look.now);
    PausedAre(w, running);
    NooneRunning(w, look.now);
    SomeoneDue(w, look, due);
    assert look.route.Some? ==> look.route.value == true || look.route.value == false;
  }

  lemma SomeoneDue(w: World, look: DialLook, due: seq<(nat, nat)>)
    requires IsDueList(w, Calls, look.now, due)
    ensures due != [] <==> exists c: nat, p: nat :: Due(w, Calls, c, p, look.now)
  {
    hide IsDue;
    if due != [] {
      assert due[0] in due;
    }
    if exists c: nat, p: nat :: Due(w, Calls, c, p, look.now) {
      var c: nat, p: nat :| Due(w, Calls, c, p, look.now);
      assert (c, p) in due;
    }
  }

  // ---- Looking for whom to text -------------------------------------------------------------------------

  lemma {:induction false} TextDueIs(w: World, due: seq<(nat, nat)>, look: TextLook, same: (Number, Number) -> bool) returns (w1: World, k: nat)
    requires DueThere(w, due)
    ensures FirstAt(due, TextTest(w, look, same), k) && OnlySkips(w, w1, Before(due, k, look.inHours), look.now)
    ensures k < |due| ==> IsAt(w1, due[k].0, due[k].1) && TextDue(w, due, look, same) == Send(w1, due[k].0, due[k].1, look)
    ensures k == |due| ==> TextDue(w, due, look, same) == w1
    ensures due == [] ==> w1 == w
    decreases |due|
  {
    hide TextDue, MayBeSent, FirstAt, LeaveOut, OnlySkips, Send, Before;
    TextStep(w, due, look, same);
    if due == [] {
      w1, k := w, 0;
      NooneLeft(TextTest(w, look, same));
      NoneSkipped(w, due, look.inHours, look.now);
    } else {
      var (c, p) := due[0];
      if MayBeSent(w, look, same, c, p) {
        w1, k := w, 0;
        AtOnce(due, TextTest(w, look, same));
        NoneSkipped(w, due, look.inHours, look.now);
      } else {
        var from := if look.inHours(c) then LeaveOut(w, c, p, look.now) else w;
        LeftOutAlike(w, c, p, look.now, due);
        SameTextTest(w, from, look, same, due);
        var j: nat;
        w1, j := TextDueIs(from, due[1..], look, same);
        PassedOver(due, TextTest(w, look, same), TextTest(from, look, same), j);
        OneSkipped(w, w1, due, j, look.inHours, look.now);
        k := j + 1;
      }
    }
  }

  lemma TextStep(w: World, due: seq<(nat, nat)>, look: TextLook, same: (Number, Number) -> bool)
    requires DueThere(w, due)
    ensures due == [] ==> TextDue(w, due, look, same) == w
    ensures due != [] ==>
      var (c, p) := due[0];
      var w1 := if look.inHours(c) then LeaveOut(w, c, p, look.now) else w;
      && DueThere(w1, due[1..])
      && TextDue(w, due, look, same) == if MayBeSent(w, look, same, c, p) then Send(w, c, p, look) else TextDue(w1, due[1..], look, same)
  {
    hide Send, Settle;
  }

  ghost function PassedForText(w: World, look: TextLook, same: (Number, Number) -> bool): (nat, nat) -> bool {
    (c: nat, p: nat) => PassedBy(w, Texts, look.now, look.inHours, TextTest(w, look, same), c, p)
  }

  /** This attempt was later than `since`. */
  ghost predicate TextedSince(w: World, c: nat, p: nat, since: int) {
    && IsAt(w, c, p) && w.campaigns[c].kind == Texts && w.campaigns[c].people[p].attempt.Some?
    && w.campaigns[c].people[p].attempt.value.at != 0 && w.campaigns[c].people[p].attempt.value.at > since
  }

  ghost function AllTextedSince(w: World, since: int): set<(nat, nat)> {
    set c, p | 0 <= c < |w.campaigns| && 0 <= p < |w.campaigns[c].people| && TextedSince(w, c, p, since) :: (c, p)
  }

  /** No one was texted in the last twenty seconds, fewer than forty in the last hour, and fewer than two hundred in the last day. */
  ghost predicate PaceLets(w: World, now: int) {
    && AllTextedSince(w, now - 20_000) == {}
    && |AllTextedSince(w, now - 3_600_000)| < 40 && |AllTextedSince(w, now - 86_400_000)| < 200
  }

  lemma PaceIs(w: World, now: int)
    requires now >= 20_000
    ensures MayText(w, now) <==> PaceLets(w, now)
  {
    RecentAre(w, now, HOUR);
    RecentAre(w, now, DAY);
    NoneLately(w, now);
  }

  lemma NoneLately(w: World, now: int)
    ensures AllTextedSince(w, now - 20_000) == {} <==>
      forall c: nat, p: nat :: IsAt(w, c, p) && TextedWithin(w.campaigns[c], p, now, DAY) ==> now - w.campaigns[c].people[p].attempt.value.at >= TEXT_GAP
  {
    var lately := AllTextedSince(w, now - 20_000);
    if lately != {} {
      var e :| e in lately;
      assert IsAt(w, e.0, e.1) && TextedWithin(w.campaigns[e.0], e.1, now, DAY);
    } else {
      forall c: nat, p: nat | IsAt(w, c, p) && TextedWithin(w.campaigns[c], p, now, DAY)
        ensures now - w.campaigns[c].people[p].attempt.value.at >= TEXT_GAP
      {
        assert (c, p) !in lately;
      }
    }
  }

  lemma RecentAre(w: World, now: int, span: int)
    ensures Recent(w, now, span) == AllTextedSince(w, now - span)
  {
  }

  /** A look for a text: where the pace lets one go those passed by are skipped and the first who may be texted is; else nothing changes. */
  lemma LookForTextIs(w: World, look: TextLook, same: (Number, Number) -> bool) returns (w1: World, c: nat, p: nat)
    requires look.now >= 20_000
    ensures !look.phone || !PaceLets(w, look.now) ==> Text(w, look, same) == w
    ensures look.phone && PaceLets(w, look.now) ==> OnlySkips(w, w1, PassedForText(w, look, same), look.now)
    ensures look.phone && PaceLets(w, look.now) ==>
      if Someone(w, Texts, look.now, TextTest(w, look, same)) then
        First(w, Texts, look.now, TextTest(w, look, same), c, p) && IsAt(w1, c, p) && Text(w, look, same) == Send(w1, c, p, look)
      else Text(w, look, same) == w1
  {
    hide RunningByAge, DueOf, TextDue, MayText, PaceLets, TextTest, First, FirstAt, IsDueList, Someone, OnlySkips, PassedBy, Before, Send;
    PaceIs(w, look.now);
    var running := RunningByAge(w, Texts);
    RunningAreThere(w, Texts);
    var due := DueOf(w, running, look.now);
    DueAreThere(w, Texts, running, look.now);
    DueAre(w, Texts, look.now);
    NooneRunning(w, look.now);
    var k: nat;
    w1, k := TextDueIs(w, due, look, same);
    c, p := if k < |due| then due[k].0 else 0, if k < |due| then due[k].1 else 0;
    FirstIs(w, Texts, look.now, due, TextTest(w, look, same), k);
    NooneAt(due, TextTest(w, look, same), k);
    forall d: nat, q: nat
      ensures Before(due, k, look.inHours)(d, q) == PassedForText(w, look, same)(d, q)
    {
      PassedAre(w, Texts, look.now, due, TextTest(w, look, same), k, look.inHours, d, q);
    }
    SkipsAlike(w, w1, Before(due, k, look.inHours), PassedForText(w, look, same), look.now);
  }
}
