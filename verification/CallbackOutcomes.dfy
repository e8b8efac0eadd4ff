/**
 * What becomes of a call back (app/src/callbacks.ts:188-286): for each event and
 * each look, which entries there are after it, and when each is tried next.
 */
module CallbackOutcomes {
  import opened Options
  import opened Subsequences
  import opened Callbacks

  const MINUTE: int := 60_000

  /** Waiting, or ringing: an entry that is never let go of. */
  predicate Going(c: Callback) {
    match c.state
    case Waiting => true
    case Calling => true
    case Done => false
    case Dropped => false
  }

  /** The entries going on, as they are after these are saved; and of the others the last twenty. */
  ghost predicate GoingAre(list: seq<Callback>, after: seq<Callback>) {
    && Open(after) == Open(list) && (forall c :: c in after && Going(c) <==> c in list && Going(c))
    && Settled(after) == Last(Settled(list), 20) && forall c :: c in after ==> c in list
  }

  lemma SavedGoing(list: seq<Callback>, same: Same)
    ensures GoingAre(list, Saved(list))
  {
    hide Saved;
    SavingKeeps(list, same);
    forall c
      ensures c in Saved(list) && Going(c) <==> c in list && Going(c)
    {
      OpenHas(list);
      OpenHas(Saved(list));
      assert c in Open(list) <==> c in list && IsOpen(c);
      assert c in Open(Saved(list)) <==> c in Saved(list) && IsOpen(c);
    }
    forall c | c in Saved(list)
      ensures c in list
    {
      OpenHas(list);
      OpenHas(Saved(list));
      assert !IsOpen(c) ==> c in Last(Settled(list), SHOWN) && c in Settled(list);
    }
  }

  // ---- A missed call ---------------------------------------------------------------------------

  /** The first entry going on of this person's. */
  ghost predicate FirstOf(list: seq<Callback>, i: nat, number: Number, same: Same) {
    && i < |list| && Going(list[i]) && same(list[i].number, number)
    && forall j :: 0 <= j < i && Going(list[j]) ==> !same(list[j].number, number)
  }

  lemma {:induction false} FindIs(list: seq<Callback>, number: Number, calling: bool, same: Same, from: nat)
    requires from <= |list|
    ensures
      var r := Find(list, number, calling, same, from);
      r.Some? ==> forall j :: from <= j < r.value && IsOpen(list[j]) && (calling ==> list[j].state == Calling) ==> !same(list[j].number, number)
    decreases |list| - from
  {
    if from < |list| {
      FindIs(list, number, calling, same, from + 1);
    }
  }

  /** Someone who has no entry going on gets one: tried never, a minute and a half after their call. */
  lemma MissedAnew(list: seq<Callback>, number: Number, at: int, queued: bool, same: Same)
    requires forall i: nat :: !FirstOf(list, i, number, same)
    ensures GoingAre(list + [Callback(number, at, 0, at + 90_000, Waiting, queued)], Next(list, Misses(number, at, queued), same))
  {
    FindIs(list, number, false, same, 0);
    var r := Find(list, number, false, same, 0);
    assert r.Some? ==> FirstOf(list, r.value, number, same);
    SavedGoing(list + [Callback(number, at, 0, at + 90_000, Waiting, queued)], same);
  }

  /** Someone who has one: it is of this call now, tried no later, and, where they hung up waiting, with a sorry. */
  lemma MissedAgain(list: seq<Callback>, i: nat, number: Number, at: int, queued: bool, same: Same)
    requires FirstOf(list, i, number, same)
    ensures
      var c := list[i];
      var soon := if c.state == Waiting && at + 90_000 < c.nextAt then at + 90_000 else c.nextAt;
      GoingAre(list[i := Callback(c.number, at, c.tries, soon, c.state, c.queued || queued)], Next(list, Misses(number, at, queued), same))
  {
    FindIs(list, number, false, same, 0);
    assert IsOpen(list[i]);
    assert Find(list, number, false, same, 0) == Some(i);
    var c := list[i];
    var soon := if c.state == Waiting && at + 90_000 < c.nextAt then at + 90_000 else c.nextAt;
    SavedGoing(list[i := Callback(c.number, at, c.tries, soon, c.state, c.queued || queued)], same);
  }

  // ---- They got through, or were rung ----------------------------------------------------------

  /** Theirs that wait are done, each where it was. */
  ghost predicate TheirsDone(list: seq<Callback>, all: seq<Callback>, number: Number, same: Same) {
    |all| == |list| && forall i :: 0 <= i < |list| ==>
      all[i] == if list[i].state == Waiting && same(list[i].number, number) then list[i].(state := Done) else list[i]
  }

  /** Who got through another way is rung no more: theirs that wait are done, and no one else's. */
  lemma GotThrough(list: seq<Callback>, all: seq<Callback>, number: Number, same: Same)
    requires TheirsDone(list, all, number, same) && exists i :: 0 <= i < |list| && list[i].state == Waiting && same(list[i].number, number)
    ensures GoingAre(all, Next(list, Settles(number), same))
  {
    hide Saved, GoingAre;
    assert all == SettleAll(list, number, same);
    SavedGoing(all, same);
  }

  /** The first entry of this person's that rings. */
  ghost predicate RingsFor(list: seq<Callback>, i: nat, number: Number, same: Same) {
    && i < |list| && list[i].state == Calling && same(list[i].number, number)
    && forall j :: 0 <= j < i && list[j].state == Calling ==> !same(list[j].number, number)
  }

  /** What the end of a dial makes of its entry: done when answered; else dropped after a second try, and tried again in twenty minutes before. */
  function AfterRinging(c: Callback, answered: bool, now: int): Callback {
    if answered then c.(state := Done) else if c.tries >= 2 then c.(state := Dropped) else c.(state := Waiting, nextAt := now + 20 * MINUTE)
  }

  /** When none of theirs waits nothing changes. */
  lemma NoneWaits(list: seq<Callback>, number: Number, same: Same)
    requires forall i :: 0 <= i < |list| ==> !(list[i].state == Waiting && same(list[i].number, number))
    ensures Next(list, Settles(number), same) == list
  {
  }

  /** A run's call backs after one step more. */
  lemma OneStepMore(steps: seq<Step>, s: Step, same: Same)
    ensures After(steps + [s], same) == Next(After(steps, same), s, same)
  {
    assert (steps + [s])[..|steps|] == steps;
  }

  lemma RangOut(list: seq<Callback>, i: nat, number: Number, answered: bool, now: int, same: Same)
    requires RingsFor(list, i, number, same)
    ensures GoingAre(list[i := AfterRinging(list[i], answered, now)], Next(list, Rings(number, answered, now), same))
  {
    FindIs(list, number, true, same, 0);
    assert IsOpen(list[i]);
    assert Find(list, number, true, same, 0) == Some(i);
    SavedGoing(list[i := AfterRinging(list[i], answered, now)], same);
  }

  /** The end of a dial of no call back's changes nothing. */
  lemma RangNone(list: seq<Callback>, number: Number, answered: bool, now: int, same: Same)
    requires forall i: nat :: !RingsFor(list, i, number, same)
    ensures Next(list, Rings(number, answered, now), same) == list
  {
    FindIs(list, number, true, same, 0);
    var r := Find(list, number, true, same, 0);
    assert r.Some? ==> RingsFor(list, r.value, number, same);
  }

  // ---- A look ---------------------------------------------------------------------------------

  /** Rung for ten minutes, and no end of it heard. */
  predicate IsLost(c: Callback, now: int) {
    c.state == Calling && now - c.nextAt > 10 * MINUTE
  }

  /** Missed a day ago, and not rung since. */
  predicate IsTooOld(c: Callback, now: int) {
    c.state == Waiting && now - c.missedAt > 24 * 60 * MINUTE
  }

  /** A look where nothing is lost, while something rings, or none may be rung at all: nothing changes. */
  lemma LooksOn(list: seq<Callback>, look: Look, same: Same)
    requires forall i :: 0 <= i < |list| ==> !IsLost(list[i], look.now)
    requires !look.on || !look.free || exists i :: 0 <= i < |list| && list[i].state == Calling
    ensures Next(list, Looks(look), same) == list
  {
  }

  /** A dial whose end was not heard is one not answered, when the look is made. */
  lemma LooksAtLost(list: seq<Callback>, i: nat, look: Look, same: Same)
    requires i < |list| && IsLost(list[i], look.now) && forall j :: 0 <= j < i ==> !IsLost(list[j], look.now)
    requires RingsFor(list, i, list[i].number, same) && !look.on
    ensures GoingAre(list[i := AfterRinging(list[i], false, look.now)], Next(list, Looks(look), same))
  {
    LostIs(list, look.now, 0);
    assert Lost(list, look.now, 0) == Some(i);
    RangOut(list, i, list[i].number, false, look.now, same);
  }

  lemma {:induction false} LostIs(list: seq<Callback>, now: int, from: nat)
    requires from <= |list|
    ensures Lost(list, now, from).Some? ==> forall j :: from <= j < Lost(list, now, from).value ==> !IsLost(list[j], now)
    decreases |list| - from
  {
    if from < |list| {
      LostIs(list, now, from + 1);
    }
  }

  /** The one due whose call was missed first, among these, the first listed of those. */
  ghost predicate InTurn(list: seq<Callback>, i: nat, now: int) {
    && i < |list| && list[i].state == Waiting && list[i].nextAt <= now
    && forall j :: 0 <= j < |list| && j != i && list[j].state == Waiting && list[j].nextAt <= now ==>
         if j < i then list[i].missedAt < list[j].missedAt else list[i].missedAt <= list[j].missedAt
  }

  /** The entries not too old, each where it was. */
  ghost predicate TooOldDropped(list: seq<Callback>, young: seq<Callback>, now: int) {
    |young| == |list| && forall i :: 0 <= i < |list| ==> young[i] == if IsTooOld(list[i], now) then list[i].(state := Dropped) else list[i]
  }

  /**
   * A look that may ring, nothing ringing: what is too old is dropped, and of
   * those due the one in turn is dropped, left, rung, or put off, as they asked,
   * the filter, the route and the phone's answer say.
   */
  lemma LooksAndRings(list: seq<Callback>, young: seq<Callback>, i: nat, look: Look, same: Same)
    requires look.on && look.free && forall j :: 0 <= j < |list| ==> list[j].state != Calling
    requires TooOldDropped(list, young, look.now) && InTurn(young, i, look.now)
    ensures
      var c, after := young[i], Next(list, Looks(look), same);
      var refused := look.skip(c.number) || !look.may(c.number) || look.route == Some(false);
      if !refused && look.route.None? then after == young
      else
        GoingAre(young[i :=
          if refused then c.(state := Dropped)
          else match look.reply
               case Dialled => c.(state := Calling, tries := c.tries + 1, nextAt := look.now)
               case Refused(QuietHours) => c.(nextAt := look.now + 30 * MINUTE)
               case Refused(DailyCap) => c.(nextAt := FivePastMidnight(look.now, look.zone))
               case Refused(OtherRefusal) => c.(nextAt := look.now + 20 * MINUTE)], after)
  {
    hide Saved;
    assert DropOld(list, look.now) == young;
    assert NextDue(young, look.now, 0) == Some(i);
    var c := young[i];
    SavedGoing(young[i := c.(state := Dropped)], same);
    SavedGoing(young[i := c.(state := Calling, tries := c.tries + 1, nextAt := look.now)], same);
    if look.reply.Refused? {
      SavedGoing(young[i := c.(nextAt := RetryAfter(look.reply.why, look.now, look.zone))], same);
    }
  }

  /** With none due, the too old are dropped and that is all. */
  lemma LooksForNone(list: seq<Callback>, young: seq<Callback>, look: Look, same: Same)
    requires look.on && look.free && forall j :: 0 <= j < |list| ==> list[j].state != Calling
    requires TooOldDropped(list, young, look.now) && forall j :: 0 <= j < |young| ==> !(young[j].state == Waiting && young[j].nextAt <= look.now)
    ensures Next(list, Looks(look), same) == young
  {
    assert DropOld(list, look.now) == young;
  }
}
