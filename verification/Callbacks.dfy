/**
 * Missed calls, called back (class Callbacks, app/src/callbacks.ts): the list
 * of them, and what each event and each look makes of it. What a look awaits
 * (the phone's screening, its route, its answer to the dial) is part of it.
 */
module Callbacks {
  import opened Options
  import opened Subsequences

  type Number = string

  const MAX_TRIES: nat := 2
  const FIRST_WAIT: int := 90_000
  const RETRY: int := 1_200_000
  const CALLING: int := 600_000
  const TOO_OLD: int := 86_400_000
  const SHOWN: nat := 20

  datatype State = Waiting | Calling | Done | Dropped
  datatype Callback = Callback(number: Number, missedAt: int, tries: nat, nextAt: int, state: State, queued: bool)

  type Same = (Number, Number) -> bool

  predicate IsOpen(c: Callback) {
    c.state == Waiting || c.state == Calling
  }

  // ---- Keeping the list ------------------------------------------------------------------------

  function Open(list: seq<Callback>): (r: seq<Callback>)
    ensures forall i :: 0 <= i < |r| ==> IsOpen(r[i])
  {
    if list == [] then [] else (if IsOpen(list[0]) then [list[0]] else []) + Open(list[1..])
  }

  function Settled(list: seq<Callback>): (r: seq<Callback>)
    ensures forall i :: 0 <= i < |r| ==> !IsOpen(r[i])
  {
    if list == [] then [] else (if IsOpen(list[0]) then [] else [list[0]]) + Settled(list[1..])
  }

  function Last(list: seq<Callback>, n: nat): seq<Callback> {
    if |list| <= n then list else list[|list| - n..]
  }

  /** What saving keeps: every open entry, and after them at most SHOWN settled ones. */
  function Saved(list: seq<Callback>): seq<Callback> {
    Open(list) + Last(Settled(list), SHOWN)
  }

  /** The first open call back of one who is the same as `number`, in one of some states. */
  function Find(list: seq<Callback>, number: Number, calling: bool, same: Same, from: nat): (r: Option<nat>)
    requires from <= |list|
    ensures r.Some? ==> from <= r.value < |list| && IsOpen(list[r.value]) && (calling ==> list[r.value].state == Calling) && same(list[r.value].number, number)
    ensures r.None? ==> forall i :: from <= i < |list| && IsOpen(list[i]) && (calling ==> list[i].state == Calling) ==> !same(list[i].number, number)
    decreases |list| - from
  {
    if from == |list| then None
    else if IsOpen(list[from]) && (calling ==> list[from].state == Calling) && same(list[from].number, number) then Some(from)
    else Find(list, number, calling, same, from + 1)
  }

  // ---- Events --------------------------------------------------------------------------------------

  function Missed(list: seq<Callback>, number: Number, at: int, queued: bool, same: Same): seq<Callback> {
    var open := Find(list, number, false, same, 0);
    Saved(
      if open.None? then list + [Callback(number, at, 0, at + FIRST_WAIT, Waiting, queued)]
      else
        var c := list[open.value];
        var soon := if c.state == Waiting && at + FIRST_WAIT < c.nextAt then at + FIRST_WAIT else c.nextAt;
        list[open.value := c.(missedAt := at, queued := c.queued || queued, nextAt := soon)])
  }

  function Settle1(c: Callback, number: Number, same: Same): Callback {
    if c.state == Waiting && same(c.number, number) then c.(state := Done) else c
  }

  function SettleAll(list: seq<Callback>, number: Number, same: Same): (r: seq<Callback>)
    ensures |r| == |list| && forall i :: 0 <= i < |list| ==> r[i] == Settle1(list[i], number, same)
  {
    seq(|list|, i requires 0 <= i < |list| => Settle1(list[i], number, same))
  }

  /** Every waiting entry of this person's done. */
  function Settle(list: seq<Callback>, number: Number, same: Same): seq<Callback> {
    if exists i :: 0 <= i < |list| && list[i].state == Waiting && same(list[i].number, number) then Saved(SettleAll(list, number, same)) else list
  }

  function Rang1(c: Callback, answered: bool, now: int): Callback {
    if answered then c.(state := Done)
    else if c.tries >= MAX_TRIES then c.(state := Dropped)
    else c.(state := Waiting, nextAt := now + RETRY)
  }

  /** The end of a dial: an entry done, given up after its second try, or put off by RETRY. */
  function Rang(list: seq<Callback>, number: Number, answered: bool, now: int, same: Same): seq<Callback> {
    var c := Find(list, number, true, same, 0);
    if c.None? then list else Saved(list[c.value := Rang1(list[c.value], answered, now)])
  }

  // ---- A look --------------------------------------------------------------------------------------------

  datatype Refusal = QuietHours | DailyCap | OtherRefusal
  datatype Reply = Dialled | Refused(why: Refusal)

  /** `may`: the filter and the screening let the number be rung; `skip`: they asked not to be. `zone`: what local time is ahead by. */
  datatype Look = Look(now: int, on: bool, free: bool, skip: Number -> bool, may: Number -> bool, route: Option<bool>, reply: Reply, zone: int)

  const DAY: int := 86_400_000
  const FIVE_MINUTES: int := 300_000

  /** The day a time is on, and how far into it, where local time is `zone` ahead. */
  function LocalDay(t: int, zone: int): int {
    (t + zone) / DAY
  }

  function TimeOfDay(t: int, zone: int): int {
    (t + zone) % DAY
  }

  /** The source's setHours(24, 5, 0, 0). */
  function FivePastMidnight(now: int, zone: int): int {
    now - TimeOfDay(now, zone) + DAY + FIVE_MINUTES
  }

  function RetryAfter(why: Refusal, now: int, zone: int): int {
    match why
    case QuietHours => now + 1_800_000
    case DailyCap => FivePastMidnight(now, zone)
    case OtherRefusal => now + RETRY
  }

  /** The first entry that has rung for longer than CALLING. */
  function Lost(list: seq<Callback>, now: int, from: nat): (r: Option<nat>)
    requires from <= |list|
    ensures r.Some? ==> from <= r.value < |list| && list[r.value].state == Calling && now - list[r.value].nextAt > CALLING
    ensures r.None? ==> forall i :: from <= i < |list| ==> !(list[i].state == Calling && now - list[i].nextAt > CALLING)
    decreases |list| - from
  {
    if from == |list| then None
    else if list[from].state == Calling && now - list[from].nextAt > CALLING then Some(from)
    else Lost(list, now, from + 1)
  }

  /** It is taken as not answered (there is one call back at a time). */
  function AfterLost(list: seq<Callback>, now: int, same: Same): seq<Callback> {
    var lost := Lost(list, now, 0);
    if lost.None? then list else Rang(list, list[lost.value].number, false, now, same)
  }

  predicate Ringing(list: seq<Callback>) {
    exists i :: 0 <= i < |list| && list[i].state == Calling
  }

  function Drop1(c: Callback, now: int): Callback {
    if c.state == Waiting && now - c.missedAt > TOO_OLD then c.(state := Dropped) else c
  }

  function DropOld(list: seq<Callback>, now: int): (r: seq<Callback>)
    ensures |r| == |list| && forall i :: 0 <= i < |list| ==> r[i] == Drop1(list[i], now)
  {
    seq(|list|, i requires 0 <= i < |list| => Drop1(list[i], now))
  }

  predicate IsDue(c: Callback, now: int) {
    c.state == Waiting && c.nextAt <= now
  }

  /** The one due whose call was missed first (the first such). */
  function NextDue(list: seq<Callback>, now: int, from: nat): (r: Option<nat>)
    requires from <= |list|
    ensures r.Some? ==> from <= r.value < |list| && IsDue(list[r.value], now)
    ensures r.Some? ==> forall i :: from <= i < |list| && IsDue(list[i], now) ==>
      if i < r.value then list[r.value].missedAt < list[i].missedAt else list[r.value].missedAt <= list[i].missedAt
    ensures r.None? ==> forall i :: from <= i < |list| ==> !IsDue(list[i], now)
    decreases |list| - from
  {
    if from == |list| then None
    else
      var rest := NextDue(list, now, from + 1);
      if IsDue(list[from], now) && (rest.Some? ==> list[from].missedAt <= list[rest.value].missedAt) then Some(from) else rest
  }

  /** A look: the lost dial given up, entries a day old dropped, and at most one rung, dropped or put off. */
  function Tick(list: seq<Callback>, look: Look, same: Same): seq<Callback> {
    var after := AfterLost(list, look.now, same);
    if !look.on || !look.free || Ringing(after) then after
    else
      var young := DropOld(after, look.now);
      var next := NextDue(young, look.now, 0);
      if next.None? then young
      else
        var c := young[next.value];
        if look.skip(c.number) || !look.may(c.number) || look.route == Some(false) then Saved(young[next.value := c.(state := Dropped)])
        else if look.route.None? then young
        else if look.reply.Dialled? then Saved(young[next.value := c.(state := Calling, tries := c.tries + 1, nextAt := look.now)])
        else Saved(young[next.value := c.(nextAt := RetryAfter(look.reply.why, look.now, look.zone))])
  }

  // ---- What is kept ------------------------------------------------------------------------------------------

  /** Two of the list: not open for one person, and not both ringing. */
  ghost predicate Apart(a: Callback, b: Callback, same: Same) {
    IsOpen(a) && IsOpen(b) ==> !same(a.number, b.number) && !same(b.number, a.number) && !(a.state == Calling && b.state == Calling)
  }

  /** Rung no more than twice: at most once while it waits. */
  predicate TriesOk(c: Callback, same: Same) {
    && c.tries <= 2 && (c.state == Waiting ==> c.tries <= 1) && (c.state == Calling ==> c.tries >= 1 && same(c.number, c.number))
  }

  ghost predicate Kept(list: seq<Callback>, same: Same) {
    && (forall i, j :: 0 <= i < j < |list| ==> Apart(list[i], list[j], same))
    && (forall i :: 0 <= i < |list| ==> TriesOk(list[i], same))
  }

  /** The same person both ways round. */
  ghost predicate Symmetric(same: Same) {
    forall a, b :: same(a, b) ==> same(b, a)
  }

  lemma {:induction false} OpenHas(list: seq<Callback>)
    ensures forall c :: c in Open(list) <==> c in list && IsOpen(c)
    ensures forall c :: c in Settled(list) <==> c in list && !IsOpen(c)
  {
    if list != [] {
      OpenHas(list[1..]);
      assert list == [list[0]] + list[1..];
    }
  }

  lemma {:induction false} OpenApart(list: seq<Callback>, same: Same)
    requires forall i, j :: 0 <= i < j < |list| ==> Apart(list[i], list[j], same)
    ensures forall i, j :: 0 <= i < j < |Open(list)| ==> Apart(Open(list)[i], Open(list)[j], same)
  {
    hide Apart;
    if list != [] {
      var rest := list[1..];
      assert forall i :: 0 <= i < |rest| ==> rest[i] == list[i + 1];
      OpenApart(rest, same);
      forall k | 0 <= k < |Open(rest)|
        ensures Apart(list[0], Open(rest)[k], same)
      {
        OpenHas(rest);
        assert Open(rest)[k] in rest;
      }
    }
  }

  /** Saving loses no open call back, and keeps twenty others at most: the last. */
  lemma SavingKeeps(list: seq<Callback>, same: Same)
    ensures Open(Saved(list)) == Open(list) && |Settled(Saved(list))| <= SHOWN
    ensures Settled(Saved(list)) == Last(Settled(list), SHOWN)
    ensures Kept(list, same) ==> Kept(Saved(list), same)
  {
    var settled := Last(Settled(list), SHOWN);
    OpenJoin(Open(list), settled);
    AllOpen(Open(list));
    NoneOpen(settled);
    if Kept(list, same) {
      SavedKept(list, same);
    }
  }

  lemma SavedKept(list: seq<Callback>, same: Same)
    requires Kept(list, same)
    ensures Kept(Saved(list), same)
  {
    OpenApart(list, same);
    OpenHas(list);
    var settled := Last(Settled(list), SHOWN);
    forall i | 0 <= i < |settled|
      ensures settled[i] in Settled(list)
    {
    }
    forall i | 0 <= i < |Saved(list)|
      ensures TriesOk(Saved(list)[i], same)
    {
      var c := Saved(list)[i];
      assert c in Open(list) || c in settled;
      assert c in list;
    }
  }

  lemma {:induction false} OpenJoin(a: seq<Callback>, b: seq<Callback>)
    ensures Open(a + b) == Open(a) + Open(b) && Settled(a + b) == Settled(a) + Settled(b)
  {
    if a == [] {
      assert a + b == b;
    } else {
      assert (a + b)[1..] == a[1..] + b;
      OpenJoin(a[1..], b);
    }
  }

  lemma {:induction false} AllOpen(list: seq<Callback>)
    requires forall i :: 0 <= i < |list| ==> IsOpen(list[i])
    ensures Open(list) == list && Settled(list) == []
  {
    if list != [] {
      AllOpen(list[1..]);
    }
  }

  lemma {:induction false} NoneOpen(list: seq<Callback>)
    requires forall i :: 0 <= i < |list| ==> !IsOpen(list[i])
    ensures Open(list) == [] && Settled(list) == list
  {
    if list != [] {
      NoneOpen(list[1..]);
    }
  }

  /** One of the list changes: for no other person, and it rings only when no other does. */
  lemma ChangeKeeps(list: seq<Callback>, i: nat, c: Callback, same: Same)
    requires Kept(list, same) && i < |list| && TriesOk(c, same)
    requires IsOpen(c) ==> IsOpen(list[i]) && c.number == list[i].number
    requires c.state == Calling ==> list[i].state == Calling || !Ringing(list)
    ensures Kept(list[i := c], same)
  {
    var list' := list[i := c];
    forall j, k | 0 <= j < k < |list'|
      ensures Apart(list'[j], list'[k], same)
    {
      assert Apart(list[j], list[k], same);
    }
  }

  lemma MissedKeeps(list: seq<Callback>, number: Number, at: int, queued: bool, same: Same)
    requires Kept(list, same) && Symmetric(same)
    ensures Kept(Missed(list, number, at, queued, same), same)
  {
    hide Saved;
    var open := Find(list, number, false, same, 0);
    if open.None? {
      var c := Callback(number, at, 0, at + FIRST_WAIT, Waiting, queued);
      AddedKeeps(list, c, same);
      SavingKeeps(list + [c], same);
    } else {
      var c := list[open.value];
      var soon := if c.state == Waiting && at + FIRST_WAIT < c.nextAt then at + FIRST_WAIT else c.nextAt;
      assert TriesOk(c, same);
      ChangeKeeps(list, open.value, c.(missedAt := at, queued := c.queued || queued, nextAt := soon), same);
      SavingKeeps(list[open.value := c.(missedAt := at, queued := c.queued || queued, nextAt := soon)], same);
    }
  }

  lemma AddedKeeps(list: seq<Callback>, c: Callback, same: Same)
    requires Kept(list, same) && Symmetric(same) && c.state == Waiting && c.tries == 0
    requires forall i :: 0 <= i < |list| && IsOpen(list[i]) ==> !same(list[i].number, c.number)
    ensures Kept(list + [c], same)
  {
    forall i | 0 <= i < |list|
      ensures Apart(list[i], c, same)
    {
    }
    hide Apart;
  }

  /** All of the list change, none ringing anew. */
  lemma SettleKeeps(list: seq<Callback>, number: Number, same: Same)
    requires Kept(list, same)
    ensures Kept(Settle(list, number, same), same)
  {
    hide Saved;
    var all := SettleAll(list, number, same);
    forall i, j | 0 <= i < j < |all|
      ensures Apart(all[i], all[j], same)
    {
      assert Apart(list[i], list[j], same);
    }
    forall i | 0 <= i < |all|
      ensures TriesOk(all[i], same)
    {
      assert TriesOk(list[i], same);
    }
    SavingKeeps(all, same);
  }

  lemma RangKeeps(list: seq<Callback>, number: Number, answered: bool, now: int, same: Same)
    requires Kept(list, same)
    ensures Kept(Rang(list, number, answered, now, same), same)
  {
    hide Saved;
    var c := Find(list, number, true, same, 0);
    if c.Some? {
      assert TriesOk(list[c.value], same);
      ChangeKeeps(list, c.value, Rang1(list[c.value], answered, now), same);
      SavingKeeps(list[c.value := Rang1(list[c.value], answered, now)], same);
    }
  }

  lemma DropKeeps(list: seq<Callback>, now: int, same: Same)
    requires Kept(list, same)
    ensures Kept(DropOld(list, now), same) && (!Ringing(list) ==> !Ringing(DropOld(list, now)))
  {
    var all := DropOld(list, now);
    forall i, j | 0 <= i < j < |all|
      ensures Apart(all[i], all[j], same)
    {
      assert Apart(list[i], list[j], same);
    }
    forall i | 0 <= i < |all|
      ensures TriesOk(all[i], same)
    {
      assert TriesOk(list[i], same);
    }
  }

  /** Whoever may be rung shows their number: they are the same as themselves. */
  ghost predicate OnlyShown(look: Look, same: Same) {
    forall n :: look.may(n) ==> same(n, n)
  }

  lemma TickKeeps(list: seq<Callback>, look: Look, same: Same)
    requires Kept(list, same) && OnlyShown(look, same)
    ensures Kept(Tick(list, look, same), same)
  {
    hide Saved, Kept, Rang, OnlyShown;
    var lost := Lost(list, look.now, 0);
    if lost.Some? {
      RangKeeps(list, list[lost.value].number, false, look.now, same);
    }
    var after := AfterLost(list, look.now, same);
    if look.on && look.free && !Ringing(after) {
      DropKeeps(after, look.now, same);
      var young := DropOld(after, look.now);
      var next := NextDue(young, look.now, 0);
      if next.Some? {
        NextKeeps(young, next.value, look, same);
      }
    }
  }

  lemma NextKeeps(young: seq<Callback>, i: nat, look: Look, same: Same)
    requires Kept(young, same) && !Ringing(young) && i < |young| && young[i].state == Waiting && OnlyShown(look, same)
    ensures
      var c := young[i];
      && Kept(Saved(young[i := c.(state := Dropped)]), same)
      && (look.may(c.number) ==> Kept(Saved(young[i := c.(state := Calling, tries := c.tries + 1, nextAt := look.now)]), same))
      && (look.reply.Refused? ==> Kept(Saved(young[i := c.(nextAt := RetryAfter(look.reply.why, look.now, look.zone))]), same))
  {
    hide Saved, RetryAfter;
    var c := young[i];
    assert TriesOk(c, same);
    var dropped, calling := c.(state := Dropped), c.(state := Calling, tries := c.tries + 1, nextAt := look.now);
    ChangeKeeps(young, i, dropped, same);
    SavingKeeps(young[i := dropped], same);
    if look.may(c.number) {
      ChangeKeeps(young, i, calling, same);
      SavingKeeps(young[i := calling], same);
    }
    if look.reply.Refused? {
      var later := c.(nextAt := RetryAfter(look.reply.why, look.now, look.zone));
      ChangeKeeps(young, i, later, same);
      SavingKeeps(young[i := later], same);
    }
  }

  // ---- A refused dial ---------------------------------------------------------------------------------------

  /** A refused dial's next try is strictly later; over the daily limit, five minutes into the next local day. */
  lemma RefusedIsLater(why: Refusal, now: int, zone: int)
    ensures now < RetryAfter(why, now, zone)
    ensures
      var again := RetryAfter(DailyCap, now, zone);
      LocalDay(again, zone) == LocalDay(now, zone) + 1 && TimeOfDay(again, zone) == FIVE_MINUTES
  {
    var again, local := RetryAfter(DailyCap, now, zone), now + zone;
    assert again + zone == (local / DAY + 1) * DAY + FIVE_MINUTES;
    DayOf(local / DAY + 1, FIVE_MINUTES);
  }

  lemma DayOf(day: int, into: int)
    requires 0 <= into < DAY
    ensures (day * DAY + into) / DAY == day && (day * DAY + into) % DAY == into
  {
  }

  /** The one a look finds due, and the list it looks in. */
  function Young(list: seq<Callback>, look: Look, same: Same): seq<Callback> {
    DropOld(AfterLost(list, look.now, same), look.now)
  }

  function Found(list: seq<Callback>, look: Look, same: Same): (next: Option<nat>)
    ensures next.Some? ==> next.value < |Young(list, look, same)| && IsDue(Young(list, look, same)[next.value], look.now)
  {
    NextDue(Young(list, look, same), look.now, 0)
  }

  /** The look asks the desktop to dial the call back it found, and is refused. */
  predicate IsRefused(list: seq<Callback>, look: Look, same: Same) {
    && look.on && look.free && !Ringing(AfterLost(list, look.now, same))
    && Found(list, look, same).Some?
    && !look.skip(Young(list, look, same)[Found(list, look, same).value].number)
    && look.may(Young(list, look, same)[Found(list, look, same).value].number)
    && look.route == Some(true) && look.reply.Refused?
  }

  /** Due at no time of a refused look, nor before; over the daily limit, at no time of its local day. */
  ghost predicate DueLater(c: Callback, look: Look) {
    && (forall t :: t <= look.now ==> !IsDue(c, t))
    && (look.reply == Refused(DailyCap) ==> forall t :: LocalDay(t, look.zone) <= LocalDay(look.now, look.zone) ==> !IsDue(c, t))
  }

  /** A refused dial is not a try: they wait on as they were, and no look before a later time rings them. */
  lemma RefusedWaits(list: seq<Callback>, look: Look, same: Same)
    requires IsRefused(list, look, same)
    ensures
      var c := Young(list, look, same)[Found(list, look, same).value];
      exists later :: look.now < later && c.(nextAt := later) in Tick(list, look, same) && DueLater(c.(nextAt := later), look)
  {
    hide AfterLost, Saved, RetryAfter, LocalDay, Ringing;
    var young, next := Young(list, look, same), Found(list, look, same).value;
    var c, later := young[next], RetryAfter(look.reply.why, look.now, look.zone);
    RefusedIsLater(look.reply.why, look.now, look.zone);
    OpenIsSaved(young[next := c.(nextAt := later)], next);
    forall t | look.reply.why == DailyCap && LocalDay(t, look.zone) <= LocalDay(look.now, look.zone)
      ensures t < later
    {
      LaterDay(t, later, look.zone);
    }
  }

  lemma LaterDay(a: int, b: int, zone: int)
    requires LocalDay(a, zone) < LocalDay(b, zone)
    ensures a < b
  {
  }

  lemma OpenIsSaved(list: seq<Callback>, i: nat)
    requires i < |list| && IsOpen(list[i])
    ensures list[i] in Saved(list)
  {
    OpenHas(list);
    assert list[i] in Open(list);
  }

  // ---- Every run ------------------------------------------------------------------------------------------------

  datatype Step =
    | Misses(number: Number, at: int, queued: bool) | Settles(number: Number) | Rings(number: Number, answered: bool, at: int) | Looks(look: Look)

  function Next(list: seq<Callback>, s: Step, same: Same): seq<Callback> {
    match s
    case Misses(number, at, queued) => Missed(list, number, at, queued, same)
    case Settles(number) => Settle(list, number, same)
    case Rings(number, answered, at) => Rang(list, number, answered, at, same)
    case Looks(look) => Tick(list, look, same)
  }

  function After(steps: seq<Step>, same: Same): seq<Callback> {
    if steps == [] then [] else Next(After(steps[..|steps| - 1], same), steps[|steps| - 1], same)
  }

  /**
   * Every run: at most one call back rings; those open are of different people;
   * and none is rung more than twice.
   */
  lemma {:induction false} EveryRunKeeps(steps: seq<Step>, same: Same)
    requires Symmetric(same) && forall i :: 0 <= i < |steps| && steps[i].Looks? ==> OnlyShown(steps[i].look, same)
    ensures Kept(After(steps, same), same)
  {
    hide Kept, OnlyShown, Symmetric, Missed, Settle, Rang, Tick;
    if steps == [] {
      NoneKept(same);
    } else {
      var n := |steps| - 1;
      EveryRunKeeps(steps[..n], same);
      var list := After(steps[..n], same);
      match steps[n]
      case Misses(number, at, queued) => MissedKeeps(list, number, at, queued, same);
      case Settles(number) => SettleKeeps(list, number, same);
      case Rings(number, answered, at) => RangKeeps(list, number, answered, at, same);
      case Looks(look) => TickKeeps(list, look, same);
    }
  }

  lemma NoneKept(same: Same)
    ensures Kept([], same)
  {
  }

  /** A missed call is always one to be made: a new one (a hidden caller's too), or the one open for the same person. */
  lemma MissedIsOpen(list: seq<Callback>, number: Number, at: int, queued: bool, same: Same)
    ensures exists c :: c in Missed(list, number, at, queued, same) && IsOpen(c) && (c.number == number || same(c.number, number)) && c.missedAt == at
  {
    var open := Find(list, number, false, same, 0);
    var i := if open.None? then |list| else open.value;
    var missed := if open.None? then list + [Callback(number, at, 0, at + FIRST_WAIT, Waiting, queued)]
                  else
                    var c := list[open.value];
                    var soon := if c.state == Waiting && at + FIRST_WAIT < c.nextAt then at + FIRST_WAIT else c.nextAt;
                    list[open.value := c.(missedAt := at, queued := c.queued || queued, nextAt := soon)];
    OpenIsSaved(missed, i);
  }

  /** A look that rings someone rings the one due whose call was missed first, no other ringing. */
  lemma RingsTheFirst(list: seq<Callback>, look: Look, same: Same)
    requires !Ringing(AfterLost(list, look.now, same)) && Ringing(Tick(list, look, same))
    ensures
      var young := DropOld(AfterLost(list, look.now, same), look.now);
      exists i :: 0 <= i < |young| && IsDue(young[i], look.now) && !look.skip(young[i].number) && look.may(young[i].number)
        && (forall j :: 0 <= j < |young| && IsDue(young[j], look.now) ==> young[i].missedAt <= young[j].missedAt)
        && Tick(list, look, same) == Saved(young[i := young[i].(state := Calling, tries := young[i].tries + 1, nextAt := look.now)])
  {
    hide Saved, AfterLost;
    var after := AfterLost(list, look.now, same);
    var young := DropOld(after, look.now);
    NotRingingYoung(after, look.now);
    var next := NextDue(young, look.now, 0);
    if next.Some? {
      var c := young[next.value];
      NotRingingSaved(young, next.value, c.(state := Dropped));
      NotRingingSaved(young, next.value, c.(nextAt := RetryAfter(if look.reply.Refused? then look.reply.why else OtherRefusal, look.now, look.zone)));
    }
  }

  lemma NotRingingYoung(list: seq<Callback>, now: int)
    requires !Ringing(list)
    ensures !Ringing(DropOld(list, now))
  {
    var young := DropOld(list, now);
    forall i | 0 <= i < |young|
      ensures young[i].state != Calling
    {
      assert list[i].state != Calling;
    }
  }

  lemma NotRingingSaved(list: seq<Callback>, i: nat, c: Callback)
    requires !Ringing(list) && i < |list| && c.state != Calling
    ensures !Ringing(Saved(list[i := c]))
  {
    var to := list[i := c];
    OpenHas(to);
    hide Open, Settled;
    var saved := Saved(to);
    forall k | 0 <= k < |saved|
      ensures saved[k].state != Calling
    {
      assert saved[k] in Open(to) || saved[k] in Settled(to);
      assert saved[k] in to;
    }
  }

  // ---- The class ----------------------------------------------------------------------------------------------------

  lemma NextSplit(list: seq<Callback>, i: nat, open: seq<Callback>, settled: seq<Callback>)
    requires i < |list| && Open(list) == open + Open(list[i..]) && Settled(list) == settled + Settled(list[i..])
    ensures Open(list) == (if IsOpen(list[i]) then open + [list[i]] else open) + Open(list[i + 1..])
    ensures Settled(list) == (if IsOpen(list[i]) then settled else settled + [list[i]]) + Settled(list[i + 1..])
  {
    var c, rest := list[i], list[i + 1..];
    assert Open(list[i..]) == (if IsOpen(c) then [c] else []) + Open(rest) && Settled(list[i..]) == (if IsOpen(c) then [] else [c]) + Settled(rest) by {
      assert list[i..][0] == c && list[i..][1..] == rest;
    }
    hide Open, Settled, IsOpen;
    if IsOpen(c) {
      JoinAgain(open, [c], Open(rest));
      assert [] + Settled(rest) == Settled(rest);
    } else {
      JoinAgain(settled, [c], Settled(rest));
      assert [] + Open(rest) == Open(rest);
    }
  }

  /** Before the loop all is left, and after it nothing. */
  lemma AllSplit(list: seq<Callback>)
    ensures [] + Open(list[0..]) == Open(list) && [] + Settled(list[0..]) == Settled(list)
    ensures list == [] ==> Open(list) == [] && Settled(list) == []
  {
    assert list[0..] == list;
  }

  class Caller {
    var list: seq<Callback>

    constructor ()
      ensures list == []
    {
      list := [];
    }

    method Save()
      modifies this
      ensures list == Saved(old(list))
    {
      hide Open, Settled;
      AllSplit(list);
      var open, settled := [], [];
      var i := 0;
      while i < |list|
        invariant 0 <= i <= |list| && list == old(list)
        invariant Open(list) == open + Open(list[i..]) && Settled(list) == settled + Settled(list[i..])
      {
        NextSplit(list, i, open, settled);
        if IsOpen(list[i]) {
          open := open + [list[i]];
        } else {
          settled := settled + [list[i]];
        }
        i := i + 1;
      }
      AllSplit(list[|list|..]);
      assert open + [] == open && settled + [] == settled;
      list := open + Last(settled, SHOWN);
    }

    /** Adds an entry for `number`, or brings forward the one there is for that person. */
    method MissedCall(number: Number, at: int, queued: bool, same: Same)
      modifies this
      ensures list == Missed(old(list), number, at, queued, same)
    {
      var open := Find(list, number, false, same, 0);
      if open.Some? {
        var c := list[open.value];
        var soon := if c.state == Waiting && at + FIRST_WAIT < c.nextAt then at + FIRST_WAIT else c.nextAt;
        list := list[open.value := c.(missedAt := at, queued := c.queued || queued, nextAt := soon)];
      } else {
        list := list + [Callback(number, at, 0, at + FIRST_WAIT, Waiting, queued)];
      }
      Save();
    }

    /** No entry of this person's waits any more. */
    method SettleFor(number: Number, same: Same)
      modifies this
      ensures list == Settle(old(list), number, same)
    {
      var any := false;
      var i := 0;
      while i < |list|
        invariant 0 <= i <= |list| == |old(list)|
        invariant forall j :: 0 <= j < i ==> list[j] == Settle1(old(list)[j], number, same)
        invariant forall j :: i <= j < |list| ==> list[j] == old(list)[j]
        invariant any == exists j :: 0 <= j < i && old(list)[j].state == Waiting && same(old(list)[j].number, number)
      {
        any := any || (list[i].state == Waiting && same(list[i].number, number));
        list := list[i := Settle1(list[i], number, same)];
        i := i + 1;
      }
      assert list == SettleAll(old(list), number, same);
      if any {
        Save();
      } else {
        assert list == old(list);
      }
    }

    method RangFor(number: Number, answered: bool, now: int, same: Same)
      modifies this
      ensures list == Rang(old(list), number, answered, now, same)
    {
      var c := Find(list, number, true, same, 0);
      if c.Some? {
        list := list[c.value := Rang1(list[c.value], answered, now)];
        Save();
      }
    }

    /** The look as it runs, one guard after another. */
    method LookNow(look: Look, same: Same)
      modifies this
      ensures list == Tick(old(list), look, same)
    {
      hide Saved, Rang, Ringing;
      var lost := Lost(list, look.now, 0);
      if lost.Some? {
        RangFor(list[lost.value].number, false, look.now, same);
      }
      if !look.on || !look.free || Ringing(list) {
        return;
      }
      DropTooOld(look.now);
      var next := NextDue(list, look.now, 0);
      if next.None? {
        return;
      }
      var c := list[next.value];
      if look.skip(c.number) || !look.may(c.number) || look.route == Some(false) {
        list := list[next.value := c.(state := Dropped)];
        Save();
        return;
      }
      if look.route.None? {
        return;
      }
      match look.reply
      case Dialled => list := list[next.value := c.(state := Calling, tries := c.tries + 1, nextAt := look.now)]; Save();
      case Refused(why) => list := list[next.value := c.(nextAt := RetryAfter(why, look.now, look.zone))]; Save();
    }

    method DropTooOld(now: int)
      modifies this
      ensures list == DropOld(old(list), now)
    {
      var i := 0;
      while i < |list|
        invariant 0 <= i <= |list| == |old(list)|
        invariant forall j :: 0 <= j < i ==> list[j] == Drop1(old(list)[j], now)
        invariant forall j :: i <= j < |list| ==> list[j] == old(list)[j]
      {
        list := list[i := Drop1(list[i], now)];
        i := i + 1;
      }
      assert list == DropOld(old(list), now);
    }
  }
}
