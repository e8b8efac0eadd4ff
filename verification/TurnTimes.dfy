/**
 * When a lane's turns happened, told from the turns themselves (`laneTimes`,
 * app/src/threads.ts:28-73): which times a turn says, and which time of the lane
 * is each turn's.
 */
module TurnTimes {
  import opened Options
  import opened Subsequences
  import opened TimeOrder
  import opened LaneMerge

  // ---- The time a turn says ----------------------------------------------------------------

  /** The automatic note that a call has begun. */
  predicate IsNote(t: Turn) {
    t.user && t.automatic && t.start.Starts?
  }

  /** The call going on at place `k` began with the note at `i`. */
  ghost predicate CallFrom(turns: seq<Turn>, i: nat, k: nat) {
    i < k <= |turns| && IsNote(turns[i]) && forall j :: i < j < k ==> !IsNote(turns[j])
  }

  /** Turn `k` says it happened at `time`: by its own time; a call's note, by the call's start; a user's words, by how far into a call they are. */
  ghost predicate Says(turns: seq<Turn>, k: nat, time: int)
    requires k < |turns|
  {
    var t := turns[k];
    if t.at.Some? then t.at.value == time
    else if IsNote(t) then t.start.at == Some(time)
    else t.user && t.said.Some? && exists i :: 0 <= i < k && CallFrom(turns, i, k) && turns[i].start.at == Some(time - t.said.value)
  }

  ghost predicate SaysNone(turns: seq<Turn>, k: nat)
    requires k < |turns|
  {
    forall time :: !Says(turns, k, time)
  }

  /** As known of the lane: its last turn, saying none, has the lane's `lastAt`, unless that is 0. */
  ghost predicate Timed(lane: LaneTurns, k: nat, time: int)
    requires k < |lane.turns|
  {
    || Says(lane.turns, k, time)
    || (SaysNone(lane.turns, k) && k == |lane.turns| - 1 && lane.lastAt == Some(time) && time != 0)
  }

  lemma {:induction false} GoingOnIs(turns: seq<Turn>, k: nat)
    requires k <= |turns|
    ensures forall i :: 0 <= i < k && CallFrom(turns, i, k) ==> CallGoingOn(turns, k) == turns[i].start.at
    ensures (forall i :: 0 <= i < k ==> !IsNote(turns[i])) ==> CallGoingOn(turns, k) == None
    ensures CallGoingOn(turns, k).Some? ==> exists i :: 0 <= i < k && CallFrom(turns, i, k)
  {
    if k > 0 {
      GoingOnIs(turns, k - 1);
      if IsNote(turns[k - 1]) {
        assert CallFrom(turns, k - 1, k);
      } else {
        forall i | 0 <= i < k && CallFrom(turns, i, k)
          ensures CallGoingOn(turns, k) == turns[i].start.at
        {
          assert i < k - 1 && CallFrom(turns, i, k - 1);
        }
        if CallGoingOn(turns, k).Some? {
          var i :| 0 <= i < k - 1 && CallFrom(turns, i, k - 1);
          assert CallFrom(turns, i, k);
        }
      }
    }
  }

  lemma SaysIs(turns: seq<Turn>, k: nat, time: int)
    requires k < |turns|
    ensures Says(turns, k, time) <==> OwnTime(turns, k) == Some(time)
  {
    GoingOnIs(turns, k);
    hide CallFrom;
  }

  lemma TimedIs(lane: LaneTurns, k: nat, time: int)
    requires k < |lane.turns|
    ensures Timed(lane, k, time) <==> KnownTime(lane, k) == Some(time)
  {
    forall t
      ensures Says(lane.turns, k, t) <==> OwnTime(lane.turns, k) == Some(t)
    {
      SaysIs(lane.turns, k, t);
    }
    hide Says, OwnTime;
    if OwnTime(lane.turns, k).Some? {
      assert Says(lane.turns, k, OwnTime(lane.turns, k).value);
    }
  }

  // ---- The time it is given ----------------------------------------------------------------------

  /** Some turn of the first `n` is timed. */
  ghost predicate AnyTimed(lane: LaneTurns, n: nat)
    requires n <= |lane.turns|
  {
    exists j, time :: 0 <= j < n && Timed(lane, j, time)
  }

  /** `time` is the latest of the times of the first `n` turns. */
  ghost predicate IsLatest(lane: LaneTurns, n: nat, time: int)
    requires n <= |lane.turns|
  {
    && (exists j :: 0 <= j < n && Timed(lane, j, time))
    && (forall j, t :: 0 <= j < n && Timed(lane, j, t) ==> t <= time)
  }

  /** `time` is that of the first turn that is timed. */
  ghost predicate IsFirstTimed(lane: LaneTurns, time: int) {
    exists j :: 0 <= j < |lane.turns| && Timed(lane, j, time) && !AnyTimed(lane, j)
  }

  /**
   * A turn happened at the latest time said up to it; with none said yet, at the
   * first said after it; and at no time known exactly when the lane has none.
   */
  lemma TurnTimeIff(lane: LaneTurns, k: nat, time: int)
    requires k < |lane.turns|
    ensures TurnTime(lane, k) == At(time) <==> if AnyTimed(lane, k + 1) then IsLatest(lane, k + 1, time) else IsFirstTimed(lane, time)
    ensures TurnTime(lane, k) == Never <==> !AnyTimed(lane, |lane.turns|)
  {
    forall j: nat, t | j < |lane.turns|
      ensures Timed(lane, j, t) <==> KnownTime(lane, j) == Some(t)
    {
      TimedIs(lane, j, t);
    }
    hide Timed, KnownTime;
    LatestIs(lane, k + 1);
    FirstTimedIs(lane, 0);
    if AnyTimed(lane, k + 1) {
      var j, t :| 0 <= j < k + 1 && Timed(lane, j, t);
      assert AnyTimed(lane, |lane.turns|);
    }
  }

  lemma {:induction false} LatestIs(lane: LaneTurns, n: nat)
    requires n <= |lane.turns|
    requires forall j: nat, t :: j < |lane.turns| ==> (Timed(lane, j, t) <==> KnownTime(lane, j) == Some(t))
    ensures LatestKnown(lane, n).Some? <==> AnyTimed(lane, n)
    ensures forall time :: LatestKnown(lane, n) == Some(time) <==> IsLatest(lane, n, time)
  {
    hide Timed, KnownTime;
    if n > 0 {
      LatestIs(lane, n - 1);
      var k := KnownTime(lane, n - 1);
      if k.Some? {
        assert Timed(lane, n - 1, k.value);
      }
      if LatestKnown(lane, n).Some? {
        var m := LatestKnown(lane, n).value;
        assert IsLatest(lane, n, m) by {
          if LatestKnown(lane, n) == k {
            assert Timed(lane, n - 1, m);
          } else {
            assert IsLatest(lane, n - 1, m);
          }
        }
        forall time | IsLatest(lane, n, time)
          ensures time == m
        {
        }
      }
    }
  }

  lemma {:induction false} FirstTimedIs(lane: LaneTurns, i: nat)
    requires i <= |lane.turns| && !AnyTimed(lane, i)
    requires forall j: nat, t :: j < |lane.turns| ==> (Timed(lane, j, t) <==> KnownTime(lane, j) == Some(t))
    ensures FirstKnown(lane, i).Some? <==> AnyTimed(lane, |lane.turns|)
    ensures forall time :: FirstKnown(lane, i) == Some(time) <==> IsFirstTimed(lane, time)
    decreases |lane.turns| - i
  {
    hide Timed, KnownTime;
    if i < |lane.turns| {
      var k := KnownTime(lane, i);
      if k.Some? {
        assert Timed(lane, i, k.value);
        forall j: nat | i < j <= |lane.turns|
          ensures AnyTimed(lane, j)
        {
        }
        forall time | IsFirstTimed(lane, time)
          ensures time == k.value
        {
          var j :| 0 <= j < |lane.turns| && Timed(lane, j, time) && !AnyTimed(lane, j);
        }
      } else {
        FirstTimedIs(lane, i + 1);
      }
    }
  }

  // ---- Words of a call -----------------------------------------------------------------------------

  /** A turn that says a time is not before it, and is at it when nothing before it is later. */
  lemma AtItsTime(lane: LaneTurns, k: nat, time: int)
    requires k < |lane.turns| && Says(lane.turns, k, time)
    ensures !Earlier(TurnTime(lane, k), At(time))
    ensures (forall j :: 0 <= j < k ==> !Earlier(At(time), TurnTime(lane, j))) ==> TurnTime(lane, k) == At(time)
  {
    TimedIs(lane, k, time);
    TimeIsALanesOwn(lane, k);
    if forall j :: 0 <= j < k ==> !Earlier(At(time), TurnTime(lane, j)) {
      forall j | 0 <= j < k && KnownTime(lane, j).Some?
        ensures KnownTime(lane, j).value <= time
      {
        TimeIsALanesOwn(lane, j);
      }
    }
  }

  /** A caller's words, with no time of their own, are as far into the call as they say after its start. */
  lemma WordsAreInTheirCall(lane: LaneTurns, i: nat, k: nat, start: int, said: int)
    requires CallFrom(lane.turns, i, k) && k < |lane.turns| && lane.turns[i].start == Starts(Some(start))
    requires
      var t := lane.turns[k];
      t.user && !IsNote(t) && t.at == None && t.said == Some(said)
    ensures !Earlier(TurnTime(lane, k), At(start + said))
    ensures (forall j :: 0 <= j < k ==> !Earlier(At(start + said), TurnTime(lane, j))) ==> TurnTime(lane, k) == At(start + said)
  {
    hide TurnTime;
    assert CallFrom(lane.turns, i, k) && lane.turns[i].start.at == Some(start + said - said);
    assert Says(lane.turns, k, start + said);
    AtItsTime(lane, k, start + said);
  }

  /** Of a call whose start has no time they have none, nor has what says none at all: they are at the time of the turn before. */
  lemma NoTimeOfItsOwn(lane: LaneTurns, k: nat)
    requires 0 < k < |lane.turns| && (forall time :: !Timed(lane, k, time))
    ensures TurnTime(lane, k) == TurnTime(lane, k - 1)
  {
    if KnownTime(lane, k).Some? {
      TimedIs(lane, k, KnownTime(lane, k).value);
      assert false;
    }
  }

  lemma WordsOfAnUntimedCall(lane: LaneTurns, i: nat, k: nat)
    requires CallFrom(lane.turns, i, k) && k < |lane.turns| - 1 && lane.turns[i].start == Starts(None)
    requires !IsNote(lane.turns[k]) && lane.turns[k].at == None
    ensures TurnTime(lane, k) == TurnTime(lane, k - 1)
  {
    forall j | 0 <= j < k && CallFrom(lane.turns, j, k)
      ensures j == i
    {
    }
    hide TurnTime, CallFrom;
    NoTimeOfItsOwn(lane, k);
  }

  /** A call begun before a text came, and words of it a minute in: the text is between them. */
  lemma WordsAfterTheText(note: Turn, words: Turn, text: Turn)
    requires note != words && note != text && words != text
    requires IsNote(note) && note.at == None && note.start == Starts(Some(1_000_000))
    requires words.user && !IsNote(words) && words.at == None && words.said == Some(60_000) && text.at == Some(1_030_000)
    ensures
      var call, texts := LaneTurns(Some(Call), [note, words], None), LaneTurns(Some(Sms), [text], None);
      LaneTimesOf(call) == [At(1_000_000), At(1_060_000)] && LaneTimesOf(texts) == [At(1_030_000)]
  {
    var call, texts := LaneTurns(Some(Call), [note, words], None), LaneTurns(Some(Sms), [text], None);
    assert CallFrom(call.turns, 0, 1);
    AtItsTime(call, 0, 1_000_000);
    WordsAreInTheirCall(call, 0, 1, 1_000_000, 60_000);
    AtItsTime(texts, 0, 1_030_000);
  }
}
