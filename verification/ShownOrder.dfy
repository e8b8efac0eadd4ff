/**
 * Where the new turns at the lanes' ends are shown (`threadOrder`,
 * app/src/threads.ts:126-151): after everything else, by the times their own
 * turns carry.
 */
module ShownOrder {
  import opened Options
  import opened Subsequences
  import opened TimeOrder
  import opened LaneMerge
  import opened ThreadOrder

  /** From place `k` on, nothing of the lane was shown. */
  ghost predicate AtItsEnd(lane: seq<Turn>, previous: seq<Turn>, k: nat) {
    forall j :: k <= j < |lane| ==> lane[j] !in previous
  }

  /** A time that counts for the new turn at place `k`: of a new one at the end up to it, or of the last one with a time before those. */
  ghost predicate Counts(lane: seq<Turn>, previous: seq<Turn>, k: nat, j: nat)
    requires k < |lane|
  {
    && j <= k && lane[j].at.Some?
    && (AtItsEnd(lane, previous, j) || forall i :: j < i <= k && lane[i].at.Some? ==> AtItsEnd(lane, previous, i))
  }

  /** The time a new turn at a lane's end is shown by: the latest of those that count. */
  ghost predicate ShownBy(lane: seq<Turn>, previous: seq<Turn>, k: nat, time: Time)
    requires k < |lane|
  {
    && (forall j :: 0 <= j <= k && Counts(lane, previous, k, j) ==> !Earlier(time, At(lane[j].at.value)))
    && (time.At? ==> exists j :: 0 <= j <= k && Counts(lane, previous, k, j) && time == At(lane[j].at.value))
  }

  // ---- The times -------------------------------------------------------------------------------

  lemma {:induction false} TimeBeforeIs(turns: seq<Turn>, n: nat)
    requires n <= |turns|
    ensures TimeBefore(turns, n).Never? ==> forall i :: 0 <= i < n ==> turns[i].at.None?
    ensures TimeBefore(turns, n).At? ==> exists j :: 0 <= j < n && LastTimed(turns, j, n) && TimeBefore(turns, n) == At(turns[j].at.value)
  {
    if n > 0 {
      if turns[n - 1].at.Some? {
        assert LastTimed(turns, n - 1, n);
      } else {
        TimeBeforeIs(turns, n - 1);
        if TimeBefore(turns, n).At? {
          var j :| 0 <= j < n - 1 && LastTimed(turns, j, n - 1) && TimeBefore(turns, n - 1) == At(turns[j].at.value);
          assert LastTimed(turns, j, n);
        }
      }
    }
  }

  ghost predicate LastTimed(turns: seq<Turn>, j: nat, n: nat)
    requires n <= |turns|
  {
    j < n && turns[j].at.Some? && forall i :: j < i < n ==> turns[i].at.None?
  }

  lemma {:induction false} TailTimesAre(floor: Time, ts: seq<Turn>, p: nat)
    requires p < |ts|
    ensures
      var time := TailTimes(floor, ts)[p];
      && !Earlier(time, floor) && (forall q :: 0 <= q <= p ==> !Earlier(time, AsTime(ts[q].at)))
      && (time == floor || exists q :: 0 <= q <= p && time == AsTime(ts[q].at))
    decreases |ts|
  {
    var f := Later(floor, AsTime(ts[0].at));
    if p > 0 {
      TailTimesAre(f, ts[1..], p - 1);
      var time := TailTimes(f, ts[1..])[p - 1];
      forall q | 0 <= q <= p
        ensures !Earlier(time, AsTime(ts[q].at))
      {
        if q > 0 {
          assert ts[1..][q - 1] == ts[q];
        }
      }
      if time != f {
        var q :| 0 <= q <= p - 1 && time == AsTime(ts[1..][q].at);
        assert ts[q + 1] == ts[1..][q];
      }
    }
  }

  /** Where a lane's new turns at its end begin. */
  ghost predicate EndsFrom(lane: seq<Turn>, previous: seq<Turn>, e: nat) {
    e <= |lane| && AtItsEnd(lane, previous, e) && (e > 0 ==> lane[e - 1] in previous)
  }

  lemma EndIff(lane: seq<Turn>, previous: seq<Turn>, e: nat, k: nat)
    requires EndsFrom(lane, previous, e) && k < |lane|
    ensures AtItsEnd(lane, previous, k) <==> e <= k
  {
  }

  lemma CountsIff(lane: seq<Turn>, previous: seq<Turn>, e: nat, k: nat, j: nat)
    requires EndsFrom(lane, previous, e) && e <= k < |lane| && j <= k
    ensures Counts(lane, previous, k, j) <==> lane[j].at.Some? && (e <= j || LastTimed(lane, j, e))
  {
    forall i | 0 <= i <= k
      ensures AtItsEnd(lane, previous, i) <==> e <= i
    {
      EndIff(lane, previous, e, i);
    }
  }

  lemma TailTimeIs(lane: seq<Turn>, previous: seq<Turn>, e: nat, k: nat)
    requires EndsFrom(lane, previous, e) && e <= k < |lane|
    ensures ShownBy(lane, previous, k, TailTimes(TimeBefore(lane, e), lane[e..])[k - e])
  {
    hide TimeBefore, TailTimes, Counts, EndsFrom;
    var floor, ts := TimeBefore(lane, e), lane[e..];
    var time := TailTimes(floor, ts)[k - e];
    TimeBeforeIs(lane, e);
    TailTimesAre(floor, ts, k - e);
    forall j | 0 <= j <= k
      ensures Counts(lane, previous, k, j) <==> lane[j].at.Some? && (e <= j || LastTimed(lane, j, e))
    {
      CountsIff(lane, previous, e, k, j);
    }
    forall j | 0 <= j <= k && Counts(lane, previous, k, j)
      ensures !Earlier(time, At(lane[j].at.value))
    {
      if e <= j {
        assert ts[j - e] == lane[j];
      }
    }
    if time.At? && time != floor {
      var q :| 0 <= q <= k - e && time == AsTime(ts[q].at);
      assert ts[q] == lane[e + q];
      assert Counts(lane, previous, k, e + q);
    }
  }

  /** Only one time is the latest. */
  lemma OneTime(lane: seq<Turn>, previous: seq<Turn>, k: nat, s: Time, t: Time)
    requires k < |lane| && ShownBy(lane, previous, k, s) && ShownBy(lane, previous, k, t)
    ensures s == t
  {
  }

  // ---- The walk passes what is before the end ----------------------------------------------------------

  lemma {:induction false} NextAfterShown(lanes: seq<LaneTurns>, previous: seq<Turn>, n: nat, l: nat)
    requires Apart(lanes) && n <= |previous| && l < |lanes|
    ensures
      var m := Walked(lanes, previous, n).next[l];
      m > 0 ==> lanes[l].turns[m - 1] in previous
  {
    hide Apart, PutEach, Only;
    if n > 0 {
      NextAfterShown(lanes, previous, n - 1, l);
    }
  }

  lemma EndsThere(lanes: seq<LaneTurns>, previous: seq<Turn>, l: nat)
    requires Apart(lanes) && l < |lanes|
    ensures EndsFrom(lanes[l].turns, previous, Walked(lanes, previous, |previous|).next[l])
  {
    hide Apart, Walked;
    var lane, m := lanes[l].turns, Walked(lanes, previous, |previous|).next[l];
    NextAfterShown(lanes, previous, |previous|, l);
    assert previous[..|previous|] == previous;
    forall j | m <= j < |lane|
      ensures lane[j] !in previous
    {
      if lane[j] in previous {
        WalkIsPast(lanes, previous, |previous|, l, j);
      }
    }
  }

  lemma TailIsEnd(lanes: seq<LaneTurns>, previous: seq<Turn>, l: nat)
    requires Apart(lanes) && l < |lanes|
    ensures
      var w := Walked(lanes, previous, |previous|);
      Tail(lanes, w, l) == lanes[l].turns[w.next[l]..]
  {
    hide Walked;
    var lane, w := lanes[l].turns, Walked(lanes, previous, |previous|);
    EndsThere(lanes, previous, l);
    WalkPuts(lanes, previous, |previous|);
    forall k | w.next[l] <= k < |lane|
      ensures lane[k] !in w.out
    {
      PlaceIs(lanes, l, k);
    }
    OnlyAll(lane[w.next[l]..], Elements(lane) - Elements(w.out));
  }

  // ---- The order at the end ---------------------------------------------------------------------------------

  /** Where a new turn at its lane's end is among them, and by which time. */
  lemma InNewTurns(lanes: seq<LaneTurns>, previous: seq<Turn>, l: nat, k: nat, time: Time) returns (p: nat)
    requires Apart(lanes) && l < |lanes| && k < |lanes[l].turns| && AtItsEnd(lanes[l].turns, previous, k)
    requires ShownBy(lanes[l].turns, previous, k, time)
    ensures
      var w := Walked(lanes, previous, |previous|);
      var slots := InTimeOrder(TimesOfTails(lanes, w));
      p < |slots| && p < |NewTurns(lanes, w)| && NewTurns(lanes, w)[p] == lanes[l].turns[k] && slots[p].lane == l && slots[p].time == time
  {
    hide Walked, ShownBy, Apart;
    var w := Walked(lanes, previous, |previous|);
    var e, times := w.next[l], TimesOfTails(lanes, w);
    EndsThere(lanes, previous, l);
    EndIff(lanes[l].turns, previous, e, k);
    TailIsEnd(lanes, previous, l);
    TailTimeIs(lanes[l].turns, previous, e, k);
    OneTime(lanes[l].turns, previous, k, time, times[l][k - e]);
    InTimeOrderHasAll(times);
    var slots, slot := InTimeOrder(times), Slot(l, k - e, time);
    assert slot in slots;
    p :| 0 <= p < |slots| && slots[p] == slot;
    assert Tails(lanes, w)[l].turns[k - e] == lanes[l].turns[k];
  }

  /**
   * Two new turns at the ends of two lanes are shown by their times, a tie to
   * the lane listed first: a turn's time is the latest of its lane's times from
   * the last one before its end up to it.
   */
  lemma NewTurnsByTime(lanes: seq<LaneTurns>, previous: seq<Turn>, l: nat, i: nat, m: nat, j: nat, s: Time, t: Time)
    requires Apart(lanes) && NoRepeats(previous) && l < |lanes| && m < |lanes| && l != m
    requires i < |lanes[l].turns| && AtItsEnd(lanes[l].turns, previous, i) && ShownBy(lanes[l].turns, previous, i, s)
    requires j < |lanes[m].turns| && AtItsEnd(lanes[m].turns, previous, j) && ShownBy(lanes[m].turns, previous, j, t)
    ensures Before(OrderOf(lanes, previous), lanes[l].turns[i], lanes[m].turns[j]) <==> Earlier(s, t) || (s == t && l < m)
  {
    hide Walked, ShownBy, Apart, InTimeOrder, NewTurns, OrderOf, AtItsEnd;
    var w := Walked(lanes, previous, |previous|);
    var a, b := lanes[l].turns[i], lanes[m].turns[j];
    var p := InNewTurns(lanes, previous, l, i, s);
    var q := InNewTurns(lanes, previous, m, j, t);
    SlotsByTime(lanes, w, p, q);
    OrderIs(lanes, previous);
    OrderHasAll(lanes, previous);
    PlacesOf(w.out, NewTurns(lanes, w), p, q);
  }

  lemma PlacesOf<T>(out: seq<T>, rest: seq<T>, p: nat, q: nat)
    requires NoRepeats(out + rest) && p < |rest| && q < |rest| && p != q
    ensures Before(out + rest, rest[p], rest[q]) <==> p < q
  {
    var all := out + rest;
    assert all[|out| + p] == rest[p] && all[|out| + q] == rest[q];
  }

  lemma SlotsByTime(lanes: seq<LaneTurns>, w: Walk, p: nat, q: nat)
    requires WalkFits(lanes, w)
    requires
      var slots := InTimeOrder(TimesOfTails(lanes, w));
      p < |slots| && q < |slots| && slots[p].lane != slots[q].lane
    ensures
      var slots := InTimeOrder(TimesOfTails(lanes, w));
      p < q <==> Earlier(slots[p].time, slots[q].time) || (slots[p].time == slots[q].time && slots[p].lane < slots[q].lane)
  {
    hide InTimeOrder;
    var times := TimesOfTails(lanes, w);
    var slots := InTimeOrder(times);
    forall k | 0 <= k < |times|
      ensures NonDecreasing(times[k])
    {
      TailTimesRise(TimeBefore(lanes[k].turns, w.next[k]), Tail(lanes, w, k));
    }
    InTimeOrderHasAll(times);
    if slots[p].time == slots[q].time {
      if p < q {
        TiesToTheFirst(times, p, q);
      } else {
        TiesToTheFirst(times, q, p);
      }
    }
  }

  /** They are shown after everything else. */
  lemma NewTurnsAreLast(lanes: seq<LaneTurns>, previous: seq<Turn>, l: nat, i: nat, m: nat, j: nat)
    requires Apart(lanes) && NoRepeats(previous) && l < |lanes| && m < |lanes|
    requires i < |lanes[l].turns| && !AtItsEnd(lanes[l].turns, previous, i)
    requires j < |lanes[m].turns| && AtItsEnd(lanes[m].turns, previous, j)
    ensures Before(OrderOf(lanes, previous), lanes[l].turns[i], lanes[m].turns[j])
  {
    hide Walked, OrderOf, NewTurns;
    var w := Walked(lanes, previous, |previous|);
    var a, b := lanes[l].turns[i], lanes[m].turns[j];
    OrderIs(lanes, previous);
    OrderHasAll(lanes, previous);
    PlaceIs(lanes, l, i);
    PlaceIs(lanes, m, j);
    EndsThere(lanes, previous, l);
    EndsThere(lanes, previous, m);
    EndIff(lanes[l].turns, previous, w.next[l], i);
    EndIff(lanes[m].turns, previous, w.next[m], j);
    WalkPuts(lanes, previous, |previous|);
    assert previous[..|previous|] == previous;
    assert a in w.out && b !in w.out;
    assert b in OrderOf(lanes, previous);
    FirstThenRest(w.out, NewTurns(lanes, w), a, b);
  }

  lemma FirstThenRest<T>(out: seq<T>, rest: seq<T>, a: T, b: T)
    requires a in out && b !in out && b in out + rest
    ensures Before(out + rest, a, b)
  {
    var p :| 0 <= p < |out| && out[p] == a;
    var q :| 0 <= q < |out + rest| && (out + rest)[q] == b;
    assert (out + rest)[p] == a && p < |out| <= q;
  }
}
