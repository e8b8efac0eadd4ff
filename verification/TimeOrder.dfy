/**
 * Putting lanes in one order by time: the stable sort the merges of threads.ts
 * are proved against, and what one step of a merge takes from it.
 */
module TimeOrder {
  import opened Subsequences

  /** A time in milliseconds, or before every time (the source's -Infinity). */
  datatype Time = Never | At(ms: int)

  predicate Earlier(a: Time, b: Time) {
    b.At? && (a.Never? || a.ms < b.ms)
  }

  predicate NonDecreasing(times: seq<Time>) {
    forall i, j :: 0 <= i < j < |times| ==> !Earlier(times[j], times[i])
  }

  /** Something of a lane, by where it is there. */
  datatype Slot = Slot(lane: nat, index: nat, time: Time)

  // ---- The stable sort ---------------------------------------------------------

  /** `e` put before the first of `s` that is not earlier. */
  function Insert(e: Slot, s: seq<Slot>): seq<Slot> {
    if s == [] || !Earlier(s[0].time, e.time) then [e] + s else [s[0]] + Insert(e, s[1..])
  }

  /** `s` by time, a tie in the order of `s`. */
  function StableSort(s: seq<Slot>): seq<Slot> {
    if s == [] then [] else Insert(s[0], StableSort(s[1..]))
  }

  predicate ByTime(s: seq<Slot>) {
    forall i, j :: 0 <= i < j < |s| ==> !Earlier(s[j].time, s[i].time)
  }

  lemma {:induction false} InsertKeeps(e: Slot, s: seq<Slot>)
    ensures multiset(Insert(e, s)) == multiset{e} + multiset(s)
    ensures ByTime(s) ==> ByTime(Insert(e, s))
  {
    if s != [] && Earlier(s[0].time, e.time) {
      InsertKeeps(e, s[1..]);
      assert s == [s[0]] + s[1..];
      if ByTime(s) {
        InsertedLater(e, s);
      }
    }
  }

  lemma InsertedLater(e: Slot, s: seq<Slot>)
    requires s != [] && ByTime(s) && Earlier(s[0].time, e.time)
    requires multiset(Insert(e, s[1..])) == multiset{e} + multiset(s[1..]) && ByTime(Insert(e, s[1..]))
    ensures ByTime([s[0]] + Insert(e, s[1..]))
  {
    hide Insert;
    var r := Insert(e, s[1..]);
    forall j | 0 <= j < |r|
      ensures !Earlier(r[j].time, s[0].time)
    {
      assert r[j] in multiset(r);
    }
  }

  /** The sort is a permutation, and in order. */
  lemma {:induction false} SortKeeps(s: seq<Slot>)
    ensures multiset(StableSort(s)) == multiset(s)
    ensures ByTime(StableSort(s))
  {
    if s != [] {
      SortKeeps(s[1..]);
      InsertKeeps(s[0], StableSort(s[1..]));
      assert s == [s[0]] + s[1..];
    }
  }

  /** The slots of one lane, in their order. */
  function OfLane(s: seq<Slot>, lane: nat): seq<Slot> {
    if s == [] then [] else (if s[0].lane == lane then [s[0]] else []) + OfLane(s[1..], lane)
  }

  lemma {:induction false} OfLaneJoin(s: seq<Slot>, t: seq<Slot>, lane: nat)
    ensures OfLane(s + t, lane) == OfLane(s, lane) + OfLane(t, lane)
  {
    if s == [] {
      assert s + t == t;
    } else {
      assert (s + t)[1..] == s[1..] + t;
      OfLaneJoin(s[1..], t, lane);
      JoinAgain(if s[0].lane == lane then [s[0]] else [], OfLane(s[1..], lane), OfLane(t, lane));
    }
  }

  lemma {:induction false} InsertOfLane(e: Slot, s: seq<Slot>, lane: nat)
    requires ByTime(s)
    ensures OfLane(Insert(e, s), lane) == if e.lane == lane then Insert(e, OfLane(s, lane)) else OfLane(s, lane)
  {
    if s == [] || !Earlier(s[0].time, e.time) {
      assert ([e] + s)[1..] == s;
      OfLaneIsPart(s, lane);
    } else {
      InsertOfLane(e, s[1..], lane);
      assert ([s[0]] + Insert(e, s[1..]))[1..] == Insert(e, s[1..]);
      var o := OfLane(s, lane);
      if s[0].lane == lane {
        assert o == [s[0]] + OfLane(s[1..], lane);
        assert o[1..] == OfLane(s[1..], lane);
      } else {
        assert o == OfLane(s[1..], lane);
      }
    }
  }

  lemma {:induction false} OfLaneIsPart(s: seq<Slot>, lane: nat)
    ensures forall e :: e in OfLane(s, lane) <==> e in s && e.lane == lane
  {
    if s != [] {
      OfLaneIsPart(s[1..], lane);
      assert s == [s[0]] + s[1..];
    }
  }

  lemma InsertAtFront(e: Slot, s: seq<Slot>)
    requires ByTime([e] + s)
    ensures ByTime(s)
    ensures Insert(e, s) == [e] + s
  {
    var t := [e] + s;
    assert forall i :: 0 <= i < |s| ==> s[i] == t[i + 1];
    if s != [] {
      assert !Earlier(t[1].time, t[0].time);
    }
  }

  /** Sorting keeps a lane's own order when its times do not fall. */
  lemma {:induction false} SortOfLane(s: seq<Slot>, lane: nat)
    requires ByTime(OfLane(s, lane))
    ensures OfLane(StableSort(s), lane) == OfLane(s, lane)
  {
    if s != [] {
      var r := OfLane(s[1..], lane);
      if s[0].lane == lane {
        InsertAtFront(s[0], r);
      } else {
        assert OfLane(s, lane) == r;
      }
      SortOfLane(s[1..], lane);
      SortKeeps(s[1..]);
      InsertOfLane(s[0], StableSort(s[1..]), lane);
    }
  }

  // ---- Merging lanes -------------------------------------------------------------

  /** The slots of lane `l` from `from` on. */
  function LaneSlots(times: seq<Time>, l: nat, from: nat): (r: seq<Slot>)
    requires from <= |times|
    ensures |r| == |times| - from
    ensures forall i :: 0 <= i < |r| ==> r[i] == Slot(l, from + i, times[from + i])
    decreases |times| - from
  {
    if from == |times| then [] else [Slot(l, from, times[from])] + LaneSlots(times, l, from + 1)
  }

  predicate Heads(times: seq<seq<Time>>, next: seq<nat>) {
    |next| == |times| && forall l :: 0 <= l < |times| ==> next[l] <= |times[l]|
  }

  /** What is left of the lanes from lane `l` on, a lane after another. */
  function Left(times: seq<seq<Time>>, next: seq<nat>, l: nat): seq<Slot>
    requires Heads(times, next) && l <= |times|
    decreases |times| - l
  {
    if l == |times| then [] else LaneSlots(times[l], l, next[l]) + Left(times, next, l + 1)
  }

  /** All the lanes in one order: by time, a tie to the lane listed first. */
  function InTimeOrder(times: seq<seq<Time>>): seq<Slot> {
    StableSort(Left(times, seq(|times|, _ => 0), 0))
  }

  predicate IsHead(times: seq<seq<Time>>, next: seq<nat>, l: nat)
    requires Heads(times, next)
  {
    l < |times| && next[l] < |times[l]|
  }

  /** The lane whose head goes next: no other head is earlier, nor as early in a lane listed before. */
  predicate IsPick(times: seq<seq<Time>>, next: seq<nat>, pick: nat, upTo: nat)
    requires Heads(times, next)
  {
    && IsHead(times, next, pick)
    && forall l: nat :: l < upTo && IsHead(times, next, l) ==>
      if l < pick then Earlier(times[pick][next[pick]], times[l][next[l]]) else !Earlier(times[l][next[l]], times[pick][next[pick]])
  }

  /** Everything of `s` after something `h` (in time) is still after it once sorted behind it. */
  lemma {:induction false} LaterFirst(s: seq<Slot>, h: Slot, t: seq<Slot>, t': seq<Slot>)
    requires forall e :: e in s ==> Earlier(h.time, e.time)
    requires StableSort(t) == [h] + StableSort(t')
    ensures StableSort(s + t) == [h] + StableSort(s + t')
  {
    if s == [] {
      assert s + t == t && s + t' == t';
    } else {
      assert (s + t)[1..] == s[1..] + t && (s + t')[1..] == s[1..] + t';
      LaterFirst(s[1..], h, t, t');
      assert ([h] + StableSort(s[1..] + t'))[1..] == StableSort(s[1..] + t');
    }
  }

  lemma InsertFirst(e: Slot, s: seq<Slot>)
    requires forall x :: x in s ==> !Earlier(x.time, e.time)
    ensures Insert(e, StableSort(s)) == [e] + StableSort(s)
  {
    SortKeeps(s);
    var r := StableSort(s);
    if r != [] {
      assert r[0] in multiset(s);
    }
  }

  lemma {:induction false} LeftIsLeft(times: seq<seq<Time>>, next: seq<nat>, l: nat)
    requires Heads(times, next) && l <= |times|
    ensures forall e :: e in Left(times, next, l) <==>
      l <= e.lane < |times| && next[e.lane] <= e.index < |times[e.lane]| && e.time == times[e.lane][e.index]
    decreases |times| - l
  {
    if l < |times| {
      LeftIsLeft(times, next, l + 1);
      var s := LaneSlots(times[l], l, next[l]);
      forall e: Slot | l == e.lane && next[l] <= e.index < |times[l]| && e.time == times[l][e.index]
        ensures e in s
      {
        assert s[e.index - next[l]] == e;
      }
    }
  }

  /** One step of a merge: the head picked is the first of what is left, sorted. */
  lemma {:induction false} PickIsFirst(times: seq<seq<Time>>, next: seq<nat>, pick: nat, l: nat)
    requires Heads(times, next) && l <= pick
    requires forall k :: 0 <= k < |times| ==> NonDecreasing(times[k])
    requires IsPick(times, next, pick, |times|)
    ensures Heads(times, next[pick := next[pick] + 1])
    ensures StableSort(Left(times, next, l)) ==
            [Slot(pick, next[pick], times[pick][next[pick]])] + StableSort(Left(times, next[pick := next[pick] + 1], l))
    decreases pick - l
  {
    hide StableSort, Insert;
    var h := Slot(pick, next[pick], times[pick][next[pick]]);
    var next' := next[pick := next[pick] + 1];
    if l == pick {
      PickIsFirstOfItsLane(times, next, pick);
    } else {
      PickIsFirst(times, next, pick, l + 1);
      LaterFirst(LaneSlots(times[l], l, next[l]), h, Left(times, next, l + 1), Left(times, next', l + 1));
    }
  }

  lemma PickIsFirstOfItsLane(times: seq<seq<Time>>, next: seq<nat>, pick: nat)
    requires Heads(times, next) && IsPick(times, next, pick, |times|)
    requires forall k :: 0 <= k < |times| ==> NonDecreasing(times[k])
    ensures Heads(times, next[pick := next[pick] + 1])
    ensures StableSort(Left(times, next, pick)) ==
            [Slot(pick, next[pick], times[pick][next[pick]])] + StableSort(Left(times, next[pick := next[pick] + 1], pick))
  {
    var h := Slot(pick, next[pick], times[pick][next[pick]]);
    var next' := next[pick := next[pick] + 1];
    var rest := Left(times, next', pick);
    OneTaken(times, next, pick);
    hide Left, StableSort, Insert, IsPick;
    assert ([h] + rest)[1..] == rest;
    SortOnto(h, rest);
    forall x | x in rest
      ensures !Earlier(x.time, h.time)
    {
      LeftIsLeft(times, next', pick);
      NotBefore(times, next, pick, x);
    }
    InsertFirst(h, rest);
  }

  lemma SortOnto(h: Slot, rest: seq<Slot>)
    ensures StableSort([h] + rest) == Insert(h, StableSort(rest))
  {
    hide Insert;
    assert ([h] + rest)[1..] == rest;
  }

  lemma OneTaken(times: seq<seq<Time>>, next: seq<nat>, pick: nat)
    requires Heads(times, next) && IsHead(times, next, pick)
    ensures
      var next' := next[pick := next[pick] + 1];
      Heads(times, next') && Left(times, next, pick) == [Slot(pick, next[pick], times[pick][next[pick]])] + Left(times, next', pick)
  {
    SameAfter(times, next, next[pick := next[pick] + 1], pick + 1);
  }

  lemma NotBefore(times: seq<seq<Time>>, next: seq<nat>, pick: nat, x: Slot)
    requires Heads(times, next) && IsPick(times, next, pick, |times|)
    requires forall k :: 0 <= k < |times| ==> NonDecreasing(times[k])
    requires pick <= x.lane < |times| && next[x.lane] <= x.index < |times[x.lane]| && x.time == times[x.lane][x.index]
    ensures !Earlier(x.time, times[pick][next[pick]])
  {
    assert IsHead(times, next, x.lane);
    assert NonDecreasing(times[x.lane]);
    assert x.index == next[x.lane] || !Earlier(times[x.lane][x.index], times[x.lane][next[x.lane]]);
  }

  lemma {:induction false} SameAfter(times: seq<seq<Time>>, next: seq<nat>, next': seq<nat>, l: nat)
    requires Heads(times, next) && Heads(times, next') && l <= |times|
    requires forall k :: l <= k < |times| ==> next[k] == next'[k]
    ensures Left(times, next, l) == Left(times, next', l)
    decreases |times| - l
  {
    hide LaneSlots;
    if l < |times| {
      SameAfter(times, next, next', l + 1);
      assert next[l] == next'[l];
    }
  }

  lemma NothingLeft(times: seq<seq<Time>>, next: seq<nat>)
    requires Heads(times, next)
    requires forall l: nat :: !IsHead(times, next, l)
    ensures Left(times, next, 0) == []
  {
    LeftIsLeft(times, next, 0);
    if Left(times, next, 0) != [] {
      var e := Left(times, next, 0)[0];
      assert e in Left(times, next, 0);
      assert IsHead(times, next, e.lane);
    }
  }

  /** What `InTimeOrder` is: every slot of every lane, in order of time. */
  lemma InTimeOrderHasAll(times: seq<seq<Time>>)
    ensures ByTime(InTimeOrder(times))
    ensures forall e :: e in InTimeOrder(times) <==> e.lane < |times| && e.index < |times[e.lane]| && e.time == times[e.lane][e.index]
  {
    var next: seq<nat> := seq(|times|, _ => 0);
    var all := Left(times, next, 0);
    SortKeeps(all);
    LeftIsLeft(times, next, 0);
    assert forall e :: e in InTimeOrder(times) <==> e in multiset(InTimeOrder(times));
    assert forall e :: e in all <==> e in multiset(all);
  }

  /** Each lane's slots in it, once each and in the lane's own order. */
  lemma InTimeOrderOfLane(times: seq<seq<Time>>, l: nat)
    requires l < |times| && NonDecreasing(times[l])
    ensures OfLane(InTimeOrder(times), l) == LaneSlots(times[l], l, 0)
  {
    var next: seq<nat> := seq(|times|, _ => 0);
    LaneOfLeft(times, next, 0, l);
    SortOfLane(Left(times, next, 0), l);
  }

  lemma {:induction false} LaneOfLeft(times: seq<seq<Time>>, next: seq<nat>, from: nat, l: nat)
    requires Heads(times, next) && from <= |times| && l < |times|
    ensures OfLane(Left(times, next, from), l) == if from <= l then LaneSlots(times[l], l, next[l]) else []
    decreases |times| - from
  {
    if from < |times| {
      LaneOfLeft(times, next, from + 1, l);
      var s := LaneSlots(times[from], from, next[from]);
      OfLaneJoin(s, Left(times, next, from + 1), l);
      AllOrNone(s, from, l);
    }
  }

  lemma {:induction false} AllOrNone(s: seq<Slot>, lane: nat, l: nat)
    requires forall i :: 0 <= i < |s| ==> s[i].lane == lane
    ensures OfLane(s, l) == if l == lane then s else []
  {
    if s != [] {
      AllOrNone(s[1..], lane, l);
    }
  }

  /** A tie goes to the lane listed first. */
  lemma TiesToTheFirst(times: seq<seq<Time>>, i: nat, j: nat)
    requires forall k :: 0 <= k < |times| ==> NonDecreasing(times[k])
    requires i < j < |InTimeOrder(times)|
    requires InTimeOrder(times)[i].time == InTimeOrder(times)[j].time
    ensures InTimeOrder(times)[i].lane <= InTimeOrder(times)[j].lane
  {
    var all := Left(times, seq(|times|, _ => 0), 0);
    LanesRise(times, seq(|times|, _ => 0), 0);
    StableTies(all);
  }

  predicate ByLane(s: seq<Slot>) {
    forall i, j :: 0 <= i < j < |s| ==> s[i].lane <= s[j].lane
  }

  predicate TiesByLane(s: seq<Slot>) {
    forall i, j :: 0 <= i < j < |s| && s[i].time == s[j].time ==> s[i].lane <= s[j].lane
  }

  lemma {:induction false} LanesRise(times: seq<seq<Time>>, next: seq<nat>, l: nat)
    requires Heads(times, next) && l <= |times|
    ensures ByLane(Left(times, next, l))
    decreases |times| - l
  {
    if l < |times| {
      LanesRise(times, next, l + 1);
      LeftIsLeft(times, next, l + 1);
      var s, t := LaneSlots(times[l], l, next[l]), Left(times, next, l + 1);
      assert forall i :: 0 <= i < |t| ==> t[i] in t;
    }
  }

  lemma {:induction false} StableTies(s: seq<Slot>)
    requires ByLane(s)
    ensures TiesByLane(StableSort(s))
  {
    if s != [] {
      StableTies(s[1..]);
      SortKeeps(s[1..]);
      var r := StableSort(s[1..]);
      forall e | e in r
        ensures s[0].lane <= e.lane
      {
        assert e in multiset(r);
        assert e in s[1..];
      }
      InsertTies(s[0], r);
    }
  }

  lemma {:induction false} InsertTies(e: Slot, s: seq<Slot>)
    requires TiesByLane(s) && forall x :: x in s ==> e.lane <= x.lane
    requires ByTime(s)
    ensures TiesByLane(Insert(e, s))
  {
    if s == [] || !Earlier(s[0].time, e.time) {
    } else {
      InsertTies(e, s[1..]);
      InsertKeeps(e, s[1..]);
      var r := Insert(e, s[1..]);
      forall j | 0 <= j < |r| && r[j].time == s[0].time
        ensures s[0].lane <= r[j].lane
      {
        assert r[j] in multiset(r);
        assert r[j] != e;
        assert r[j] in s[1..];
      }
    }
  }
}
