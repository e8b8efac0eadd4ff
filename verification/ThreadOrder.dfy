/**
 * Ordering lanes that changed since they were last shown (app/src/threads.ts,
 * `threadOrder`; app/src/sessions.ts, `turnsOf`): what stays, where a new turn
 * lands, and when the old order is a prefix of the new.
 */
module ThreadOrder {
  import opened Options
  import opened Subsequences
  import opened TimeOrder
  import opened LaneMerge

  // ---- The order ---------------------------------------------------------------

  /** Where a turn is: its lane, and its place there. */
  ghost function Place(lanes: seq<LaneTurns>, t: Turn): (p: (nat, nat))
    requires t in TurnsOf(lanes)
    ensures p.0 < |lanes| && p.1 < |lanes[p.0].turns| && lanes[p.0].turns[p.1] == t
  {
    var l: nat, i: nat :| l < |lanes| && i < |lanes[l].turns| && lanes[l].turns[i] == t;
    (l, i)
  }

  /** The turns `ts` put after `out`, but for those already there. */
  function PutEach(out: seq<Turn>, ts: seq<Turn>): seq<Turn>
    decreases |ts|
  {
    if ts == [] then out else PutEach(if ts[0] in out then out else out + [ts[0]], ts[1..])
  }

  /** How far into each lane the walk along `previous` is, and what it has put. */
  datatype Walk = Walk(next: seq<nat>, out: seq<Turn>)

  ghost predicate WalkFits(lanes: seq<LaneTurns>, w: Walk) {
    |w.next| == |lanes| && forall l :: 0 <= l < |lanes| ==> w.next[l] <= |lanes[l].turns|
  }

  /** A turn of `previous` at place `i` of lane `l`: the lane's new turns not put before it, then it. */
  ghost function StepTo(lanes: seq<LaneTurns>, before: set<Turn>, w: Walk, l: nat, i: nat): (r: Walk)
    requires WalkFits(lanes, w) && l < |lanes| && i < |lanes[l].turns|
    ensures WalkFits(lanes, r)
  {
    var turns := lanes[l].turns;
    var newer := if w.next[l] <= i then Only(turns[w.next[l]..i], Elements(turns) - before) else [];
    Walk(
      w.next[l := if w.next[l] > i + 1 then w.next[l] else i + 1],
      PutEach(w.out, newer + [turns[i]]))
  }

  /** The walk along the first `n` turns of `previous`: those gone from their lanes are left out. */
  ghost function Walked(lanes: seq<LaneTurns>, previous: seq<Turn>, n: nat): (w: Walk)
    requires n <= |previous|
    ensures WalkFits(lanes, w)
  {
    if n == 0 then Walk(seq(|lanes|, _ => 0), [])
    else
      var w, t := Walked(lanes, previous, n - 1), previous[n - 1];
      if t !in TurnsOf(lanes) then w
      else
        var (l, i) := Place(lanes, t);
        StepTo(lanes, Elements(previous), w, l, i)
  }

  /** The time of the last of the first `n` turns that has one. */
  function TimeBefore(turns: seq<Turn>, n: nat): Time
    requires n <= |turns|
  {
    if n == 0 then Never else if turns[n - 1].at.Some? then At(turns[n - 1].at.value) else TimeBefore(turns, n - 1)
  }

  function Later(a: Time, b: Time): Time {
    if Earlier(a, b) then b else a
  }

  /** The running greatest of the turns' times, from `floor` on. */
  function TailTimes(floor: Time, ts: seq<Turn>): (times: seq<Time>)
    ensures |times| == |ts|
    decreases |ts|
  {
    if ts == [] then []
    else
      var f := Later(floor, AsTime(ts[0].at));
      [f] + TailTimes(f, ts[1..])
  }

  /** A lane's new turns at its end. */
  ghost function Tail(lanes: seq<LaneTurns>, w: Walk, l: nat): seq<Turn>
    requires WalkFits(lanes, w) && l < |lanes|
  {
    Only(lanes[l].turns[w.next[l]..], Elements(lanes[l].turns) - Elements(w.out))
  }

  ghost function Tails(lanes: seq<LaneTurns>, w: Walk): (tails: seq<LaneTurns>)
    requires WalkFits(lanes, w)
    ensures |tails| == |lanes|
    ensures forall l :: 0 <= l < |lanes| ==> tails[l].turns == Tail(lanes, w, l)
  {
    seq(|lanes|, l requires 0 <= l < |lanes| => lanes[l].(turns := Tail(lanes, w, l)))
  }

  ghost function TimesOfTails(lanes: seq<LaneTurns>, w: Walk): (times: seq<seq<Time>>)
    requires WalkFits(lanes, w)
    ensures |times| == |lanes|
    ensures forall l :: 0 <= l < |lanes| ==> times[l] == TailTimes(TimeBefore(lanes[l].turns, w.next[l]), Tail(lanes, w, l))
  {
    seq(|lanes|, l requires 0 <= l < |lanes| => TailTimes(TimeBefore(lanes[l].turns, w.next[l]), Tail(lanes, w, l)))
  }

  /** The lanes' new turns, by their times. */
  ghost function NewTurns(lanes: seq<LaneTurns>, w: Walk): seq<Turn>
    requires WalkFits(lanes, w)
  {
    MergedBy(Tails(lanes, w), TimesOfTails(lanes, w))
  }

  /** `threadOrder`. */
  ghost function OrderOf(lanes: seq<LaneTurns>, previous: seq<Turn>): seq<Turn> {
    var w := Walked(lanes, previous, |previous|);
    PutEach(w.out, NewTurns(lanes, w))
  }

  // ---- What is put ----------------------------------------------------------------

  lemma {:induction false} PutEachHas(out: seq<Turn>, ts: seq<Turn>)
    ensures out <= PutEach(out, ts)
    ensures forall t :: t in PutEach(out, ts) <==> t in out || t in ts
    ensures NoRepeats(out) ==> NoRepeats(PutEach(out, ts))
    decreases |ts|
  {
    if ts != [] {
      PutEachHas(if ts[0] in out then out else out + [ts[0]], ts[1..]);
      assert ts == [ts[0]] + ts[1..];
    }
  }

  lemma {:induction false} PutEachNew(out: seq<Turn>, ts: seq<Turn>)
    requires NoRepeats(ts) && forall t :: t in ts ==> t !in out
    ensures PutEach(out, ts) == out + ts
    decreases |ts|
  {
    if ts != [] {
      assert ts[0] in ts;
      assert forall i :: 0 <= i < |ts[1..]| ==> ts[1..][i] == ts[i + 1];
      PutEachNew(out + [ts[0]], ts[1..]);
    }
  }

  lemma {:induction false} PutEachJoin(out: seq<Turn>, a: seq<Turn>, b: seq<Turn>)
    ensures PutEach(out, a + b) == PutEach(PutEach(out, a), b)
    decreases |a|
  {
    if a == [] {
      assert a + b == b;
    } else {
      assert (a + b)[1..] == a[1..] + b;
      PutEachJoin(if a[0] in out then out else out + [a[0]], a[1..], b);
    }
  }

  /** Putting turns outside `keep` leaves what is in it as it was. */
  lemma {:induction false} PutOthers(out: seq<Turn>, ts: seq<Turn>, keep: set<Turn>)
    requires forall t :: t in ts ==> t !in keep
    ensures Only(PutEach(out, ts), keep) == Only(out, keep)
    decreases |ts|
  {
    if ts != [] {
      assert ts[0] in ts && forall t :: t in ts[1..] ==> t in ts;
      PutOthers(if ts[0] in out then out else out + [ts[0]], ts[1..], keep);
      OnlyJoin(out, [ts[0]], keep);
      OnlyNone([ts[0]], keep);
    }
  }

  // ---- What the walk has put -----------------------------------------------------------

  /** Whether the walk has put `t`: it was in `previous` already, or it is new and its lane is past it. */
  ghost predicate IsPut(lanes: seq<LaneTurns>, previous: seq<Turn>, n: nat, next: seq<nat>, t: Turn)
    requires n <= |previous| && |next| == |lanes|
  {
    && t in TurnsOf(lanes)
    && if t in previous then t in previous[..n] else Place(lanes, t).1 < next[Place(lanes, t).0]
  }

  lemma PlaceIs(lanes: seq<LaneTurns>, l: nat, i: nat)
    requires Apart(lanes) && l < |lanes| && i < |lanes[l].turns|
    ensures lanes[l].turns[i] in TurnsOf(lanes) && Place(lanes, lanes[l].turns[i]) == (l, i)
  {
  }

  /** The new turns of a lane between two places. */
  lemma FreshHas(lanes: seq<LaneTurns>, before: set<Turn>, l: nat, from: nat, to: nat, t: Turn)
    requires Apart(lanes) && l < |lanes| && from <= to <= |lanes[l].turns|
    ensures t in Only(lanes[l].turns[from..to], Elements(lanes[l].turns) - before) <==>
      t in TurnsOf(lanes) && t !in before && Place(lanes, t).0 == l && from <= Place(lanes, t).1 < to
  {
    var s := lanes[l].turns[from..to];
    OnlyHas(s, Elements(lanes[l].turns) - before);
    if t in s {
      var k :| 0 <= k < |s| && s[k] == t;
      PlaceIs(lanes, l, from + k);
    }
    if t in TurnsOf(lanes) && Place(lanes, t).0 == l && from <= Place(lanes, t).1 < to {
      assert s[Place(lanes, t).1 - from] == t;
    }
  }

  /** The walk puts each turn once: those of `previous` walked so far, and the new ones passed. */
  lemma {:induction false} WalkPuts(lanes: seq<LaneTurns>, previous: seq<Turn>, n: nat)
    requires Apart(lanes) && n <= |previous|
    ensures NoRepeats(Walked(lanes, previous, n).out)
    ensures forall t :: t in Walked(lanes, previous, n).out <==> IsPut(lanes, previous, n, Walked(lanes, previous, n).next, t)
  {
    if n > 0 {
      WalkPuts(lanes, previous, n - 1);
      var w, t := Walked(lanes, previous, n - 1), previous[n - 1];
      assert previous[..n] == previous[..n - 1] + [t];
      if t in TurnsOf(lanes) {
        var (l, i) := Place(lanes, t);
        StepPuts(lanes, previous, n, w, l, i);
      }
    }
  }

  lemma StepPuts(lanes: seq<LaneTurns>, previous: seq<Turn>, n: nat, w: Walk, l: nat, i: nat)
    requires Apart(lanes) && 0 < n <= |previous| && WalkFits(lanes, w)
    requires l < |lanes| && i < |lanes[l].turns| && lanes[l].turns[i] == previous[n - 1]
    requires NoRepeats(w.out)
    requires forall t :: t in w.out <==> IsPut(lanes, previous, n - 1, w.next, t)
    ensures NoRepeats(StepTo(lanes, Elements(previous), w, l, i).out)
    ensures forall t :: t in StepTo(lanes, Elements(previous), w, l, i).out <==>
      IsPut(lanes, previous, n, StepTo(lanes, Elements(previous), w, l, i).next, t)
  {
    var turns := lanes[l].turns;
    var newer := if w.next[l] <= i then Only(turns[w.next[l]..i], Elements(turns) - Elements(previous)) else [];
    var r := StepTo(lanes, Elements(previous), w, l, i);
    PutEachHas(w.out, newer + [turns[i]]);
    PlaceIs(lanes, l, i);
    assert previous[..n] == previous[..n - 1] + [turns[i]];
    assert turns[i] in previous;
    forall t
      ensures t in r.out <==> IsPut(lanes, previous, n, r.next, t)
    {
      if w.next[l] <= i {
        FreshHas(lanes, Elements(previous), l, w.next[l], i, t);
      }
    }
  }

  /** The tails are what the walk did not pass, and did not put. */
  lemma TailHas(lanes: seq<LaneTurns>, previous: seq<Turn>, l: nat, t: Turn)
    requires Apart(lanes) && l < |lanes|
    ensures
      var w := Walked(lanes, previous, |previous|);
      t in Tail(lanes, w, l) <==>
        t in TurnsOf(lanes) && t !in previous && Place(lanes, t).0 == l && w.next[l] <= Place(lanes, t).1
  {
    var w := Walked(lanes, previous, |previous|);
    WalkPuts(lanes, previous, |previous|);
    assert previous[..|previous|] == previous;
    var s := lanes[l].turns[w.next[l]..];
    assert s == lanes[l].turns[w.next[l]..|lanes[l].turns|];
    FreshHas(lanes, Elements(w.out), l, w.next[l], |lanes[l].turns|, t);
  }

  lemma TailsApart(lanes: seq<LaneTurns>, w: Walk)
    requires Apart(lanes) && WalkFits(lanes, w)
    ensures Apart(Tails(lanes, w))
  {
    var tails := Tails(lanes, w);
    forall a, i, b, j |
      && 0 <= a < |tails| && 0 <= i < |tails[a].turns|
      && 0 <= b < |tails| && 0 <= j < |tails[b].turns|
      && tails[a].turns[i] == tails[b].turns[j]
      ensures a == b && i == j
    {
      TailIn(lanes, w, a, i);
      TailIn(lanes, w, b, j);
      ApartHere(lanes, a);
      var s := lanes[a].turns[w.next[a]..];
      assert NoRepeats(s);
      OnlyHas(s, Elements(lanes[a].turns) - Elements(w.out));
    }
  }

  lemma TailIn(lanes: seq<LaneTurns>, w: Walk, l: nat, i: nat)
    requires Apart(lanes) && WalkFits(lanes, w) && l < |lanes| && i < |Tail(lanes, w, l)|
    ensures Tail(lanes, w, l)[i] in TurnsOf(lanes) && Place(lanes, Tail(lanes, w, l)[i]).0 == l
  {
    var t := Tail(lanes, w, l)[i];
    assert lanes[l].turns[w.next[l]..] == lanes[l].turns[w.next[l]..|lanes[l].turns|];
    FreshHas(lanes, Elements(w.out), l, w.next[l], |lanes[l].turns|, t);
  }

  lemma {:induction false} TailTimesRise(floor: Time, ts: seq<Turn>)
    ensures NonDecreasing(TailTimes(floor, ts))
    ensures forall i :: 0 <= i < |ts| ==> !Earlier(TailTimes(floor, ts)[i], floor)
    decreases |ts|
  {
    if ts != [] {
      TailTimesRise(Later(floor, AsTime(ts[0].at)), ts[1..]);
    }
  }

  /** The new turns: each lane's tail, in its order. */
  lemma NewTurnsKeepLane(lanes: seq<LaneTurns>, w: Walk, l: nat)
    requires Apart(lanes) && WalkFits(lanes, w) && l < |lanes|
    ensures Only(NewTurns(lanes, w), Elements(Tail(lanes, w, l))) == Tail(lanes, w, l)
  {
    var times := TimesOfTails(lanes, w);
    TailsApart(lanes, w);
    TailTimesRise(TimeBefore(lanes[l].turns, w.next[l]), Tail(lanes, w, l));
    InTimeOrderHasAll(times);
    InTimeOrderOfLane(times, l);
    assert forall i :: 0 <= i < |InTimeOrder(times)| ==> InTimeOrder(times)[i] in InTimeOrder(times);
    TurnsAtOfLane(Tails(lanes, w), InTimeOrder(times), l);
  }

  lemma NewTurnsHave(lanes: seq<LaneTurns>, w: Walk, t: Turn)
    requires Apart(lanes) && WalkFits(lanes, w)
    ensures t in NewTurns(lanes, w) <==> t in TurnsOf(lanes) && t in Tail(lanes, w, Place(lanes, t).0)
  {
    var times := TimesOfTails(lanes, w);
    InTimeOrderHasAll(times);
    if t in NewTurns(lanes, w) {
      var k :| 0 <= k < |NewTurns(lanes, w)| && NewTurns(lanes, w)[k] == t;
      var e := InTimeOrder(times)[k];
      assert e in InTimeOrder(times);
      TailIn(lanes, w, e.lane, e.index);
    }
    if t in TurnsOf(lanes) && t in Tail(lanes, w, Place(lanes, t).0) {
      NewTurnsKeepLane(lanes, w, Place(lanes, t).0);
      OnlyHas(NewTurns(lanes, w), Elements(Tail(lanes, w, Place(lanes, t).0)));
    }
  }

  lemma SlotTwice(s: seq<Slot>, i: nat, j: nat)
    requires i < j < |s| && s[i] == s[j]
    ensures !NoRepeats(OfLane(s, s[i].lane))
  {
    hide OfLane;
    var l := s[i].lane;
    var a, b := s[..j], s[j..];
    assert s == a + b;
    OfLaneJoin(a, b, l);
    OfLaneIsPart(a, l);
    OfLaneIsPart(b, l);
    assert a[i] == s[i] && b[0] == s[j];
    InBoth(OfLane(a, l), OfLane(b, l), s[i]);
  }

  lemma InBoth<T>(a: seq<T>, b: seq<T>, x: T)
    requires x in a && x in b
    ensures !NoRepeats(a + b)
  {
    var p :| 0 <= p < |a| && a[p] == x;
    var q :| 0 <= q < |b| && b[q] == x;
    assert (a + b)[p] == (a + b)[|a| + q];
  }

  lemma NewTurnsOnce(lanes: seq<LaneTurns>, w: Walk)
    requires Apart(lanes) && WalkFits(lanes, w)
    ensures NoRepeats(NewTurns(lanes, w))
  {
    var times := TimesOfTails(lanes, w);
    var s := InTimeOrder(times);
    TailsApart(lanes, w);
    InTimeOrderHasAll(times);
    forall i, j | 0 <= i < j < |s|
      ensures NewTurns(lanes, w)[i] != NewTurns(lanes, w)[j]
    {
      assert s[i] in s && s[j] in s;
      var l := s[i].lane;
      TailTimesRise(TimeBefore(lanes[l].turns, w.next[l]), Tail(lanes, w, l));
      InTimeOrderOfLane(times, l);
      if s[i] == s[j] {
        SlotTwice(s, i, j);
      }
    }
  }

  /** The whole order: what the walk put, then the new turns. */
  lemma OrderIs(lanes: seq<LaneTurns>, previous: seq<Turn>)
    requires Apart(lanes)
    ensures
      var w := Walked(lanes, previous, |previous|);
      && OrderOf(lanes, previous) == w.out + NewTurns(lanes, w)
      && NoRepeats(NewTurns(lanes, w))
      && forall t :: t in NewTurns(lanes, w) ==> t !in previous && t !in w.out
  {
    var w := Walked(lanes, previous, |previous|);
    NewTurnsOnce(lanes, w);
    WalkPuts(lanes, previous, |previous|);
    forall t | t in NewTurns(lanes, w)
      ensures t !in previous && t !in w.out
    {
      NewTurnsHave(lanes, w, t);
      TailHas(lanes, previous, Place(lanes, t).0, t);
    }
    PutEachNew(w.out, NewTurns(lanes, w));
  }

  // ---- What an order is ------------------------------------------------------------------

  /** Every turn of every lane exactly once, and nothing else. */
  lemma OrderHasAll(lanes: seq<LaneTurns>, previous: seq<Turn>)
    requires Apart(lanes)
    ensures Elements(OrderOf(lanes, previous)) == TurnsOf(lanes)
    ensures NoRepeats(OrderOf(lanes, previous))
  {
    hide Walked, OrderOf, NewTurns, Tail;
    var w := Walked(lanes, previous, |previous|);
    OrderIs(lanes, previous);
    WalkPuts(lanes, previous, |previous|);
    assert previous[..|previous|] == previous;
    forall t
      ensures t in OrderOf(lanes, previous) <==> t in TurnsOf(lanes)
    {
      NewTurnsHave(lanes, w, t);
      if t in TurnsOf(lanes) {
        TailHas(lanes, previous, Place(lanes, t).0, t);
      }
    }
    assert Elements(OrderOf(lanes, previous)) == TurnsOf(lanes) by {
      assert forall t :: t in Elements(OrderOf(lanes, previous)) <==> t in OrderOf(lanes, previous);
    }
    JoinOnce(w.out, NewTurns(lanes, w));
  }

  lemma JoinOnce<T>(a: seq<T>, b: seq<T>)
    requires NoRepeats(a) && NoRepeats(b) && forall t :: t in b ==> t !in a
    ensures NoRepeats(a + b)
  {
    forall i, j | 0 <= i < j < |a + b|
      ensures (a + b)[i] != (a + b)[j]
    {
      if i < |a| <= j {
        assert b[j - |a|] in b && a[i] in a;
      }
    }
  }

  /** What was shown and is still there keeps its order: the survivors are never moved. */
  lemma SurvivorsStay(lanes: seq<LaneTurns>, previous: seq<Turn>)
    requires Apart(lanes) && NoRepeats(previous)
    ensures Only(OrderOf(lanes, previous), Elements(previous)) == Only(previous, TurnsOf(lanes))
  {
    var w, before := Walked(lanes, previous, |previous|), Elements(previous);
    OrderIs(lanes, previous);
    WalkKeepsSurvivors(lanes, previous, |previous|);
    assert previous[..|previous|] == previous;
    OnlyJoin(w.out, NewTurns(lanes, w), before);
    OnlyNone(NewTurns(lanes, w), before);
  }

  lemma {:induction false} WalkKeepsSurvivors(lanes: seq<LaneTurns>, previous: seq<Turn>, n: nat)
    requires Apart(lanes) && NoRepeats(previous) && n <= |previous|
    ensures Only(Walked(lanes, previous, n).out, Elements(previous)) == Only(previous[..n], TurnsOf(lanes))
  {
    if n > 0 {
      WalkKeepsSurvivors(lanes, previous, n - 1);
      var w, t := Walked(lanes, previous, n - 1), previous[n - 1];
      assert previous[..n] == previous[..n - 1] + [t];
      OnlyJoin(previous[..n - 1], [t], TurnsOf(lanes));
      if t in TurnsOf(lanes) {
        var (l, i) := Place(lanes, t);
        WalkPuts(lanes, previous, n - 1);
        assert t in previous && t !in previous[..n - 1];
        StepKeepsSurvivors(lanes, Elements(previous), w, l, i);
      }
    }
  }

  lemma StepKeepsSurvivors(lanes: seq<LaneTurns>, before: set<Turn>, w: Walk, l: nat, i: nat)
    requires WalkFits(lanes, w) && l < |lanes| && i < |lanes[l].turns|
    requires lanes[l].turns[i] in before && lanes[l].turns[i] !in w.out
    ensures Only(StepTo(lanes, before, w, l, i).out, before) == Only(w.out, before) + [lanes[l].turns[i]]
  {
    var turns := lanes[l].turns;
    var newer := if w.next[l] <= i then Only(turns[w.next[l]..i], Elements(turns) - before) else [];
    if w.next[l] <= i {
      OnlyHas(turns[w.next[l]..i], Elements(turns) - before);
    }
    PutEachJoin(w.out, newer, [turns[i]]);
    PutEachHas(w.out, newer);
    PutOthers(w.out, newer, before);
    var mid := PutEach(w.out, newer);
    assert PutEach(mid, [turns[i]]) == mid + [turns[i]];
    OnlyJoin(mid, [turns[i]], before);
  }

  // ---- A lane's own order ---------------------------------------------------------------------

  /** Whether the order had agrees with a lane: the turns they share are in the same order in both. */
  ghost predicate Agrees(previous: seq<Turn>, lane: seq<Turn>) {
    Only(previous, Elements(lane)) == Only(lane, Elements(previous))
  }

  /** How the walk stands with a lane the order agrees with: all of the lane it passed is put, in the lane's order. */
  ghost predicate InStep(lanes: seq<LaneTurns>, previous: seq<Turn>, n: nat, l: nat)
    requires n <= |previous| && l < |lanes|
  {
    var w, lane := Walked(lanes, previous, n), lanes[l].turns;
    && Only(w.out, Elements(lane)) == lane[..w.next[l]]
    && Only(previous[..n], Elements(lane)) == Only(lane[..w.next[l]], Elements(previous))
  }

  /** What the order and a lane agree on next: the lane's next turn of `previous`, with only new ones before it. */
  lemma NextShared<T>(previous: seq<T>, lane: seq<T>, n: nat, m: nat, i: nat)
    requires NoRepeats(lane) && 0 < n <= |previous| && m <= |lane| && i < |lane| && previous[n - 1] == lane[i]
    requires Only(previous, Elements(lane)) == Only(lane, Elements(previous))
    requires Only(previous[..n - 1], Elements(lane)) == Only(lane[..m], Elements(previous))
    ensures m <= i
    ensures forall k :: m <= k < i ==> lane[k] !in previous
  {
    hide Only, NoRepeats, Elements;
    RestBegins(previous, lane, n, m, i);
    var j := FirstKept(lane[m..], Elements(previous));
    SamePlace(lane, m + j, i);
    forall k | m <= k < i
      ensures lane[k] !in previous
    {
      assert lane[m..][k - m] == lane[k];
      assert lane[k] !in Elements(previous);
      NotElement(previous, lane[k]);
    }
  }

  lemma NotElement<T>(s: seq<T>, x: T)
    ensures x in Elements(s) <==> x in s
  {
  }

  lemma SamePlace<T>(s: seq<T>, i: nat, j: nat)
    requires NoRepeats(s) && i < |s| && j < |s| && s[i] == s[j]
    ensures i == j
  {
  }

  lemma RestBegins<T>(previous: seq<T>, lane: seq<T>, n: nat, m: nat, i: nat)
    requires 0 < n <= |previous| && m <= |lane| && i < |lane| && previous[n - 1] == lane[i]
    requires Only(previous, Elements(lane)) == Only(lane, Elements(previous))
    requires Only(previous[..n - 1], Elements(lane)) == Only(lane[..m], Elements(previous))
    ensures Only(lane[m..], Elements(previous)) != [] && Only(lane[m..], Elements(previous))[0] == lane[i]
  {
    hide Only;
    var before, t := Elements(previous), previous[n - 1];
    JoinAt(previous, n, Elements(lane));
    assert lane == lane[..m] + lane[m..];
    OnlyJoin(lane[..m], lane[m..], before);
    Cancel(Only(lane[..m], before), Only(lane[m..], before), [t] + Only(previous[n..], Elements(lane)));
  }

  lemma Cancel<T>(a: seq<T>, b: seq<T>, c: seq<T>)
    requires a + b == a + c
    ensures b == c
  {
    assert b == (a + b)[|a|..] && c == (a + c)[|a|..];
  }

  lemma JoinAt<T>(s: seq<T>, n: nat, keep: set<T>)
    requires 0 < n <= |s| && s[n - 1] in keep
    ensures Only(s, keep) == Only(s[..n - 1], keep) + ([s[n - 1]] + Only(s[n..], keep))
  {
    assert s == s[..n - 1] + ([s[n - 1]] + s[n..]);
    OnlyJoin(s[..n - 1], [s[n - 1]] + s[n..], keep);
    OnlyJoin([s[n - 1]], s[n..], keep);
  }

  /** One step in a lane the order agrees with: the lane from where the walk was up to the turn, whole. */
  lemma StepInLane(lanes: seq<LaneTurns>, previous: seq<Turn>, n: nat, l: nat, i: nat)
    requires Apart(lanes) && NoRepeats(previous) && 0 < n <= |previous|
    requires l < |lanes| && i < |lanes[l].turns| && previous[n - 1] == lanes[l].turns[i]
    requires Agrees(previous, lanes[l].turns) && InStep(lanes, previous, n - 1, l)
    ensures StepsWhole(lanes, previous, n, l, i)
  {
    hide Only;
    var lane, before := lanes[l].turns, Elements(previous);
    var w, t := Walked(lanes, previous, n - 1), previous[n - 1];
    var m := w.next[l];
    PlaceIs(lanes, l, i);
    ApartHere(lanes, l);
    NextShared(previous, lane, n, m, i);
    WalkPuts(lanes, previous, n - 1);
    WholeIsNew(lanes, previous, n - 1, w, l, i);
    assert lane[m..i] + [t] == lane[m..i + 1];
  }

  lemma WholeIsNew(lanes: seq<LaneTurns>, previous: seq<Turn>, n: nat, w: Walk, l: nat, i: nat)
    requires Apart(lanes) && NoRepeats(previous) && n < |previous| && WalkFits(lanes, w)
    requires l < |lanes| && w.next[l] <= i < |lanes[l].turns| && previous[n] == lanes[l].turns[i]
    requires forall t :: t in w.out <==> IsPut(lanes, previous, n, w.next, t)
    requires forall k :: w.next[l] <= k < i ==> lanes[l].turns[k] !in previous
    ensures Only(lanes[l].turns[w.next[l]..i], Elements(lanes[l].turns) - Elements(previous)) == lanes[l].turns[w.next[l]..i]
    ensures PutEach(w.out, lanes[l].turns[w.next[l]..i + 1]) == w.out + lanes[l].turns[w.next[l]..i + 1]
  {
    var lane, m := lanes[l].turns, w.next[l];
    OnlyAll(lane[m..i], Elements(lane) - Elements(previous));
    forall x | x in lane[m..i + 1]
      ensures x !in w.out
    {
      var k :| 0 <= k < i + 1 - m && lane[m..i + 1][k] == x;
      PlaceIs(lanes, l, m + k);
    }
    ApartHere(lanes, l);
    PutEachNew(w.out, lane[m..i + 1]);
  }

  ghost predicate StepsWhole(lanes: seq<LaneTurns>, previous: seq<Turn>, n: nat, l: nat, i: nat)
    requires 0 < n <= |previous| && l < |lanes| && i < |lanes[l].turns|
  {
    var w, w' := Walked(lanes, previous, n - 1), Walked(lanes, previous, n);
    && w.next[l] <= i
    && w'.next == w.next[l := i + 1]
    && w'.out == w.out + lanes[l].turns[w.next[l]..i + 1]
    && forall k :: w.next[l] <= k < i ==> lanes[l].turns[k] !in previous
  }

  lemma {:induction false} WalkInStep(lanes: seq<LaneTurns>, previous: seq<Turn>, n: nat, l: nat)
    requires Apart(lanes) && NoRepeats(previous) && n <= |previous| && l < |lanes|
    requires Agrees(previous, lanes[l].turns)
    ensures InStep(lanes, previous, n, l)
  {
    if n > 0 {
      WalkInStep(lanes, previous, n - 1, l);
      var lane, t := lanes[l].turns, previous[n - 1];
      var w := Walked(lanes, previous, n - 1);
      assert previous[..n] == previous[..n - 1] + [t];
      OnlyJoin(previous[..n - 1], [t], Elements(lane));
      if t in lane {
        var i :| 0 <= i < |lane| && lane[i] == t;
        StepInLane(lanes, previous, n, l, i);
        InStepAfter(lanes, previous, n, l, i);
      } else if t in TurnsOf(lanes) {
        var (k, i) := Place(lanes, t);
        StepElsewhere(lanes, Elements(previous), w, k, i, l);
      }
    }
  }

  lemma InStepAfter(lanes: seq<LaneTurns>, previous: seq<Turn>, n: nat, l: nat, i: nat)
    requires Apart(lanes) && 0 < n <= |previous| && l < |lanes| && i < |lanes[l].turns| && previous[n - 1] == lanes[l].turns[i]
    requires InStep(lanes, previous, n - 1, l) && StepsWhole(lanes, previous, n, l, i)
    ensures InStep(lanes, previous, n, l)
  {
    hide Walked;
    var w := Walked(lanes, previous, n - 1);
    SharedAfter(previous, lanes[l].turns, n, w.next[l], i);
    PutAfter(w.out, lanes[l].turns, w.next[l], i);
  }

  lemma SharedAfter<T>(previous: seq<T>, lane: seq<T>, n: nat, m: nat, i: nat)
    requires 0 < n <= |previous| && m <= i < |lane| && previous[n - 1] == lane[i]
    requires forall k :: m <= k < i ==> lane[k] !in previous
    requires Only(previous[..n - 1], Elements(lane)) == Only(lane[..m], Elements(previous))
    ensures Only(previous[..n], Elements(lane)) == Only(lane[..i + 1], Elements(previous))
  {
    var t, before := previous[n - 1], Elements(previous);
    assert previous[..n] == previous[..n - 1] + [t];
    OnlyJoin(previous[..n - 1], [t], Elements(lane));
    assert lane[..i + 1] == lane[..m] + (lane[m..i] + [t]);
    OnlyJoin(lane[..m], lane[m..i] + [t], before);
    OnlyJoin(lane[m..i], [t], before);
    OnlyNone(lane[m..i], before);
    OnlyAll([t], before);
    OnlyAll([t], Elements(lane));
  }

  lemma PutAfter<T>(out: seq<T>, lane: seq<T>, m: nat, i: nat)
    requires m <= i < |lane| && Only(out, Elements(lane)) == lane[..m]
    ensures Only(out + lane[m..i + 1], Elements(lane)) == lane[..i + 1]
  {
    hide Only;
    var put := lane[m..i + 1];
    OnlyJoin(out, put, Elements(lane));
    forall t | t in put
      ensures t in Elements(lane)
    {
    }
    OnlyAll(put, Elements(lane));
    assert lane[..i + 1] == lane[..m] + put;
  }

  /** A step in another lane puts nothing of this one. */
  lemma StepElsewhere(lanes: seq<LaneTurns>, before: set<Turn>, w: Walk, k: nat, i: nat, l: nat)
    requires Apart(lanes) && WalkFits(lanes, w) && k < |lanes| && i < |lanes[k].turns| && l < |lanes| && k != l
    ensures StepTo(lanes, before, w, k, i).next[l] == w.next[l]
    ensures Only(StepTo(lanes, before, w, k, i).out, Elements(lanes[l].turns)) == Only(w.out, Elements(lanes[l].turns))
  {
    var turns := lanes[k].turns;
    var newer := if w.next[k] <= i then Only(turns[w.next[k]..i], Elements(turns) - before) else [];
    forall t | t in newer + [turns[i]]
      ensures t !in Elements(lanes[l].turns)
    {
      if t in newer {
        OnlyHasOne(turns[w.next[k]..i], Elements(turns) - before, t);
      }
      var j :| 0 <= j < |turns| && turns[j] == t;
    }
    PutOthers(w.out, newer + [turns[i]], Elements(lanes[l].turns));
  }

  /** A lane's new turns at its end, when the order agrees with it: all of it the walk did not pass. */
  lemma TailIsRest(lanes: seq<LaneTurns>, previous: seq<Turn>, l: nat)
    requires Apart(lanes) && NoRepeats(previous) && l < |lanes| && Agrees(previous, lanes[l].turns)
    ensures
      var w := Walked(lanes, previous, |previous|);
      && Tail(lanes, w, l) == lanes[l].turns[w.next[l]..]
      && forall k :: w.next[l] <= k < |lanes[l].turns| ==> lanes[l].turns[k] !in previous
  {
    hide Walked;
    var lane, n := lanes[l].turns, |previous|;
    var w := Walked(lanes, previous, n);
    WalkInStep(lanes, previous, n, l);
    assert previous[..n] == previous;
    RestIsNew(previous, lane, w.next[l]);
    WalkPuts(lanes, previous, n);
    forall k | w.next[l] <= k < |lane|
      ensures lane[k] !in w.out
    {
      PlaceIs(lanes, l, k);
    }
    OnlyAll(lane[w.next[l]..], Elements(lane) - Elements(w.out));
  }

  lemma RestIsNew<T>(previous: seq<T>, lane: seq<T>, m: nat)
    requires m <= |lane| && Only(lane, Elements(previous)) == Only(lane[..m], Elements(previous))
    ensures forall k :: m <= k < |lane| ==> lane[k] !in previous
  {
    hide Only;
    assert lane == lane[..m] + lane[m..];
    OnlyJoin(lane[..m], lane[m..], Elements(previous));
    assert Only(lane[m..], Elements(previous)) == [];
    forall k | m <= k < |lane|
      ensures lane[k] !in previous
    {
      OnlyHasOne(lane[m..], Elements(previous), lane[k]);
      assert lane[m..][k - m] == lane[k];
    }
  }

  /** A lane keeps its own order in the conversation's exactly when the order had agreed with it. */
  lemma LaneKept(lanes: seq<LaneTurns>, previous: seq<Turn>, l: nat)
    requires Apart(lanes) && NoRepeats(previous) && l < |lanes|
    ensures Agrees(previous, lanes[l].turns) <==> Only(OrderOf(lanes, previous), Elements(lanes[l].turns)) == lanes[l].turns
  {
    var lane := lanes[l].turns;
    if Agrees(previous, lane) {
      LaneKeptIf(lanes, previous, l);
    }
    if Only(OrderOf(lanes, previous), Elements(lane)) == lane {
      var o, before := OrderOf(lanes, previous), Elements(previous);
      SurvivorsStay(lanes, previous);
      OnlyTwice(o, Elements(lane), before);
      OnlyTwice(o, before, Elements(lane));
      assert Elements(lane) * before == before * Elements(lane);
      OnlyTwice(previous, TurnsOf(lanes), Elements(lane));
      assert TurnsOf(lanes) * Elements(lane) == Elements(lane);
    }
  }

  lemma LaneKeptIf(lanes: seq<LaneTurns>, previous: seq<Turn>, l: nat)
    requires Apart(lanes) && NoRepeats(previous) && l < |lanes| && Agrees(previous, lanes[l].turns)
    ensures Only(OrderOf(lanes, previous), Elements(lanes[l].turns)) == lanes[l].turns
  {
    var lane, w := lanes[l].turns, Walked(lanes, previous, |previous|);
    OrderIs(lanes, previous);
    WalkInStep(lanes, previous, |previous|, l);
    TailIsRest(lanes, previous, l);
    NewTurnsKeepLane(lanes, w, l);
    OnlyJoin(w.out, NewTurns(lanes, w), Elements(lane));
    NewOfLane(lanes, w, l);
    hide Walked, Only, Apart, InStep, Tail, NewTurns, Agrees, NoRepeats;
    OnlySame(NewTurns(lanes, w), Elements(lane), Elements(Tail(lanes, w, l)));
    assert lane == lane[..w.next[l]] + lane[w.next[l]..];
  }

  lemma NewOfLane(lanes: seq<LaneTurns>, w: Walk, l: nat)
    requires Apart(lanes) && WalkFits(lanes, w) && l < |lanes|
    ensures forall t :: t in NewTurns(lanes, w) ==> (t in Elements(lanes[l].turns) <==> t in Elements(Tail(lanes, w, l)))
  {
    hide Apart, NewTurns, Only;
    var turns := lanes[l].turns;
    forall t | t in NewTurns(lanes, w)
      ensures t in Elements(turns) <==> t in Elements(Tail(lanes, w, l))
    {
      NewTurnsHave(lanes, w, t);
      OnlyHasOne(turns[w.next[l]..], Elements(turns) - Elements(w.out), t);
      if t in lanes[l].turns {
        var i :| 0 <= i < |lanes[l].turns| && lanes[l].turns[i] == t;
        PlaceIs(lanes, l, i);
      }
    }
  }

  // ---- What changes where ------------------------------------------------------------------------

  /** `a` is directly before `b`. */
  ghost predicate Adjacent<T>(s: seq<T>, a: T, b: T) {
    exists p :: 0 <= p < |s| - 1 && s[p] == a && s[p + 1] == b
  }

  /** `a` is somewhere before `b`. */
  ghost predicate Before<T>(s: seq<T>, a: T, b: T) {
    exists p, q :: 0 <= p < q < |s| && s[p] == a && s[q] == b
  }

  /** The turn after place `k` in its lane is new, or was shown before every other one after it there. */
  ghost predicate NextIsFirst(previous: seq<Turn>, lane: seq<Turn>, k: nat)
    requires k + 1 < |lane|
  {
    lane[k + 1] !in previous || forall j :: k + 1 < j < |lane| && lane[j] in previous ==> Before(previous, lane[k + 1], lane[j])
  }

  /**
   * A new turn with one shown after it in its lane: in the order it is directly
   * before the turn next to it in the lane exactly when that is new too, or was
   * shown before all others after it.
   */
  lemma NewBeforeItsSuccessor(lanes: seq<LaneTurns>, previous: seq<Turn>, l: nat, k: nat)
    requires Apart(lanes) && NoRepeats(previous) && l < |lanes| && k + 1 < |lanes[l].turns| && lanes[l].turns[k] !in previous
    requires exists j :: k < j < |lanes[l].turns| && lanes[l].turns[j] in previous
    ensures Adjacent(OrderOf(lanes, previous), lanes[l].turns[k], lanes[l].turns[k + 1]) <==> NextIsFirst(previous, lanes[l].turns, k)
  {
    hide OrderOf, Apart, NoRepeats, Walked, NextIsFirst, Only, Adjacent;
    var lane := lanes[l].turns;
    var n, i := FirstPast(previous, lane, k);
    ApartHere(lanes, l);
    FirstIsNext(previous, lane, k, n, i);
    var a, rest := PutPast(lanes, previous, l, k, n, i);
    var o := OrderOf(lanes, previous);
    OrderIs(lanes, previous);
    WalkGrows(lanes, previous, n, |previous|);
    OrderHasAll(lanes, previous);
    assert o == a + [lane[k]] + (rest + o[|a| + 1 + |rest|..]);
    OnlyNeighbour(a, lane[k], rest + o[|a| + 1 + |rest|..], lane[k + 1]);
  }

  /** What was shown first of all that comes after place `k` in the lane. */
  lemma FirstPast(previous: seq<Turn>, lane: seq<Turn>, k: nat) returns (n: nat, i: nat)
    requires exists j :: k < j < |lane| && lane[j] in previous
    ensures n < |previous| && k < i < |lane| && previous[n] == lane[i]
    ensures forall j :: k < j < |lane| ==> lane[j] !in previous[..n]
  {
    var later := Elements(lane[k + 1..]);
    var j :| k < j < |lane| && lane[j] in previous;
    assert lane[k + 1..][j - k - 1] == lane[j];
    OnlyHasOne(previous, later, lane[j]);
    n := FirstKept(previous, later);
    var m :| 0 <= m < |lane[k + 1..]| && lane[k + 1..][m] == previous[n];
    i := k + 1 + m;
    forall j | k < j < |lane|
      ensures lane[j] !in previous[..n]
    {
      assert lane[k + 1..][j - k - 1] == lane[j];
    }
  }

  lemma FirstIsNext(previous: seq<Turn>, lane: seq<Turn>, k: nat, n: nat, i: nat)
    requires NoRepeats(previous) && NoRepeats(lane) && n < |previous| && k < i < |lane| && previous[n] == lane[i]
    requires forall j :: k < j < |lane| ==> lane[j] !in previous[..n]
    ensures NextIsFirst(previous, lane, k) <==> lane[k + 1] !in previous || i == k + 1
  {
    if i == k + 1 {
      forall j | k + 1 < j < |lane| && lane[j] in previous
        ensures Before(previous, lane[k + 1], lane[j])
      {
        var q :| 0 <= q < |previous| && previous[q] == lane[j];
        assert forall p :: 0 <= p < n ==> previous[..n][p] == previous[p];
        assert n < q;
      }
    } else {
      NotBefore(previous, lane[k + 1], lane[i], n);
    }
  }

  lemma NotBefore<T>(s: seq<T>, a: T, b: T, n: nat)
    requires NoRepeats(s) && n < |s| && s[n] == b && a !in s[..n]
    ensures !Before(s, a, b)
  {
    forall p, q | 0 <= p < q < |s| && s[q] == b
      ensures s[p] != a
    {
      assert q == n;
      assert s[..n][p] == s[p];
    }
  }

  /** Until one after place `k` is walked, the walk is not past the new turn there. */
  lemma {:induction false} NotPast(lanes: seq<LaneTurns>, previous: seq<Turn>, n: nat, l: nat, k: nat)
    requires Apart(lanes) && n <= |previous| && l < |lanes| && k < |lanes[l].turns| && lanes[l].turns[k] !in previous
    requires forall j :: k < j < |lanes[l].turns| ==> lanes[l].turns[j] !in previous[..n]
    ensures Walked(lanes, previous, n).next[l] <= k
  {
    hide Apart, PutEach, Only;
    if n > 0 {
      var t := previous[n - 1];
      assert previous[..n] == previous[..n - 1] + [t];
      NotPast(lanes, previous, n - 1, l, k);
      assert t in previous && t in previous[..n];
    }
  }

  /** The step that passes it puts it, then the new turns up to the one walked, then that. */
  lemma PutPast(lanes: seq<LaneTurns>, previous: seq<Turn>, l: nat, k: nat, n: nat, i: nat) returns (a: seq<Turn>, rest: seq<Turn>)
    requires Apart(lanes) && NoRepeats(previous) && l < |lanes| && k < i < |lanes[l].turns| && lanes[l].turns[k] !in previous
    requires n < |previous| && previous[n] == lanes[l].turns[i]
    requires forall j :: k < j < |lanes[l].turns| ==> lanes[l].turns[j] !in previous[..n]
    ensures Walked(lanes, previous, n + 1).out == a + [lanes[l].turns[k]] + rest
    ensures rest != [] && (rest[0] == lanes[l].turns[k + 1] <==> lanes[l].turns[k + 1] !in previous || i == k + 1)
  {
    hide Apart, Walked, Only, NoRepeats;
    var lane, w := lanes[l].turns, Walked(lanes, previous, n);
    var keep, m := Elements(lane) - Elements(previous), w.next[l];
    NotPast(lanes, previous, n, l, k);
    PlaceIs(lanes, l, i);
    WalkGoesOn(lanes, previous, n + 1);
    NewPutAfter(lanes, previous, l, n, i);
    OnlyAround(lane, keep, m, k, i);
    a := w.out + Only(lane[m..k], keep);
    rest := Only(lane[k + 1..i], keep) + [lane[i]];
    assert w.out + (Only(lane[m..k], keep) + [lane[k]] + Only(lane[k + 1..i], keep) + [lane[i]]) == a + [lane[k]] + rest;
    ApartHere(lanes, l);
    StartOfRest(previous, lane, keep, k, i);
  }

  /** New turns not passed yet are put after all that was. */
  lemma NewPutAfter(lanes: seq<LaneTurns>, previous: seq<Turn>, l: nat, n: nat, i: nat)
    requires Apart(lanes) && NoRepeats(previous) && l < |lanes| && i < |lanes[l].turns| && n < |previous| && previous[n] == lanes[l].turns[i]
    requires Walked(lanes, previous, n).next[l] <= i
    ensures
      var w, turns := Walked(lanes, previous, n), lanes[l].turns;
      StepTo(lanes, Elements(previous), w, l, i).out == w.out + (Only(turns[w.next[l]..i], Elements(turns) - Elements(previous)) + [turns[i]])
  {
    hide Apart, Walked, Only, PutEach, NoRepeats;
    var w, turns := Walked(lanes, previous, n), lanes[l].turns;
    var newer := Only(turns[w.next[l]..i], Elements(turns) - Elements(previous));
    WalkPuts(lanes, previous, n);
    NotYetPut(lanes, previous, n + 1);
    ApartHere(lanes, l);
    forall t | t in newer
      ensures t !in w.out && t != turns[i]
    {
      FreshHas(lanes, Elements(previous), l, w.next[l], i, t);
      assert turns[i] in previous;
    }
    NewerOnce(turns, w.next[l], i, Elements(turns) - Elements(previous));
    PutEachNew(w.out, newer + [turns[i]]);
  }

  lemma NewerOnce<T>(turns: seq<T>, m: nat, i: nat, keep: set<T>)
    requires NoRepeats(turns) && m <= i < |turns|
    ensures NoRepeats(Only(turns[m..i], keep) + [turns[i]])
  {
    hide Only;
    var s := turns[m..i];
    assert forall a :: 0 <= a < |s| ==> s[a] == turns[m + a];
    OnlyHas(s, keep);
    var r := Only(s, keep);
    forall a | 0 <= a < |r|
      ensures r[a] != turns[i]
    {
      OnlyHasOne(s, keep, r[a]);
      var b :| 0 <= b < |s| && s[b] == r[a];
      assert turns[m + b] == r[a];
    }
  }

  lemma OnlyAround<T>(s: seq<T>, keep: set<T>, m: nat, k: nat, i: nat)
    requires m <= k < i <= |s| && s[k] in keep
    ensures Only(s[m..i], keep) == Only(s[m..k], keep) + [s[k]] + Only(s[k + 1..i], keep)
  {
    hide Only;
    assert s[m..i] == s[m..k] + [s[k]] + s[k + 1..i];
    OnlyJoin(s[m..k] + [s[k]], s[k + 1..i], keep);
    OnlyJoin(s[m..k], [s[k]], keep);
    OnlyAll([s[k]], keep);
  }

  lemma StartOfRest(previous: seq<Turn>, lane: seq<Turn>, keep: set<Turn>, k: nat, i: nat)
    requires NoRepeats(lane) && keep == Elements(lane) - Elements(previous) && k < i < |lane| && lane[i] in previous
    ensures
      var rest := Only(lane[k + 1..i], keep) + [lane[i]];
      rest[0] == lane[k + 1] <==> lane[k + 1] !in previous || i == k + 1
  {
    var between, rest := lane[k + 1..i], Only(lane[k + 1..i], keep) + [lane[i]];
    if i > k + 1 {
      assert between[0] == lane[k + 1];
      if lane[k + 1] in previous {
        OnlyHas(between, keep);
        assert rest[0] == lane[i] || rest[0] in Only(between, keep);
      }
    }
  }

  lemma {:induction false} WalkGrows(lanes: seq<LaneTurns>, previous: seq<Turn>, m: nat, n: nat)
    requires m < n <= |previous|
    ensures Walked(lanes, previous, m + 1).out <= Walked(lanes, previous, n).out
  {
    hide PutEach, Only;
    if m + 1 < n {
      WalkGrows(lanes, previous, m, n - 1);
      var w, t := Walked(lanes, previous, n - 1), previous[n - 1];
      if t in TurnsOf(lanes) {
        StepGrows(lanes, Elements(previous), w, Place(lanes, t).0, Place(lanes, t).1);
      }
    }
  }

  lemma OnlyNeighbour<T>(a: seq<T>, x: T, rest: seq<T>, y: T)
    requires NoRepeats(a + [x] + rest) && rest != []
    ensures Adjacent(a + [x] + rest, x, y) <==> rest[0] == y
  {
    var s := a + [x] + rest;
    assert s[|a|] == x && s[|a| + 1] == rest[0];
  }

  lemma StepGrows(lanes: seq<LaneTurns>, before: set<Turn>, w: Walk, l: nat, i: nat)
    requires WalkFits(lanes, w) && l < |lanes| && i < |lanes[l].turns|
    ensures w.out <= StepTo(lanes, before, w, l, i).out
  {
    var turns := lanes[l].turns;
    PutEachHas(w.out, (if w.next[l] <= i then Only(turns[w.next[l]..i], Elements(turns) - before) else []) + [turns[i]]);
  }

  /** Nothing but new turns at the lanes' ends: all that was shown is still there, with nothing new before it in its lane. */
  ghost predicate OnlyAppended(lanes: seq<LaneTurns>, previous: seq<Turn>) {
    && (forall t :: t in previous ==> t in TurnsOf(lanes))
    && forall l, k, j :: 0 <= l < |lanes| && 0 <= k < j < |lanes[l].turns| && lanes[l].turns[j] in previous ==> lanes[l].turns[k] in previous
  }

  /** What was shown is the start of what is shown now exactly when turns were only added at the lanes' ends. */
  lemma AppendingKeepsThePrefix(lanes: seq<LaneTurns>, previous: seq<Turn>)
    requires Apart(lanes) && NoRepeats(previous)
    ensures OnlyAppended(lanes, previous) <==> previous <= OrderOf(lanes, previous)
  {
    hide OrderOf, Apart, NoRepeats, Walked;
    OrderIs(lanes, previous);
    if OnlyAppended(lanes, previous) {
      WalkCopies(lanes, previous, |previous|);
      assert previous[..|previous|] == previous;
    }
    if previous <= OrderOf(lanes, previous) {
      OrderHasAll(lanes, previous);
      assert forall t :: t in OrderOf(lanes, previous) <==> t in Elements(OrderOf(lanes, previous));
      assert forall t :: t in previous ==> t in OrderOf(lanes, previous);
      WalkIsPrevious(lanes, previous);
      forall l, k, j | 0 <= l < |lanes| && 0 <= k < j < |lanes[l].turns| && lanes[l].turns[j] in previous
        ensures lanes[l].turns[k] in previous
      {
        PassedIsPut(lanes, previous, l, k, j);
      }
    }
  }

  /** With what was shown as a start, the walk puts that and no more. */
  lemma WalkIsPrevious(lanes: seq<LaneTurns>, previous: seq<Turn>)
    requires Apart(lanes) && NoRepeats(previous) && previous <= OrderOf(lanes, previous)
    requires forall t :: t in previous ==> t in TurnsOf(lanes)
    ensures Walked(lanes, previous, |previous|).out == previous
  {
    hide OrderOf, Apart, Walked, NewTurns;
    var out, new_ := Walked(lanes, previous, |previous|).out, NewTurns(lanes, Walked(lanes, previous, |previous|));
    OrderIs(lanes, previous);
    WalkPuts(lanes, previous, |previous|);
    WalkEndsInShown(lanes, previous, |previous|);
    StartOfBoth(previous, out, new_);
  }

  /** A start of `out + rest` that nothing of `rest` is in, and that has the last of `out`, is `out`. */
  lemma StartOfBoth<T>(previous: seq<T>, out: seq<T>, rest: seq<T>)
    requires previous <= out + rest && NoRepeats(out) && forall t :: t in rest ==> t !in previous
    requires out != [] ==> out[|out| - 1] in previous
    ensures previous == out
  {
    assert rest != [] ==> (out + rest)[|out|] == rest[0] && rest[0] in rest;
    if |previous| > |out| {
      assert false;
    }
    if |previous| < |out| {
      assert false;
    }
  }

  /** Each step of the walk ends with a turn that was shown. */
  lemma {:induction false} WalkEndsInShown(lanes: seq<LaneTurns>, previous: seq<Turn>, n: nat)
    requires Apart(lanes) && NoRepeats(previous) && n <= |previous|
    ensures
      var out := Walked(lanes, previous, n).out;
      out != [] ==> out[|out| - 1] in previous
  {
    hide Apart, PutEach, Only, NoRepeats;
    if n > 0 {
      WalkEndsInShown(lanes, previous, n - 1);
      var w, t := Walked(lanes, previous, n - 1), previous[n - 1];
      if t in TurnsOf(lanes) {
        var (l, i) := Place(lanes, t);
        NotYetPut(lanes, previous, n);
        StepEnds(lanes, Elements(previous), w, l, i);
      }
    }
  }

  lemma NotYetPut(lanes: seq<LaneTurns>, previous: seq<Turn>, n: nat)
    requires Apart(lanes) && NoRepeats(previous) && 0 < n <= |previous|
    ensures previous[n - 1] !in Walked(lanes, previous, n - 1).out
  {
    hide Apart, Walked;
    WalkPuts(lanes, previous, n - 1);
    assert previous[n - 1] in previous && previous[n - 1] !in previous[..n - 1];
  }

  lemma StepEnds(lanes: seq<LaneTurns>, before: set<Turn>, w: Walk, l: nat, i: nat)
    requires WalkFits(lanes, w) && l < |lanes| && i < |lanes[l].turns| && lanes[l].turns[i] in before && lanes[l].turns[i] !in w.out
    ensures
      var out := StepTo(lanes, before, w, l, i).out;
      out != [] && out[|out| - 1] == lanes[l].turns[i]
  {
    hide PutEach, Only;
    var turns := lanes[l].turns;
    var newer := if w.next[l] <= i then Only(turns[w.next[l]..i], Elements(turns) - before) else [];
    PutEachJoin(w.out, newer, [turns[i]]);
    PutEachHas(w.out, newer);
    if w.next[l] <= i {
      OnlyHas(turns[w.next[l]..i], Elements(turns) - before);
    }
    PutEachNew(PutEach(w.out, newer), [turns[i]]);
  }

  /** The walk is past every turn it walked. */
  lemma {:induction false} WalkIsPast(lanes: seq<LaneTurns>, previous: seq<Turn>, n: nat, l: nat, j: nat)
    requires Apart(lanes) && n <= |previous| && l < |lanes| && j < |lanes[l].turns| && lanes[l].turns[j] in previous[..n]
    ensures Walked(lanes, previous, n).next[l] > j
  {
    hide Apart, PutEach, Only;
    var t := previous[n - 1];
    PlaceIs(lanes, l, j);
    assert previous[..n] == previous[..n - 1] + [t];
    if lanes[l].turns[j] in previous[..n - 1] {
      WalkIsPast(lanes, previous, n - 1, l, j);
    }
  }

  /** What is before a walked turn in its lane was put. */
  lemma PassedIsPut(lanes: seq<LaneTurns>, previous: seq<Turn>, l: nat, k: nat, j: nat)
    requires Apart(lanes) && l < |lanes| && k < j < |lanes[l].turns| && lanes[l].turns[j] in previous
    requires Walked(lanes, previous, |previous|).out == previous
    ensures lanes[l].turns[k] in previous
  {
    hide Apart, Walked;
    assert previous[..|previous|] == previous;
    WalkIsPast(lanes, previous, |previous|, l, j);
    WalkPuts(lanes, previous, |previous|);
    PlaceIs(lanes, l, k);
  }

  /** The walk copies what was shown when nothing new comes before it. */
  lemma {:induction false} WalkCopies(lanes: seq<LaneTurns>, previous: seq<Turn>, n: nat)
    requires Apart(lanes) && NoRepeats(previous) && OnlyAppended(lanes, previous) && n <= |previous|
    ensures Walked(lanes, previous, n).out == previous[..n]
  {
    hide Apart, PutEach, Only;
    if n > 0 {
      WalkCopies(lanes, previous, n - 1);
      var w, t := Walked(lanes, previous, n - 1), previous[n - 1];
      assert t in previous;
      var (l, i) := Place(lanes, t);
      var turns := lanes[l].turns;
      if w.next[l] <= i {
        forall x | x in turns[w.next[l]..i]
          ensures x in previous
        {
          var k :| w.next[l] <= k < i && turns[k] == x;
        }
        OnlyNone(turns[w.next[l]..i], Elements(turns) - Elements(previous));
      }
      assert t !in previous[..n - 1];
      assert [] + [turns[i]] == [turns[i]];
      PutEachNew(w.out, [turns[i]]);
      assert previous[..n] == previous[..n - 1] + [t];
    }
  }

  /** Applied again, it changes nothing. */
  lemma OrderAgain(lanes: seq<LaneTurns>, previous: seq<Turn>)
    requires Apart(lanes)
    ensures OrderOf(lanes, OrderOf(lanes, previous)) == OrderOf(lanes, previous)
  {
    hide OrderOf, Walked, NewTurns, Tail, Apart, NoRepeats;
    var o := OrderOf(lanes, previous);
    OrderHasAll(lanes, previous);
    OrderIs(lanes, o);
    AllThere(lanes, o);
    WalkCopies(lanes, o, |o|);
    assert o[..|o|] == o;
    var w := Walked(lanes, o, |o|);
    var s := NewTurns(lanes, w);
    FirstIn(s);
    if s != [] {
      NewTurnsHave(lanes, w, s[0]);
    }
  }

  lemma AllThere(lanes: seq<LaneTurns>, o: seq<Turn>)
    requires Elements(o) == TurnsOf(lanes)
    ensures OnlyAppended(lanes, o)
  {
    forall t | t in o
      ensures t in TurnsOf(lanes)
    {
      assert t in Elements(o);
    }
    forall l, k | 0 <= l < |lanes| && 0 <= k < |lanes[l].turns|
      ensures lanes[l].turns[k] in o
    {
      assert lanes[l].turns[k] in TurnsOf(lanes);
      assert lanes[l].turns[k] in Elements(o);
    }
  }

  lemma FirstIn<T>(s: seq<T>)
    ensures s == [] || s[0] in s
  {
  }

  // ---- Making it -----------------------------------------------------------------------------------

  /** Where each turn is: the source's `where`. */
  method Places(lanes: seq<LaneTurns>) returns (where: map<Turn, (nat, nat)>)
    requires Apart(lanes)
    ensures where.Keys == TurnsOf(lanes)
    ensures forall t :: t in where ==> where[t] == Place(lanes, t)
  {
    where := map[];
    for l := 0 to |lanes|
      invariant forall t :: t in where <==> t in TurnsOf(lanes) && Place(lanes, t).0 < l
      invariant forall t :: t in where ==> where[t] == Place(lanes, t)
    {
      for i := 0 to |lanes[l].turns|
        invariant forall t :: t in where <==> t in TurnsOf(lanes) && (Place(lanes, t).0 < l || (Place(lanes, t).0 == l && Place(lanes, t).1 < i))
        invariant forall t :: t in where ==> where[t] == Place(lanes, t)
      {
        PlaceIs(lanes, l, i);
        where := where[lanes[l].turns[i] := (l, i)];
      }
    }
  }

  /** The turns put are marked with their lane (one with no way marks none); the others are as they were. */
  ghost predicate MarkedPut(lanes: seq<LaneTurns>, out: seq<Turn>, was: map<Turn, Option<Way>>)
    requires was.Keys == TurnsOf(lanes)
    reads TurnsOf(lanes)`via
  {
    forall l, i :: 0 <= l < |lanes| && 0 <= i < |lanes[l].turns| ==>
      lanes[l].turns[i].via == if lanes[l].turns[i] in out && lanes[l].via.Some? then lanes[l].via else was[lanes[l].turns[i]]
  }

  /** The source's `put`: a turn of lane `l`, once. */
  method Put(lanes: seq<LaneTurns>, out: seq<Turn>, l: nat, t: Turn, ghost was: map<Turn, Option<Way>>) returns (r: seq<Turn>)
    requires Apart(lanes) && l < |lanes| && t in lanes[l].turns
    requires was.Keys == TurnsOf(lanes) && MarkedPut(lanes, out, was)
    modifies {t}`via
    ensures r == PutEach(out, [t])
    ensures MarkedPut(lanes, r, was)
  {
    r := out;
    if t !in out {
      if lanes[l].via.Some? { t.via := lanes[l].via; }
      r := out + [t];
    }
    assert [t][1..] == [];
  }

  /** A lane's new turns between two places, put. */
  method PutNew(lanes: seq<LaneTurns>, before: set<Turn>, out: seq<Turn>, l: nat, from: nat, to: nat, ghost was: map<Turn, Option<Way>>) returns (r: seq<Turn>)
    requires Apart(lanes) && l < |lanes| && to <= |lanes[l].turns|
    requires was.Keys == TurnsOf(lanes) && MarkedPut(lanes, out, was)
    modifies TurnsOf(lanes)`via
    ensures r == PutEach(out, if from <= to then Only(lanes[l].turns[from..to], Elements(lanes[l].turns) - before) else [])
    ensures MarkedPut(lanes, r, was)
  {
    hide MarkedPut, Only, PutEach, Apart;
    var turns, k := lanes[l].turns, from;
    PutNothing(out, turns, from, Elements(turns) - before);
    ghost var newer := Elements(turns) - before;
    r := out;
    while k < to
      invariant from <= k && (from <= to ==> k <= to)
      invariant from <= to ==> r == PutEach(out, Only(turns[from..k], newer))
      invariant from > to ==> r == out
      invariant MarkedPut(lanes, r, was)
    {
      assert turns[from..k + 1] == turns[from..k] + [turns[k]];
      OnlyJoin(turns[from..k], [turns[k]], newer);
      if turns[k] !in before {
        PutEachJoin(out, Only(turns[from..k], newer), [turns[k]]);
        OnlyAll([turns[k]], newer);
        r := Put(lanes, r, l, turns[k], was);
      } else {
        OnlyNone([turns[k]], newer);
        assert Only(turns[from..k], newer) + [] == Only(turns[from..k], newer);
      }
      k := k + 1;
    }
  }

  lemma PutNothing(out: seq<Turn>, turns: seq<Turn>, from: nat, newer: set<Turn>)
    ensures from <= |turns| ==> PutEach(out, Only(turns[from..from], newer)) == out
    ensures PutEach(out, []) == out
  {
  }

  /** One turn of what was shown, at place `i` of lane `l`. */
  method StepAlong(lanes: seq<LaneTurns>, before: set<Turn>, next: seq<nat>, out: seq<Turn>, l: nat, i: nat, ghost was: map<Turn, Option<Way>>)
    returns (next': seq<nat>, out': seq<Turn>)
    requires Apart(lanes) && was.Keys == TurnsOf(lanes) && MarkedPut(lanes, out, was)
    requires WalkFits(lanes, Walk(next, out)) && l < |lanes| && i < |lanes[l].turns|
    modifies TurnsOf(lanes)`via
    ensures Walk(next', out') == StepTo(lanes, before, Walk(next, out), l, i)
    ensures MarkedPut(lanes, out', was)
  {
    hide MarkedPut, Apart, PutEach, Only;
    ghost var turns, m := lanes[l].turns, next[l];
    PutEachJoin(out, if m <= i then Only(turns[m..i], Elements(turns) - before) else [], [turns[i]]);
    out' := PutNew(lanes, before, out, l, next[l], i, was);
    out' := Put(lanes, out', l, lanes[l].turns[i], was);
    next' := next[l := if next[l] > i + 1 then next[l] else i + 1];
  }

  /** The walk along what was shown. */
  method WalkAlong(lanes: seq<LaneTurns>, previous: seq<Turn>, ghost was: map<Turn, Option<Way>>) returns (next: seq<nat>, out: seq<Turn>)
    requires Apart(lanes) && was.Keys == TurnsOf(lanes) && MarkedPut(lanes, [], was)
    modifies TurnsOf(lanes)`via
    ensures Walk(next, out) == Walked(lanes, previous, |previous|)
    ensures MarkedPut(lanes, out, was)
  {
    hide MarkedPut, Apart, Walked, StepTo;
    WalkBegins(lanes, previous);
    var where := Places(lanes);
    var before := set t | t in previous;
    assert before == Elements(previous);
    next, out := seq(|lanes|, _ => 0), [];
    for n := 0 to |previous|
      invariant Walk(next, out) == Walked(lanes, previous, n)
      invariant MarkedPut(lanes, out, was)
    {
      next, out := TurnAlong(lanes, previous, where, before, n, next, out, was);
    }
  }

  /** One turn of what was shown more. */
  method TurnAlong(lanes: seq<LaneTurns>, previous: seq<Turn>, where: map<Turn, (nat, nat)>, before: set<Turn>, n: nat,
                   next: seq<nat>, out: seq<Turn>, ghost was: map<Turn, Option<Way>>)
    returns (next': seq<nat>, out': seq<Turn>)
    requires Apart(lanes) && was.Keys == TurnsOf(lanes) && MarkedPut(lanes, out, was)
    requires where.Keys == TurnsOf(lanes) && forall t :: t in where ==> where[t] == Place(lanes, t)
    requires n < |previous| && before == Elements(previous) && Walk(next, out) == Walked(lanes, previous, n)
    modifies TurnsOf(lanes)`via
    ensures Walk(next', out') == Walked(lanes, previous, n + 1)
    ensures MarkedPut(lanes, out', was)
  {
    hide MarkedPut, Apart, Walked, StepTo;
    next', out' := next, out;
    var t := previous[n];
    WalkGoesOn(lanes, previous, n + 1);
    if t in where {
      var (l, i) := where[t];
      next', out' := StepAlong(lanes, before, next, out, l, i, was);
    }
  }

  lemma WalkBegins(lanes: seq<LaneTurns>, previous: seq<Turn>)
    ensures Walked(lanes, previous, 0) == Walk(seq(|lanes|, _ => 0), [])
  {
  }

  lemma WalkGoesOn(lanes: seq<LaneTurns>, previous: seq<Turn>, n: nat)
    requires 0 < n <= |previous|
    ensures
      var w, t := Walked(lanes, previous, n - 1), previous[n - 1];
      && (t !in TurnsOf(lanes) ==> Walked(lanes, previous, n) == w)
      && (t in TurnsOf(lanes) ==>
        Walked(lanes, previous, n) == StepTo(lanes, Elements(previous), w, Place(lanes, t).0, Place(lanes, t).1))
  {
  }

  /** When the last turn before `n` with a time was. */
  method FloorOf(turns: seq<Turn>, n: nat) returns (floor: Time)
    requires n <= |turns|
    ensures floor == TimeBefore(turns, n)
  {
    var k: nat := n;
    while k > 0 && turns[k - 1].at.None?
      invariant k <= n && TimeBefore(turns, k) == TimeBefore(turns, n)
    {
      k := k - 1;
    }
    floor := if k > 0 then AsTime(turns[k - 1].at) else Never;
  }

  /** A lane's turns from `from` on that are not put yet. */
  method NewOnes(turns: seq<Turn>, from: nat, out: seq<Turn>) returns (tail: seq<Turn>)
    requires from <= |turns|
    ensures tail == Only(turns[from..], Elements(turns) - Elements(out))
  {
    hide Only;
    ghost var keep := Elements(turns) - Elements(out);
    tail := [];
    OnlyNone(turns[from..from], keep);
    for i := from to |turns|
      invariant tail == Only(turns[from..i], keep)
    {
      assert turns[from..i + 1] == turns[from..i] + [turns[i]];
      OnlyJoin(turns[from..i], [turns[i]], keep);
      if turns[i] !in out {
        OnlyAll([turns[i]], keep);
        tail := tail + [turns[i]];
      } else {
        OnlyNone([turns[i]], keep);
      }
    }
    assert turns[from..|turns|] == turns[from..];
  }

  /** A lane's new turns at its end, with their times. */
  method TailOf(lanes: seq<LaneTurns>, next: seq<nat>, out: seq<Turn>, l: nat) returns (tail: seq<Turn>, times: seq<Time>)
    requires WalkFits(lanes, Walk(next, out)) && l < |lanes|
    ensures tail == Tail(lanes, Walk(next, out), l)
    ensures times == TailTimes(TimeBefore(lanes[l].turns, next[l]), tail)
  {
    hide Only, TimeBefore;
    var turns := lanes[l].turns;
    var floor := FloorOf(turns, next[l]);
    tail := NewOnes(turns, next[l], out);
    times := [];
    ghost var first := floor;
    for i := 0 to |tail|
      invariant TailTimes(first, tail) == times + TailTimes(floor, tail[i..])
    {
      assert tail[i..][1..] == tail[i + 1..];
      floor := Later(floor, AsTime(tail[i].at));
      times := times + [floor];
    }
  }

  /** The source's function of this name, its cursors as loops; `via` is set on every turn put. */
  method ThreadOrder(previous: seq<Turn>, lanes: seq<LaneTurns>) returns (out: seq<Turn>)
    requires Apart(lanes)
    modifies TurnsOf(lanes)`via
    ensures out == OrderOf(lanes, previous)
    ensures Marked(lanes, Whole(lanes), old(ViaOf(lanes)))
  {
    hide MarkedPut, MergedBy, Merging, IsPick, Tail, TailTimes, Walked, NewTurns, Apart, Marked, PutEach;
    ghost var was := ViaOf(lanes);
    NoneMarked(lanes, was);
    var next, walked := WalkAlong(lanes, previous, was);
    ghost var w := Walk(next, walked);
    var tails, times := TailsOf(lanes, next, walked);
    out := PutTails(lanes, w, tails, times, walked, was);
    AllMarked(lanes, previous, was);
  }

  method TailsOf(lanes: seq<LaneTurns>, next: seq<nat>, out: seq<Turn>) returns (tails: seq<LaneTurns>, times: seq<seq<Time>>)
    requires WalkFits(lanes, Walk(next, out))
    ensures tails == Tails(lanes, Walk(next, out)) && times == TimesOfTails(lanes, Walk(next, out))
  {
    ghost var w := Walk(next, out);
    tails, times := [], [];
    for l := 0 to |lanes|
      invariant |tails| == l && |times| == l
      invariant forall k :: 0 <= k < l ==> tails[k] == Tails(lanes, w)[k] && times[k] == TimesOfTails(lanes, w)[k]
    {
      var tail, at := TailOf(lanes, next, out, l);
      tails, times := tails + [lanes[l].(turns := tail)], times + [at];
    }
  }

  lemma NoneMarked(lanes: seq<LaneTurns>, was: map<Turn, Option<Way>>)
    requires was == ViaOf(lanes)
    ensures MarkedPut(lanes, [], was)
  {
  }

  lemma AllMarked(lanes: seq<LaneTurns>, previous: seq<Turn>, was: map<Turn, Option<Way>>)
    requires Apart(lanes) && was.Keys == TurnsOf(lanes)
    requires MarkedPut(lanes, OrderOf(lanes, previous), was)
    ensures Marked(lanes, Whole(lanes), was)
  {
    OrderHasAll(lanes, previous);
    forall l, i | 0 <= l < |lanes| && 0 <= i < |lanes[l].turns|
      ensures lanes[l].turns[i] in OrderOf(lanes, previous)
    {
      assert lanes[l].turns[i] in Elements(OrderOf(lanes, previous));
    }
  }

  /** The new turns at the lanes' ends, by their times. */
  method PutTails(lanes: seq<LaneTurns>, ghost w: Walk, tails: seq<LaneTurns>, times: seq<seq<Time>>, walked: seq<Turn>, ghost was: map<Turn, Option<Way>>)
    returns (out: seq<Turn>)
    requires Apart(lanes) && was.Keys == TurnsOf(lanes) && MarkedPut(lanes, walked, was)
    requires WalkFits(lanes, w) && tails == Tails(lanes, w) && times == TimesOfTails(lanes, w)
    modifies TurnsOf(lanes)`via
    ensures out == PutEach(walked, NewTurns(lanes, w))
    ensures MarkedPut(lanes, out, was)
  {
    hide MarkedPut, MergedBy, Merging, IsPick, Tail, TailTimes, Apart;
    forall k | 0 <= k < |times|
      ensures NonDecreasing(times[k])
    {
      TailTimesRise(TimeBefore(lanes[k].turns, w.next[k]), Tail(lanes, w, k));
    }
    var heads: seq<nat> := seq(|lanes|, _ => 0);
    ghost var put: seq<Turn> := [];
    out := walked;
    MergeStart(tails, times);
    var pick := PickLane(times, heads);
    ghost var left := Count(tails, heads, 0);
    while pick.Some?
      invariant Heads(times, heads) && Merging(tails, times, heads, put)
      invariant out == PutEach(walked, put)
      invariant pick.None? <==> forall l: nat :: !IsHead(times, heads, l)
      invariant pick.Some? ==> IsHead(times, heads, pick.value) && IsPick(times, heads, pick.value, |times|)
      invariant left == Count(tails, heads, 0)
      invariant MarkedPut(lanes, out, was)
      decreases left
    {
      var l := pick.value;
      MergeStep(tails, times, heads, put, l);
      CountFalls(tails, heads, l, 0);
      var t := tails[l].turns[heads[l]];
      TailIn(lanes, w, l, heads[l]);
      PutEachJoin(walked, put, [t]);
      put := put + [t];
      out := Put(lanes, out, l, t, was);
      heads := heads[l := heads[l] + 1];
      left := left - 1;
      pick := PickLane(times, heads);
    }
    MergeEnd(tails, times, heads, put);
  }

  // ---- Any run of changes and looks ---------------------------------------------------------------------

  /** A conversation's lanes, and the order kept of it (sessions.ts, `orders`). */
  datatype Conversation = Conversation(lanes: seq<LaneTurns>, order: seq<Turn>)

  /** What happens to it: a turn put into a lane (at its end: said now; elsewhere: a summary), one let go, and a look at its order. */
  datatype Change = PutIn(lane: nat, at: nat, turn: Turn) | LetGo(lane: nat, at: nat) | Look

  /** A turn put in is an object of its own: in no lane, and not in the order kept. */
  ghost predicate CanDo(c: Conversation, e: Change) {
    match e
    case PutIn(l, at, turn) => l < |c.lanes| && at <= |c.lanes[l].turns| && turn !in TurnsOf(c.lanes) && turn !in c.order
    case LetGo(l, at) => l < |c.lanes| && at < |c.lanes[l].turns|
    case Look => true
  }

  ghost function Do(c: Conversation, e: Change): Conversation
    requires CanDo(c, e)
  {
    match e
    case PutIn(l, at, turn) =>
      var turns := c.lanes[l].turns;
      c.(lanes := c.lanes[l := c.lanes[l].(turns := turns[..at] + [turn] + turns[at..])])
    case LetGo(l, at) =>
      var turns := c.lanes[l].turns;
      c.(lanes := c.lanes[l := c.lanes[l].(turns := turns[..at] + turns[at + 1..])])
    case Look => c.(order := OrderOf(c.lanes, c.order))
  }

  ghost predicate CanRun(c: Conversation, run: seq<Change>)
    decreases |run|
  {
    run == [] || (CanDo(c, run[0]) && CanRun(Do(c, run[0]), run[1..]))
  }

  ghost function Run(c: Conversation, run: seq<Change>): Conversation
    requires CanRun(c, run)
    decreases |run|
  {
    if run == [] then c else Run(Do(c, run[0]), run[1..])
  }

  ghost predicate AgreesWithAll(lanes: seq<LaneTurns>, previous: seq<Turn>) {
    forall l :: 0 <= l < |lanes| ==> Agrees(previous, lanes[l].turns)
  }

  /** What every change keeps: the order has each turn once, and agrees with each lane. */
  ghost predicate Sound(c: Conversation) {
    Apart(c.lanes) && NoRepeats(c.order) && AgreesWithAll(c.lanes, c.order)
  }

  /** What a look shows: every turn of the lanes once, each lane in its own order. */
  ghost predicate Shows(c: Conversation) {
    && Elements(c.order) == TurnsOf(c.lanes) && NoRepeats(c.order)
    && forall l :: 0 <= l < |c.lanes| ==> Only(c.order, Elements(c.lanes[l].turns)) == c.lanes[l].turns
  }

  lemma LookShows(c: Conversation)
    requires Sound(c)
    ensures Shows(Do(c, Look)) && Sound(Do(c, Look))
  {
    hide OrderOf, Apart;
    var d := Do(c, Look);
    OrderHasAll(c.lanes, c.order);
    forall l | 0 <= l < |c.lanes|
      ensures Only(d.order, Elements(c.lanes[l].turns)) == c.lanes[l].turns
      ensures Agrees(d.order, c.lanes[l].turns)
    {
      LaneKeptIf(c.lanes, c.order, l);
      assert forall t :: t in c.lanes[l].turns ==> t in TurnsOf(c.lanes);
      OnlyAll(c.lanes[l].turns, Elements(d.order));
    }
  }

  lemma PutInKeeps(c: Conversation, e: Change)
    requires Sound(c) && e.PutIn? && CanDo(c, e)
    ensures Sound(Do(c, e))
  {
    var lane, d := c.lanes[e.lane].turns, Do(c, e);
    var lane' := d.lanes[e.lane].turns;
    PutInApart(c.lanes, d.lanes, e.lane, e.at, e.turn);
    forall l | 0 <= l < |d.lanes|
      ensures Agrees(d.order, d.lanes[l].turns)
    {
      assert Agrees(c.order, c.lanes[l].turns);
      if l == e.lane {
        OnlyWithOneMore(lane, e.at, e.turn, c.order);
      }
    }
  }

  lemma OnlyWithOneMore<T>(lane: seq<T>, at: nat, x: T, order: seq<T>)
    requires at <= |lane| && x !in order
    ensures Only(lane[..at] + [x] + lane[at..], Elements(order)) == Only(lane, Elements(order))
    ensures Only(order, Elements(lane[..at] + [x] + lane[at..])) == Only(order, Elements(lane))
  {
    hide Only;
    var lane', keep := lane[..at] + [x] + lane[at..], Elements(order);
    OnlyJoin(lane[..at] + [x], lane[at..], keep);
    OnlyJoin(lane[..at], [x], keep);
    OnlyNone([x], keep);
    assert lane == lane[..at] + lane[at..];
    OnlyJoin(lane[..at], lane[at..], keep);
    assert Elements(lane') == Elements(lane[..at]) + {x} + Elements(lane[at..]);
    assert Elements(lane) == Elements(lane[..at]) + Elements(lane[at..]);
    OnlySame(order, Elements(lane'), Elements(lane));
  }

  lemma PutInApart(lanes: seq<LaneTurns>, lanes': seq<LaneTurns>, l: nat, at: nat, turn: Turn)
    requires Apart(lanes) && l < |lanes| && at <= |lanes[l].turns| && turn !in TurnsOf(lanes)
    requires lanes' == lanes[l := lanes[l].(turns := lanes[l].turns[..at] + [turn] + lanes[l].turns[at..])]
    ensures Apart(lanes')
  {
    forall a, i, b, j |
      && 0 <= a < |lanes'| && 0 <= i < |lanes'[a].turns|
      && 0 <= b < |lanes'| && 0 <= j < |lanes'[b].turns|
      && lanes'[a].turns[i] == lanes'[b].turns[j]
      ensures a == b && i == j
    {
      var i' := if a == l && i > at then i - 1 else i;
      var j' := if b == l && j > at then j - 1 else j;
      if !(a == l && i == at) {
        assert lanes'[a].turns[i] == lanes[a].turns[i'];
      }
      if !(b == l && j == at) {
        assert lanes'[b].turns[j] == lanes[b].turns[j'];
      }
    }
  }

  lemma LetGoKeeps(c: Conversation, e: Change)
    requires Sound(c) && e.LetGo? && CanDo(c, e)
    ensures Sound(Do(c, e))
  {
    var lane, d := c.lanes[e.lane].turns, Do(c, e);
    LetGoApart(c.lanes, d.lanes, e.lane, e.at);
    forall l | 0 <= l < |d.lanes|
      ensures Agrees(d.order, d.lanes[l].turns)
    {
      assert Agrees(c.order, c.lanes[l].turns);
      if l == e.lane {
        ApartHere(c.lanes, l);
        OnlyWithOneLess(lane, e.at, c.order);
      }
    }
  }

  lemma OnlyWithOneLess<T>(lane: seq<T>, at: nat, order: seq<T>)
    requires at < |lane| && NoRepeats(lane) && Only(order, Elements(lane)) == Only(lane, Elements(order))
    ensures Only(order, Elements(lane[..at] + lane[at + 1..])) == Only(lane[..at] + lane[at + 1..], Elements(order))
  {
    hide Only;
    var x, lane' := lane[at], lane[..at] + lane[at + 1..];
    var rest := Elements(lane) - {x};
    assert Elements(lane') == rest by {
      assert lane == lane[..at] + [x] + lane[at + 1..];
      assert x !in lane';
    }
    assert Only(lane, rest) == lane' by {
      assert lane == lane[..at] + [x] + lane[at + 1..];
      OnlyJoin(lane[..at] + [x], lane[at + 1..], rest);
      OnlyJoin(lane[..at], [x], rest);
      OnlyNone([x], rest);
      OnlyAll(lane[..at], rest);
      OnlyAll(lane[at + 1..], rest);
    }
    OnlyTwice(order, Elements(lane), rest);
    assert Elements(lane) * rest == rest;
    OnlyTwice(lane, Elements(order), rest);
    OnlyTwice(lane, rest, Elements(order));
    assert Elements(order) * rest == rest * Elements(order);
  }

  lemma LetGoApart(lanes: seq<LaneTurns>, lanes': seq<LaneTurns>, l: nat, at: nat)
    requires Apart(lanes) && l < |lanes| && at < |lanes[l].turns|
    requires lanes' == lanes[l := lanes[l].(turns := lanes[l].turns[..at] + lanes[l].turns[at + 1..])]
    ensures Apart(lanes')
  {
    forall a, i, b, j |
      && 0 <= a < |lanes'| && 0 <= i < |lanes'[a].turns|
      && 0 <= b < |lanes'| && 0 <= j < |lanes'[b].turns|
      && lanes'[a].turns[i] == lanes'[b].turns[j]
      ensures a == b && i == j
    {
      var i' := if a == l && i >= at then i + 1 else i;
      var j' := if b == l && j >= at then j + 1 else j;
      assert lanes'[a].turns[i] == lanes[a].turns[i'];
      assert lanes'[b].turns[j] == lanes[b].turns[j'];
    }
  }

  /** Over any run of turns put in, turns let go and looks, every look shows every turn once, each lane in its own order. */
  lemma {:induction false} EveryRunShows(c: Conversation, run: seq<Change>)
    requires Sound(c) && CanRun(c, run)
    ensures Sound(Run(c, run))
    ensures run != [] && run[|run| - 1] == Look ==> Shows(Run(c, run))
    decreases |run|
  {
    hide Do, Sound, Shows, CanDo;
    if run != [] {
      match run[0] {
        case PutIn(_, _, _) => PutInKeeps(c, run[0]);
        case LetGo(_, _) => LetGoKeeps(c, run[0]);
        case Look => LookShows(c);
      }
      EveryRunShows(Do(c, run[0]), run[1..]);
    }
  }

  /** A conversation not shown yet is sound. */
  lemma NothingShownIsSound(lanes: seq<LaneTurns>)
    requires Apart(lanes)
    ensures Sound(Conversation(lanes, []))
  {
    forall l | 0 <= l < |lanes|
      ensures Agrees([], lanes[l].turns)
    {
      OnlyNone(lanes[l].turns, Elements<Turn>([]));
    }
  }

  /** So it is from the first, when nothing was shown. */
  lemma EveryRunFromNothingShows(lanes: seq<LaneTurns>, run: seq<Change>)
    requires Apart(lanes) && CanRun(Conversation(lanes, []), run)
    ensures run != [] && run[|run| - 1] == Look ==> Shows(Run(Conversation(lanes, []), run))
  {
    hide Sound, Shows, CanRun, Run;
    NothingShownIsSound(lanes);
    EveryRunShows(Conversation(lanes, []), run);
  }

  // ---- With nothing shown before -------------------------------------------------------------------------

  /** The lanes' times as the order reads them, each lane from its start. */
  ghost function WholeTimes(lanes: seq<LaneTurns>): (times: seq<seq<Time>>)
    ensures Fits(lanes, times)
    ensures forall l :: 0 <= l < |lanes| ==> times[l] == TailTimes(Never, lanes[l].turns)
  {
    seq(|lanes|, l requires 0 <= l < |lanes| => TailTimes(Never, lanes[l].turns))
  }

  /** With nothing shown before, the order is the merge of the whole lanes by their own times. */
  lemma NotShownYet(lanes: seq<LaneTurns>)
    requires Apart(lanes)
    ensures OrderOf(lanes, []) == MergedBy(lanes, WholeTimes(lanes))
  {
    hide MergedBy, TailTimes, PutEach;
    var w := Walked(lanes, [], 0);
    OrderIs(lanes, []);
    forall l | 0 <= l < |lanes|
      ensures Tail(lanes, w, l) == lanes[l].turns
    {
      var turns := lanes[l].turns;
      assert turns[w.next[l]..] == turns;
      OnlyAll(turns, Elements(turns) - Elements(w.out));
    }
    assert Tails(lanes, w) == lanes;
    assert TimesOfTails(lanes, w) == WholeTimes(lanes);
  }

  // ---- What a shown order that disagrees does --------------------------------------------------------------

  /** A lane whose two turns were shown the other way round keeps them so: the order does not follow the lane. */
  lemma ALaneNotKept(a: Turn, b: Turn)
    requires a != b
    ensures
      var lanes := [LaneTurns(Some(Call), [a, b], None)];
      && Apart(lanes) && NoRepeats([b, a])
      && !Agrees([b, a], [a, b])
      && OrderOf(lanes, [b, a]) == [b, a]
      && Only(OrderOf(lanes, [b, a]), Elements([a, b])) != [a, b]
  {
    hide OrderOf, Only;
    var lane, previous := [a, b], [b, a];
    var lanes := [LaneTurns(Some(Call), lane, None)];
    assert lanes[0].turns[0] == a && lanes[0].turns[1] == b;
    assert Elements(lane) == Elements(previous) == TurnsOf(lanes);
    OnlyAll(lane, Elements(previous));
    OnlyAll(previous, Elements(lane));
    assert lane[0] != previous[0];
    SurvivorsStay(lanes, previous);
    OrderHasAll(lanes, previous);
    var o := OrderOf(lanes, previous);
    assert forall t :: t in o ==> t in Elements(o);
    OnlyAll(o, Elements(previous));
  }

  /** A turn put into a lane before one that was shown comes before it: what was shown is not the start any more. */
  lemma APrefixNotKept(a: Turn, b: Turn)
    requires a != b
    ensures
      var lanes := [LaneTurns(Some(Call), [b, a], None)];
      && Apart(lanes) && AgreesWithAll(lanes, [a])
      && !OnlyAppended(lanes, [a])
      && OrderOf(lanes, [a]) == [b, a]
  {
    hide OrderOf, Only;
    var lane, previous := [b, a], [a];
    var lanes := [LaneTurns(Some(Call), lane, None)];
    assert lanes[0].turns[0] == b && lanes[0].turns[1] == a;
    assert Agrees(previous, lane) by {
      TheOneKept(a, b);
    }
    LaneKeptIf(lanes, previous, 0);
    OrderHasAll(lanes, previous);
    var o := OrderOf(lanes, previous);
    forall t | t in o
      ensures t in Elements(lane)
    {
      assert t in TurnsOf(lanes);
    }
    OnlyAll(o, Elements(lane));
    assert lanes[0].turns[0] !in previous;
  }

  lemma TheOneKept<T>(a: T, b: T)
    requires a != b
    ensures Only([b, a], Elements([a])) == [a] == Only([a], Elements([b, a]))
  {
    assert [b, a] == [b] + [a];
    OnlyJoin([b], [a], Elements([a]));
    OnlyNone([b], Elements([a]));
    OnlyAll([a], Elements([a]));
    OnlyAll([a], Elements([b, a]));
  }

  /** A new turn before two that were shown the other way round goes before the second of them. */
  lemma ANewTurnElsewhere(a: Turn, b: Turn, c: Turn)
    requires a != b && a != c && b != c
    ensures
      var lanes := [LaneTurns(Some(Call), [a, b, c], None)];
      Apart(lanes) && !Adjacent(OrderOf(lanes, [c, b]), a, b)
  {
    hide OrderOf;
    var lane, previous := [a, b, c], [c, b];
    var lanes := [LaneTurns(Some(Call), lane, None)];
    assert lanes[0].turns[0] == a && lane[1] == b && lane[2] == c && lane[2] in previous;
    assert !Before(previous, b, c);
    NewBeforeItsSuccessor(lanes, previous, 0, 0);
  }
}
