/**
 * A lane's times and the merge of lanes (app/src/threads.ts, `laneTimes` and
 * `mergeLanes`): a person's calls and texts as one timeline.
 *
 * Turns are compared by identity, so they are objects. What they hold does not
 * change here, but for the lane they are marked with (`via`).
 */
module LaneMerge {
  import opened Options
  import opened Subsequences
  import opened TimeOrder

  datatype Way = Call | Sms

  /** What `parseCallStart` reads in a turn: nothing, or a call's start, which may have no time. */
  datatype CallStart = NotOne | Starts(at: Option<int>)

  class Turn {
    /** When it happened, if that was kept. */
    const at: Option<int>
    /** Whether its role is the user's, and it is an automatic note. */
    const user: bool
    const automatic: bool
    /** What its text says: a call's start, and how far into the call its first caller's words with a time are. */
    const start: CallStart
    const said: Option<int>
    /** The lane it is marked with. */
    var via: Option<Way>

    constructor (at: Option<int>, user: bool, automatic: bool, start: CallStart, said: Option<int>)
      ensures this.at == at && this.user == user && this.automatic == automatic
      ensures this.start == start && this.said == said && this.via == None
    {
      this.at, this.user, this.automatic, this.start, this.said, this.via := at, user, automatic, start, said, None;
    }
  }

  /** A lane: its turns as listed, its mark, and its `lastAt`. */
  datatype LaneTurns = LaneTurns(via: Option<Way>, turns: seq<Turn>, lastAt: Option<int>)

  // ---- When each turn happened ---------------------------------------------------

  predicate OpensCall(t: Turn) {
    t.user && t.automatic && t.start.Starts?
  }

  /** The start of the call going on after the first `n` turns (none known: no call, or no time of it). */
  function CallGoingOn(turns: seq<Turn>, n: nat): Option<int>
    requires n <= |turns|
  {
    if n == 0 then None
    else if OpensCall(turns[n - 1]) then turns[n - 1].start.at
    else CallGoingOn(turns, n - 1)
  }

  /** A turn's time as it says it: its own, the start of the call it opens, or its words' time into the call going on. */
  function OwnTime(turns: seq<Turn>, i: nat): Option<int>
    requires i < |turns|
  {
    var t, call := turns[i], CallGoingOn(turns, i);
    if t.at.Some? then t.at
    else if OpensCall(t) then t.start.at
    else if t.user && call.Some? && t.said.Some? then Some(call.value + t.said.value)
    else None
  }

  /** The same, but the last turn, having no time of its own, has the lane's `lastAt` (unless that is 0). */
  function KnownTime(lane: LaneTurns, i: nat): Option<int>
    requires i < |lane.turns|
  {
    var own := OwnTime(lane.turns, i);
    if own.None? && i == |lane.turns| - 1 && lane.lastAt.Some? && lane.lastAt.value != 0 then lane.lastAt else own
  }

  /** The latest time known among the first `n` turns. */
  function LatestKnown(lane: LaneTurns, n: nat): Option<int>
    requires n <= |lane.turns|
  {
    if n == 0 then None
    else
      var before, k := LatestKnown(lane, n - 1), KnownTime(lane, n - 1);
      if k.None? then before else if before.Some? && before.value > k.value then before else k
  }

  /** The first time known from turn `i` on. */
  function FirstKnown(lane: LaneTurns, i: nat): Option<int>
    requires i <= |lane.turns|
    decreases |lane.turns| - i
  {
    if i == |lane.turns| then None
    else if KnownTime(lane, i).Some? then KnownTime(lane, i)
    else FirstKnown(lane, i + 1)
  }

  function AsTime(t: Option<int>): Time {
    if t.Some? then At(t.value) else Never
  }

  /** When turn `i` happened: no earlier than any before it that has a time; before the first of those, with it. */
  function TurnTime(lane: LaneTurns, i: nat): Time
    requires i < |lane.turns|
  {
    var latest := LatestKnown(lane, i + 1);
    AsTime(if latest.Some? then latest else FirstKnown(lane, 0))
  }

  function LaneTimesOf(lane: LaneTurns): (times: seq<Time>)
    ensures |times| == |lane.turns|
  {
    seq(|lane.turns|, i requires 0 <= i < |lane.turns| => TurnTime(lane, i))
  }

  lemma {:induction false} LatestRises(lane: LaneTurns, m: nat, n: nat)
    requires m <= n <= |lane.turns|
    ensures LatestKnown(lane, m).Some? ==> LatestKnown(lane, n).Some? && LatestKnown(lane, m).value <= LatestKnown(lane, n).value
  {
    if m < n {
      LatestRises(lane, m, n - 1);
    }
  }

  lemma {:induction false} FirstIsFirst(lane: LaneTurns, i: nat, n: nat)
    requires i <= n <= |lane.turns|
    requires forall k :: 0 <= k < i ==> KnownTime(lane, k).None?
    ensures LatestKnown(lane, i).None?
    ensures LatestKnown(lane, n).Some? ==> FirstKnown(lane, i).Some? && FirstKnown(lane, i).value <= LatestKnown(lane, n).value
    decreases n - i
  {
    NoneYet(lane, i);
    if i < n {
      if KnownTime(lane, i).Some? {
        LatestRises(lane, i + 1, n);
      } else {
        FirstIsFirst(lane, i + 1, n);
      }
    }
  }

  lemma {:induction false} NoneYet(lane: LaneTurns, n: nat)
    requires n <= |lane.turns|
    requires forall k :: 0 <= k < n ==> KnownTime(lane, k).None?
    ensures LatestKnown(lane, n).None?
  {
    if n > 0 {
      NoneYet(lane, n - 1);
    }
  }

  /** A lane's times never fall. */
  lemma TimesNeverFall(lane: LaneTurns)
    ensures NonDecreasing(LaneTimesOf(lane))
  {
    forall i, j | 0 <= i < j < |lane.turns|
      ensures !Earlier(TurnTime(lane, j), TurnTime(lane, i))
    {
      LatestRises(lane, i + 1, j + 1);
      FirstIsFirst(lane, 0, j + 1);
    }
  }

  /** A turn's time is one of the lane's, and never before its own: at its own when the lane's times are in order. */
  lemma TimeIsALanesOwn(lane: LaneTurns, i: nat)
    requires i < |lane.turns|
    ensures KnownTime(lane, i).Some? ==> !Earlier(TurnTime(lane, i), At(KnownTime(lane, i).value))
    ensures KnownTime(lane, i).Some? && (forall k :: 0 <= k < i && KnownTime(lane, k).Some? ==> KnownTime(lane, k).value <= KnownTime(lane, i).value)
        ==> TurnTime(lane, i) == At(KnownTime(lane, i).value)
    ensures TurnTime(lane, i).At? ==> exists k :: 0 <= k < |lane.turns| && KnownTime(lane, k) == Some(TurnTime(lane, i).ms)
    ensures TurnTime(lane, i).Never? ==> forall k :: 0 <= k < |lane.turns| ==> KnownTime(lane, k).None?
  {
    LatestIsOne(lane, i + 1);
    LatestIsOne(lane, i);
    FirstIsOne(lane, 0);
  }

  lemma {:induction false} LatestIsOne(lane: LaneTurns, n: nat)
    requires n <= |lane.turns|
    ensures LatestKnown(lane, n).Some? ==> exists k :: 0 <= k < n && KnownTime(lane, k) == LatestKnown(lane, n)
    ensures LatestKnown(lane, n).None? ==> forall k :: 0 <= k < n ==> KnownTime(lane, k).None?
  {
    if n > 0 {
      LatestIsOne(lane, n - 1);
      if LatestKnown(lane, n) == KnownTime(lane, n - 1) {
      } else {
        assert LatestKnown(lane, n) == LatestKnown(lane, n - 1);
      }
    }
  }

  lemma {:induction false} FirstIsOne(lane: LaneTurns, i: nat)
    requires i <= |lane.turns|
    ensures FirstKnown(lane, i).Some? ==> exists k :: i <= k < |lane.turns| && KnownTime(lane, k) == FirstKnown(lane, i)
    ensures FirstKnown(lane, i).None? ==> forall k :: i <= k < |lane.turns| ==> KnownTime(lane, k).None?
    decreases |lane.turns| - i
  {
    if i < |lane.turns| && KnownTime(lane, i).None? {
      FirstIsOne(lane, i + 1);
    }
  }

  /** What `known` holds at each of `laneTimes`' passes: each turn's own time; those put in order. */
  ghost predicate HoldsKnown(lane: LaneTurns, known: seq<Option<int>>) {
    |known| == |lane.turns| && forall k :: 0 <= k < |known| ==> known[k] == KnownTime(lane, k)
  }

  ghost predicate HoldsOrdered(lane: LaneTurns, known: seq<Option<int>>, n: nat) {
    && |known| == |lane.turns| && n <= |known|
    && (forall k :: 0 <= k < n ==> known[k] == if KnownTime(lane, k).Some? then LatestKnown(lane, k + 1) else None)
    && forall k :: n <= k < |known| ==> known[k] == KnownTime(lane, k)
  }

  method ReadTimes(lane: LaneTurns, known: array<Option<int>>)
    requires known.Length == |lane.turns|
    modifies known
    ensures HoldsKnown(lane, known[..])
  {
    var n := |lane.turns|;
    var callStart: Option<int> := None;
    for i := 0 to n
      invariant callStart == CallGoingOn(lane.turns, i)
      invariant forall k :: 0 <= k < i ==> known[k] == OwnTime(lane.turns, k)
    {
      var t := lane.turns[i];
      var at := t.at;
      if t.user {
        if t.automatic && t.start.Starts? {
          callStart := t.start.at;
          if at.None? { at := callStart; }
        } else if at.None? && callStart.Some? {
          if t.said.Some? { at := Some(callStart.value + t.said.value); }
        }
      }
      known[i] := at;
    }
    if n > 0 && known[n - 1].None? && lane.lastAt.Some? && lane.lastAt.value != 0 {
      known[n - 1] := lane.lastAt;
    }
  }

  /** The second pass over the array: each known time raised to the greatest before it. */
  method PutInOrder(lane: LaneTurns, known: array<Option<int>>)
    requires HoldsKnown(lane, known[..])
    modifies known
    ensures HoldsOrdered(lane, known[..], |lane.turns|)
  {
    var floor: Option<int> := None;
    for i := 0 to known.Length
      invariant floor == LatestKnown(lane, i)
      invariant HoldsOrdered(lane, known[..], i)
    {
      assert known[i] == known[..][i] == KnownTime(lane, i);
      if known[i].Some? {
        floor := if floor.Some? && floor.value > known[i].value then floor else known[i];
        known[i] := floor;
      }
    }
  }

  /** `laneTimes`: the times known, put in order in place, then the gaps filled. */
  method LaneTimes(lane: LaneTurns) returns (times: seq<Time>)
    ensures times == LaneTimesOf(lane)
  {
    var n := |lane.turns|;
    var known := new Option<int>[n];
    ReadTimes(lane, known);
    PutInOrder(lane, known);
    ghost var ordered := known[..];
    var j := 0;
    while j < n && known[j].None?
      invariant 0 <= j <= n
      invariant forall k :: 0 <= k < j ==> KnownTime(lane, k).None?
      invariant FirstKnown(lane, 0) == FirstKnown(lane, j)
    {
      assert known[j] == ordered[j];
      j := j + 1;
    }
    var first := None;
    if j < n {
      first := known[j];
      assert known[j] == ordered[j];
      NoneYet(lane, j);
    }
    var before: Option<int> := None;
    times := [];
    for i := 0 to n
      invariant before == LatestKnown(lane, i)
      invariant |times| == i
      invariant forall k :: 0 <= k < i ==> times[k] == TurnTime(lane, k)
    {
      assert known[i] == ordered[i];
      if known[i].Some? { before := known[i]; }
      times := times + [AsTime(if before.Some? then before else first)];
    }
  }

  // ---- The merge -----------------------------------------------------------------------

  function AllTimes(lanes: seq<LaneTurns>): (times: seq<seq<Time>>)
    ensures |times| == |lanes|
    ensures forall l :: 0 <= l < |lanes| ==> times[l] == LaneTimesOf(lanes[l])
  {
    seq(|lanes|, l requires 0 <= l < |lanes| => LaneTimesOf(lanes[l]))
  }

  predicate IsTurn(lanes: seq<LaneTurns>, e: Slot) {
    e.lane < |lanes| && e.index < |lanes[e.lane].turns|
  }

  predicate InLanes(lanes: seq<LaneTurns>, s: seq<Slot>) {
    forall i :: 0 <= i < |s| ==> s[i].lane < |lanes| && s[i].index < |lanes[s[i].lane].turns|
  }

  function TurnsAt(lanes: seq<LaneTurns>, s: seq<Slot>): (turns: seq<Turn>)
    requires InLanes(lanes, s)
    ensures |turns| == |s|
    ensures forall i :: 0 <= i < |s| ==> turns[i] == lanes[s[i].lane].turns[s[i].index]
  {
    seq(|s|, i requires 0 <= i < |s| => lanes[s[i].lane].turns[s[i].index])
  }

  ghost predicate Fits(lanes: seq<LaneTurns>, times: seq<seq<Time>>) {
    |times| == |lanes| && forall l :: 0 <= l < |lanes| ==> |times[l]| == |lanes[l].turns|
  }

  /** The lanes' turns in one order: the stable sort by `times` of a lane after another. */
  ghost function MergedBy(lanes: seq<LaneTurns>, times: seq<seq<Time>>): (out: seq<Turn>)
    requires Fits(lanes, times)
    ensures |out| == |InTimeOrder(times)|
  {
    var s := InTimeOrder(times);
    InTimeOrderHasAll(times);
    assert forall i :: 0 <= i < |s| ==> s[i] in s;
    TurnsAt(lanes, s)
  }

  /** The lanes' turns in one order, by `laneTimes`. */
  ghost function Merged(lanes: seq<LaneTurns>): seq<Turn> {
    MergedBy(lanes, AllTimes(lanes))
  }

  /** Each turn is in one place of one lane. */
  ghost predicate Apart(lanes: seq<LaneTurns>) {
    forall a, i, b, j ::
      (&& 0 <= a < |lanes| && 0 <= i < |lanes[a].turns|
       && 0 <= b < |lanes| && 0 <= j < |lanes[b].turns|
       && lanes[a].turns[i] == lanes[b].turns[j]) ==> a == b && i == j
  }

  ghost function TurnsOf(lanes: seq<LaneTurns>): set<Turn> {
    set l, i | 0 <= l < |lanes| && 0 <= i < |lanes[l].turns| :: lanes[l].turns[i]
  }

  /** The loop of both merges: the lane whose head is earliest, a tie to the lane listed first; None when all are over. */
  method PickLane(times: seq<seq<Time>>, next: seq<nat>) returns (pick: Option<nat>)
    requires Heads(times, next)
    ensures pick.None? <==> forall l: nat :: !IsHead(times, next, l)
    ensures pick.Some? ==> IsPick(times, next, pick.value, |times|)
  {
    pick := None;
    for l := 0 to |times|
      invariant pick.None? ==> forall k: nat :: k < l ==> !IsHead(times, next, k)
      invariant pick.Some? ==> pick.value < l && IsPick(times, next, pick.value, l)
    {
      if next[l] >= |times[l]| { continue; }
      if pick.None? || Earlier(times[l][next[l]], times[pick.value][next[pick.value]]) {
        pick := Some(l);
      }
    }
    assert pick.Some? ==> IsHead(times, next, pick.value);
  }

  method TimesOfLanes(lanes: seq<LaneTurns>) returns (times: seq<seq<Time>>)
    ensures times == AllTimes(lanes)
  {
    times := [];
    for l := 0 to |lanes|
      invariant |times| == l
      invariant forall k :: 0 <= k < l ==> times[k] == LaneTimesOf(lanes[k])
    {
      var one := LaneTimes(lanes[l]);
      times := times + [one];
    }
  }

  /** Where a merge is: `out` is the start of the order, and the rest is what is left of the lanes, sorted. */
  ghost predicate Merging(lanes: seq<LaneTurns>, times: seq<seq<Time>>, next: seq<nat>, out: seq<Turn>)
    requires Fits(lanes, times) && Heads(times, next)
  {
    var order := InTimeOrder(times);
    && |out| <= |order|
    && order[|out|..] == StableSort(Left(times, next, 0))
    && out == MergedBy(lanes, times)[..|out|]
  }

  lemma MergeStart(lanes: seq<LaneTurns>, times: seq<seq<Time>>)
    requires Fits(lanes, times)
    ensures Merging(lanes, times, seq(|lanes|, _ => 0), [])
  {
  }

  lemma MergeStep(lanes: seq<LaneTurns>, times: seq<seq<Time>>, next: seq<nat>, out: seq<Turn>, l: nat)
    requires Fits(lanes, times) && Heads(times, next) && Merging(lanes, times, next, out)
    requires forall k :: 0 <= k < |times| ==> NonDecreasing(times[k])
    requires IsPick(times, next, l, |lanes|)
    ensures Heads(times, next[l := next[l] + 1])
    ensures Merging(lanes, times, next[l := next[l] + 1], out + [lanes[l].turns[next[l]]])
  {
    PickIsFirst(times, next, l, 0);
    var order, done := InTimeOrder(times), |out|;
    assert order[done] == order[done..][0];
    assert order[done + 1..] == order[done..][1..];
  }

  lemma MergeEnd(lanes: seq<LaneTurns>, times: seq<seq<Time>>, next: seq<nat>, out: seq<Turn>)
    requires Fits(lanes, times) && Heads(times, next) && Merging(lanes, times, next, out)
    requires forall l: nat :: !IsHead(times, next, l)
    ensures out == MergedBy(lanes, times)
  {
    NothingLeft(times, next);
    assert InTimeOrder(times)[|out|..] == [];
  }

  ghost function ViaOf(lanes: seq<LaneTurns>): map<Turn, Option<Way>>
    reads TurnsOf(lanes)`via
  {
    map t | t in TurnsOf(lanes) :: t.via
  }

  /** Each turn out is marked with its lane (one with no way marks none); the others are as they were. */
  ghost predicate Marked(lanes: seq<LaneTurns>, next: seq<nat>, was: map<Turn, Option<Way>>)
    requires |next| == |lanes|
    requires was.Keys == TurnsOf(lanes)
    reads TurnsOf(lanes)`via
  {
    forall l, i :: 0 <= l < |lanes| && 0 <= i < |lanes[l].turns| ==>
      lanes[l].turns[i].via == if i < next[l] && lanes[l].via.Some? then lanes[l].via else was[lanes[l].turns[i]]
  }

  function Whole(lanes: seq<LaneTurns>): seq<nat> {
    seq(|lanes|, l requires 0 <= l < |lanes| => |lanes[l].turns|)
  }

  /** `mergeLanes`: the lanes' turns in one order, each marked with its lane. */
  method MergeLanes(lanes: seq<LaneTurns>) returns (out: seq<Turn>)
    modifies TurnsOf(lanes)`via
    ensures out == Merged(lanes)
    ensures Apart(lanes) ==> Marked(lanes, Whole(lanes), old(ViaOf(lanes)))
  {
    hide Merging, MergedBy, IsPick;
    var times := TimesOfLanes(lanes);
    forall k | 0 <= k < |times|
      ensures NonDecreasing(times[k])
    {
      TimesNeverFall(lanes[k]);
    }
    var next: seq<nat> := seq(|lanes|, _ => 0);
    ghost var was := ViaOf(lanes);
    out := [];
    MergeStart(lanes, times);
    var pick := PickLane(times, next);
    ghost var left := Count(lanes, next, 0);
    while pick.Some?
      invariant Heads(times, next) && Merging(lanes, times, next, out)
      invariant pick.None? <==> forall l: nat :: !IsHead(times, next, l)
      invariant pick.Some? ==> IsHead(times, next, pick.value) && IsPick(times, next, pick.value, |times|)
      invariant left == Count(lanes, next, 0)
      invariant Apart(lanes) ==> Marked(lanes, next, was)
      decreases left
    {
      var l := pick.value;
      MergeStep(lanes, times, next, out, l);
      CountFalls(lanes, next, l, 0);
      out := out + [lanes[l].turns[next[l]]];
      MarkOne(lanes, next, l, was);
      next := next[l := next[l] + 1];
      left := left - 1;
      pick := PickLane(times, next);
    }
    assert next == Whole(lanes) by {
      forall l: nat | l < |lanes|
        ensures next[l] == |lanes[l].turns|
      {
        assert !IsHead(times, next, l);
      }
    }
    MergeEnd(lanes, times, next, out);
  }

  method MarkOne(lanes: seq<LaneTurns>, next: seq<nat>, l: nat, ghost was: map<Turn, Option<Way>>)
    requires |next| == |lanes| && l < |lanes| && next[l] < |lanes[l].turns|
    requires was.Keys == TurnsOf(lanes)
    requires Apart(lanes) ==> Marked(lanes, next, was)
    modifies {lanes[l].turns[next[l]]}`via
    ensures Apart(lanes) ==> Marked(lanes, next[l := next[l] + 1], was)
  {
    if lanes[l].via.Some? {
      var turn := lanes[l].turns[next[l]];
      turn.via := lanes[l].via;
    }
  }

  /** How many turns are left of the lanes from lane `l` on. */
  ghost function Count(lanes: seq<LaneTurns>, next: seq<nat>, l: nat): nat
    requires |next| == |lanes| && l <= |lanes|
    requires forall k :: 0 <= k < |lanes| ==> next[k] <= |lanes[k].turns|
    decreases |lanes| - l
  {
    if l == |lanes| then 0 else |lanes[l].turns| - next[l] + Count(lanes, next, l + 1)
  }

  lemma {:induction false} CountFalls(lanes: seq<LaneTurns>, next: seq<nat>, pick: nat, l: nat)
    requires |next| == |lanes| && pick < |lanes| && l <= |lanes|
    requires forall k :: 0 <= k < |lanes| ==> next[k] <= |lanes[k].turns|
    requires next[pick] < |lanes[pick].turns|
    ensures Count(lanes, next[pick := next[pick] + 1], l) == Count(lanes, next, l) - if l <= pick then 1 else 0
    decreases |lanes| - l
  {
    if l < |lanes| {
      CountFalls(lanes, next, pick, l + 1);
    }
  }

  // ---- What a merge is -------------------------------------------------------------------

  lemma TurnsAtHas(lanes: seq<LaneTurns>, s: seq<Slot>)
    requires InLanes(lanes, s)
    ensures forall t :: t in TurnsAt(lanes, s) ==> t in TurnsOf(lanes)
  {
  }

  lemma {:induction false} TurnsAtOfLane(lanes: seq<LaneTurns>, s: seq<Slot>, l: nat)
    requires Apart(lanes) && InLanes(lanes, s) && l < |lanes|
    ensures InLanes(lanes, OfLane(s, l))
    ensures Only(TurnsAt(lanes, s), Elements(lanes[l].turns)) == TurnsAt(lanes, OfLane(s, l))
  {
    if s != [] {
      TurnsAtOfLane(lanes, s[1..], l);
      var t := TurnsAt(lanes, s);
      assert t[1..] == TurnsAt(lanes, s[1..]);
      assert t[0] in Elements(lanes[l].turns) <==> s[0].lane == l by {
        if t[0] in lanes[l].turns {
          var i :| 0 <= i < |lanes[l].turns| && lanes[l].turns[i] == t[0];
        }
      }
      if s[0].lane == l {
        assert OfLane(s, l) == [s[0]] + OfLane(s[1..], l);
        assert TurnsAt(lanes, OfLane(s, l)) == [t[0]] + TurnsAt(lanes, OfLane(s[1..], l));
      }
    }
  }

  /** A merge keeps each lane's own order, each turn once. */
  lemma MergedKeepsLane(lanes: seq<LaneTurns>, l: nat)
    requires Apart(lanes) && l < |lanes|
    ensures Only(Merged(lanes), Elements(lanes[l].turns)) == lanes[l].turns
  {
    TimesNeverFall(lanes[l]);
    InTimeOrderHasAll(AllTimes(lanes));
    InTimeOrderOfLane(AllTimes(lanes), l);
    TurnsAtOfLane(lanes, InTimeOrder(AllTimes(lanes)), l);
  }

  /** A merge has every turn of every lane, and nothing else, once. */
  lemma MergedHasAll(lanes: seq<LaneTurns>)
    requires Apart(lanes)
    ensures Elements(Merged(lanes)) == TurnsOf(lanes)
    ensures NoRepeats(Merged(lanes))
  {
    hide Merged;
    var out := Merged(lanes);
    MergedHasOnlyTheirs(lanes);
    forall t | t in TurnsOf(lanes)
      ensures t in out
    {
      var l, i :| 0 <= l < |lanes| && 0 <= i < |lanes[l].turns| && lanes[l].turns[i] == t;
      MergedKeepsLane(lanes, l);
      OnlyHas(out, Elements(lanes[l].turns));
    }
    forall i, j | 0 <= i < j < |out|
      ensures out[i] != out[j]
    {
      assert out[i] in out;
      var l, k :| 0 <= l < |lanes| && 0 <= k < |lanes[l].turns| && lanes[l].turns[k] == out[i];
      MergedOnce(lanes, l, i, j);
    }
  }

  lemma MergedOnce(lanes: seq<LaneTurns>, l: nat, i: nat, j: nat)
    requires Apart(lanes) && l < |lanes|
    requires i < j < |Merged(lanes)| && Merged(lanes)[i] in Elements(lanes[l].turns)
    ensures Merged(lanes)[i] != Merged(lanes)[j]
  {
    hide Merged;
    MergedKeepsLane(lanes, l);
    ApartHere(lanes, l);
    if Merged(lanes)[i] == Merged(lanes)[j] {
      TwiceKept(Merged(lanes), Elements(lanes[l].turns), i, j);
    }
  }

  lemma MergedHasOnlyTheirs(lanes: seq<LaneTurns>)
    ensures forall t :: t in Merged(lanes) ==> t in TurnsOf(lanes)
  {
    InTimeOrderHasAll(AllTimes(lanes));
    TurnsAtHas(lanes, InTimeOrder(AllTimes(lanes)));
  }

  lemma ApartHere(lanes: seq<LaneTurns>, l: nat)
    requires Apart(lanes) && l < |lanes|
    ensures NoRepeats(lanes[l].turns)
  {
  }

  lemma TwiceKept<T>(s: seq<T>, keep: set<T>, i: nat, j: nat)
    requires i < j < |s| && s[i] == s[j] && s[i] in keep
    ensures !NoRepeats(Only(s, keep))
  {
    var a, b := s[..j], s[j..];
    assert s == a + b;
    OnlyJoin(a, b, keep);
    OnlyHas(a, keep);
    OnlyHas(b, keep);
    assert s[i] == a[i] && s[j] == b[0];
    var x := s[i];
    assert x in Only(a, keep) && x in Only(b, keep);
    var p :| 0 <= p < |Only(a, keep)| && Only(a, keep)[p] == x;
    var q :| 0 <= q < |Only(b, keep)| && Only(b, keep)[q] == x;
    assert Only(s, keep)[p] == x && Only(s, keep)[|Only(a, keep)| + q] == x;
  }

  /** A merge is in order of time (each turn's by `laneTimes`), a tie to the lane listed first. */
  lemma MergedByTime(lanes: seq<LaneTurns>, i: nat, j: nat)
    requires i < j < |Merged(lanes)|
    ensures
      var a, b := InTimeOrder(AllTimes(lanes))[i], InTimeOrder(AllTimes(lanes))[j];
      && IsTurn(lanes, a) && IsTurn(lanes, b)
      && Merged(lanes)[i] == lanes[a.lane].turns[a.index] && Merged(lanes)[j] == lanes[b.lane].turns[b.index]
      && a.time == TurnTime(lanes[a.lane], a.index) && b.time == TurnTime(lanes[b.lane], b.index)
      && !Earlier(b.time, a.time)
      && (a.time == b.time ==> a.lane <= b.lane)
  {
    var times := AllTimes(lanes);
    InTimeOrderHasAll(times);
    assert InTimeOrder(times)[i] in InTimeOrder(times) && InTimeOrder(times)[j] in InTimeOrder(times);
    if InTimeOrder(times)[i].time == InTimeOrder(times)[j].time {
      forall k | 0 <= k < |times|
        ensures NonDecreasing(times[k])
      {
        TimesNeverFall(lanes[k]);
      }
      TiesToTheFirst(times, i, j);
    }
  }
}
