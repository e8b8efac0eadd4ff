/**
 * The phone's one line (class PhoneLine, app/src/phoneLine.ts): when a dial may
 * go. `After` is the line as its events make it, nothing let go of; `idle`
 * lets go of what it has not heard of for too long, in place.
 */
module PhoneLine {
  import opened Options

  type Id = string

  const CALM: int := 60_000
  const PLACED_LOST: int := 600_000
  const FOREIGN_LOST: int := 7_200_000
  const WAITING_LOST: int := 180_000

  datatype User = Callback | Outreach
  datatype Placed = Placed(user: User, callId: Option<Id>, operationId: Option<Id>, at: int)
  datatype Knock = Knock(on: Id, at: int)

  datatype Line = Line(placed: Option<Placed>, foreign: map<Id, int>, waiting: map<Id, Knock>, calmAt: int)

  const FREE := Line(None, map[], map[], 0)

  /** What comes to pass of the line: the phone's events, and the app's own dials. */
  datatype Step =
    | Incoming(call: Id) | Waits(call: Id, on: Id) | Dialling(call: Id) | Ended(call: Id) | Failed(operation: Id)
    | Take(user: User) | Bind(callId: Id, operationId: Id) | Release(user: User)

  function Max(a: int, b: int): int {
    if a > b then a else b
  }

  /** A dial heard of is the one the app placed. */
  predicate OwnDial(l: Line, call: Id) {
    l.placed.Some? && (l.placed.value.callId == Some(call) || l.placed.value.callId.None?)
  }

  predicate OwnFailure(l: Line, operation: Id) {
    l.placed.Some? && l.placed.value.operationId == Some(operation)
  }

  /** Those waiting, but for a call and those who knocked on it. */
  function WithoutKnocks(waiting: map<Id, Knock>, call: Id): map<Id, Knock> {
    map k | k in waiting && k != call && waiting[k].on != call :: waiting[k]
  }

  function Happens(l: Line, s: Step, now: int): Line {
    match s
    case Incoming(call) => if call == "" then l else l.(waiting := l.waiting - {call}, foreign := l.foreign[call := now])
    case Waits(call, on) => if call == "" then l else l.(waiting := l.waiting[call := Knock(on, now)])
    case Dialling(call) =>
      if call == "" then l
      else if OwnDial(l, call) then l.(placed := Some(l.placed.value.(callId := Some(call))))
      else l.(foreign := l.foreign[call := now])
    case Ended(call) =>
      l.(foreign := l.foreign - {call}, waiting := WithoutKnocks(l.waiting, call),
         placed := if l.placed.Some? && l.placed.value.callId == Some(call) then None else l.placed, calmAt := Max(l.calmAt, now + CALM))
    case Failed(operation) => if OwnFailure(l, operation) then l.(placed := None, calmAt := Max(l.calmAt, now + CALM)) else l
    case Take(user) => l.(placed := Some(Placed(user, None, None, now)))
    case Bind(callId, operationId) =>
      if l.placed.None? then l
      else
        var p := l.placed.value;
        l.(placed := Some(p.(callId := if callId != "" then Some(callId) else p.callId,
                             operationId := if operationId != "" then Some(operationId) else p.operationId)))
    case Release(user) => if l.placed.Some? && l.placed.value.user == user && l.placed.value.callId.None? then l.(placed := None) else l
  }

  // ---- What is let go of ----------------------------------------------------------------------

  predicate PlacedLost(l: Line, now: int) {
    l.placed.Some? && now - l.placed.value.at > PLACED_LOST
  }

  function Pruned(l: Line, now: int): Line {
    l.(placed := if PlacedLost(l, now) then None else l.placed,
       foreign := map c | c in l.foreign && now - l.foreign[c] <= FOREIGN_LOST :: l.foreign[c],
       waiting := map c | c in l.waiting && now - l.waiting[c].at <= WAITING_LOST :: l.waiting[c])
  }

  predicate Idle(l: Line, now: int, live: bool) {
    var p := Pruned(l, now);
    p.placed.None? && p.foreign == map[] && p.waiting == map[] && !live && now >= l.calmAt
  }

  /** A dial may go exactly when nothing heard of lately enough is on the line, none goes on here, and the calm is over. */
  lemma IdleIff(l: Line, now: int, live: bool)
    ensures Idle(l, now, live) <==>
      && (l.placed.Some? ==> now - l.placed.value.at > PLACED_LOST)
      && (forall c :: c in l.foreign ==> now - l.foreign[c] > FOREIGN_LOST)
      && (forall c :: c in l.waiting ==> now - l.waiting[c].at > WAITING_LOST)
      && !live && now >= l.calmAt
  {
    var p := Pruned(l, now);
    if p.foreign == map[] {
      forall c | c in l.foreign
        ensures now - l.foreign[c] > FOREIGN_LOST
      {
        assert c !in p.foreign;
      }
    }
    if p.waiting == map[] {
      forall c | c in l.waiting
        ensures now - l.waiting[c].at > WAITING_LOST
      {
        assert c !in p.waiting;
      }
    }
  }

  // ---- The line is what was heard --------------------------------------------------------------

  datatype Heard = Heard(step: Step, at: int)

  function After(h: seq<Heard>): Line {
    if h == [] then FREE else Happens(After(h[..|h| - 1]), h[|h| - 1].step, h[|h| - 1].at)
  }

  /** The `i`th brings another's call onto the line: it rings in, or is a dial that is not the app's. */
  predicate Brings(h: seq<Heard>, i: nat, call: Id)
    requires i < |h| && call != ""
  {
    h[i].step == Incoming(call) || (h[i].step == Dialling(call) && !OwnDial(After(h[..i]), call))
  }

  /** It is the last heard of the call, which has not ended since. */
  ghost predicate OnTheLine(h: seq<Heard>, i: nat, call: Id)
    requires call != ""
  {
    i < |h| && Brings(h, i, call) && forall j :: i < j < |h| ==> !Brings(h, j, call) && h[j].step != Ended(call)
  }

  /** Another's call is on the line from when it was last heard of, until it ends. */
  lemma {:induction false} ForeignIs(h: seq<Heard>, call: Id)
    requires call != ""
    ensures call in After(h).foreign <==> exists i: nat :: OnTheLine(h, i, call)
    ensures forall i: nat :: OnTheLine(h, i, call) ==> call in After(h).foreign && After(h).foreign[call] == h[i].at
  {
    if h != [] {
      var n := |h| - 1;
      var before := h[..n];
      ForeignIs(before, call);
      forall i: nat | i < n
        ensures Brings(h, i, call) == Brings(before, i, call)
      {
        assert before[..i] == h[..i];
      }
      LastOfForeign(h, call);
      if call in After(h).foreign {
        if Brings(h, n, call) {
          assert OnTheLine(h, n, call);
        } else {
          var i: nat :| OnTheLine(before, i, call);
          assert OnTheLine(h, i, call);
        }
      }
      forall i: nat | OnTheLine(h, i, call)
        ensures call in After(h).foreign && After(h).foreign[call] == h[i].at
      {
        if i < n {
          assert h[n].step != Ended(call) && !Brings(h, n, call);
          assert OnTheLine(before, i, call);
        }
      }
    }
  }

  lemma LastOfForeign(h: seq<Heard>, call: Id)
    requires h != [] && call != ""
    ensures
      var n := |h| - 1;
      var before := After(h[..n]).foreign;
      && (Brings(h, n, call) ==> call in After(h).foreign && After(h).foreign[call] == h[n].at)
      && (!Brings(h, n, call) ==> (call in After(h).foreign <==> call in before && h[n].step != Ended(call)))
      && (!Brings(h, n, call) && call in After(h).foreign ==> After(h).foreign[call] == before[call])
  {
    ForeignAfter(After(h[..|h| - 1]), h[|h| - 1].step, h[|h| - 1].at, call);
    hide Happens, OwnDial;
  }

  lemma ForeignAfter(l: Line, s: Step, now: int, call: Id)
    requires call != ""
    ensures
      var before, after := l.foreign, Happens(l, s, now).foreign;
      var brings := s == Incoming(call) || (s == Dialling(call) && !OwnDial(l, call));
      && (brings ==> call in after && after[call] == now)
      && (!brings ==> (call in after <==> call in before && s != Ended(call)))
      && (!brings && call in after ==> after[call] == before[call])
  {
    hide OwnFailure, Max;
    if s.Ended? {
    } else if s.Incoming? {
    } else if s.Dialling? {
    }
  }

  /** The last heard of a caller waiting: they have not rung in, nor ended, nor has the call they knocked on. */
  ghost predicate Waiting(h: seq<Heard>, i: nat, call: Id)
    requires call != ""
  {
    i < |h| && h[i].step.Waits? && h[i].step.call == call &&
    forall j :: i < j < |h| ==>
      h[j].step != Incoming(call) && h[j].step != Ended(call) && h[j].step != Ended(h[i].step.on) && !(h[j].step.Waits? && h[j].step.call == call)
  }

  lemma {:induction false} WaitingIs(h: seq<Heard>, call: Id)
    requires call != ""
    ensures call in After(h).waiting <==> exists i: nat :: Waiting(h, i, call)
    ensures forall i: nat :: Waiting(h, i, call) ==> call in After(h).waiting && After(h).waiting[call] == Knock(h[i].step.on, h[i].at)
  {
    if h != [] {
      var n := |h| - 1;
      var before := h[..n];
      WaitingIs(before, call);
      LastOfWaiting(h, call);
      if call in After(h).waiting {
        if h[n].step.Waits? && h[n].step.call == call {
          assert Waiting(h, n, call);
        } else {
          var i: nat :| Waiting(before, i, call);
          assert Waiting(h, i, call);
        }
      }
      forall i: nat | Waiting(h, i, call)
        ensures call in After(h).waiting && After(h).waiting[call] == Knock(h[i].step.on, h[i].at)
      {
        if i < n {
          assert Waiting(before, i, call);
        }
      }
    }
  }

  lemma LastOfWaiting(h: seq<Heard>, call: Id)
    requires h != [] && call != ""
    ensures
      var n := |h| - 1;
      var s, before, after := h[n].step, After(h[..n]).waiting, After(h).waiting;
      && (s.Waits? && s.call == call ==> call in after && after[call] == Knock(s.on, h[n].at))
      && (!(s.Waits? && s.call == call) ==>
        && (call in after <==> call in before && s != Incoming(call) && s != Ended(call) && s != Ended(before[call].on))
        && (call in after ==> after[call] == before[call]))
  {
    WaitingAfter(After(h[..|h| - 1]), h[|h| - 1].step, h[|h| - 1].at, call);
    hide Happens;
  }

  lemma WaitingAfter(l: Line, s: Step, now: int, call: Id)
    requires call != ""
    ensures
      var before, after := l.waiting, Happens(l, s, now).waiting;
      && (s.Waits? && s.call == call ==> call in after && after[call] == Knock(s.on, now))
      && (!(s.Waits? && s.call == call) ==>
        && (call in after <==> call in before && s != Incoming(call) && s != Ended(call) && s != Ended(before[call].on))
        && (call in after ==> after[call] == before[call]))
  {
    hide OwnDial, OwnFailure, Max;
    if s.Ended? {
    } else if s.Incoming? {
    } else if s.Waits? {
    }
  }

  /** The `i`th ends the app's own dial: its call ended, it failed, or it did not happen. */
  predicate GivesUp(h: seq<Heard>, i: nat)
    requires i < |h|
  {
    var before := After(h[..i]).placed;
    before.Some? && GivenUp(before.value, h[i].step)
  }

  /** The last dial of the app's, not given up since. */
  ghost predicate Placing(h: seq<Heard>, i: nat) {
    i < |h| && h[i].step.Take? && forall j :: i < j < |h| ==> !h[j].step.Take? && !GivesUp(h, j)
  }

  /** A dial of the app's is placed from when it was taken until it is given up. */
  lemma {:induction false} PlacedIs(h: seq<Heard>)
    ensures After(h).placed.Some? <==> exists i: nat :: Placing(h, i)
    ensures forall i: nat :: Placing(h, i) ==> After(h).placed.Some? && After(h).placed.value.at == h[i].at && After(h).placed.value.user == h[i].step.user
  {
    if h != [] {
      var n := |h| - 1;
      var before := h[..n];
      PlacedIs(before);
      forall i: nat | i < n
        ensures GivesUp(h, i) == GivesUp(before, i)
      {
        assert before[..i] == h[..i];
      }
      LastOfPlaced(h);
      if After(h).placed.Some? {
        if h[n].step.Take? {
          assert Placing(h, n);
        } else {
          var i: nat :| Placing(before, i);
          assert Placing(h, i);
        }
      }
      forall i: nat | Placing(h, i)
        ensures After(h).placed.Some? && After(h).placed.value.at == h[i].at && After(h).placed.value.user == h[i].step.user
      {
        if i < n {
          assert Placing(before, i);
        }
      }
    }
  }

  lemma LastOfPlaced(h: seq<Heard>)
    requires h != []
    ensures
      var n := |h| - 1;
      var before, after := After(h[..n]).placed, After(h).placed;
      && (h[n].step.Take? ==> after.Some? && after.value.at == h[n].at && after.value.user == h[n].step.user)
      && (!h[n].step.Take? ==> (after.Some? <==> before.Some? && !GivesUp(h, n)))
      && (!h[n].step.Take? && after.Some? ==> after.value.at == before.value.at && after.value.user == before.value.user)
  {
    PlacedAfter(After(h[..|h| - 1]), h[|h| - 1].step, h[|h| - 1].at);
    hide Happens;
  }

  predicate GivenUp(p: Placed, s: Step) {
    match s
    case Ended(call) => p.callId == Some(call)
    case Failed(operation) => p.operationId == Some(operation)
    case Release(user) => p.user == user && p.callId.None?
    case _ => false
  }

  lemma PlacedAfter(l: Line, s: Step, now: int)
    ensures
      var before, after := l.placed, Happens(l, s, now).placed;
      && (s.Take? ==> after.Some? && after.value.at == now && after.value.user == s.user)
      && (!s.Take? ==> (after.Some? <==> before.Some? && !GivenUp(before.value, s)))
      && (!s.Take? && after.Some? ==> after.value.at == before.value.at && after.value.user == before.value.user)
  {
    hide Max, WithoutKnocks;
    match s
    case Ended(_) =>
    case Failed(_) =>
    case Release(_) =>
    case Dialling(_) =>
    case _ =>
  }

  /** A call ended, or the app's own dial failed. */
  predicate Ends(h: seq<Heard>, i: nat)
    requires i < |h|
  {
    h[i].step.Ended? || (h[i].step.Failed? && OwnFailure(After(h[..i]), h[i].step.operation))
  }

  /** The calm is over exactly when a minute has passed since every end. */
  lemma {:induction false} CalmIs(h: seq<Heard>, now: int)
    requires now >= 0
    ensures now >= After(h).calmAt <==> forall i: nat :: i < |h| && Ends(h, i) ==> now >= h[i].at + CALM
  {
    if h != [] {
      var n := |h| - 1;
      var before := h[..n];
      CalmIs(before, now);
      forall i: nat | i < n
        ensures Ends(h, i) == Ends(before, i)
      {
        assert before[..i] == h[..i];
      }
      assert After(h).calmAt == if Ends(h, n) then Max(After(before).calmAt, h[n].at + CALM) else After(before).calmAt;
    }
  }

  /**
   * A dial may go exactly when, of what was heard, nothing is on the line still
   * but what is lost: no dial of the app's, no call of another's, no caller
   * waiting; and every end is a minute ago.
   */
  lemma IdleByHistory(h: seq<Heard>, now: int, live: bool)
    requires now >= 0
    ensures Idle(After(h), now, live) <==>
      && PlacedLong(h, now) && ForeignLost(h, now) && WaitingLost(h, now)
      && (forall i: nat :: i < |h| && Ends(h, i) ==> now >= h[i].at + CALM)
      && !live
  {
    IdleIff(After(h), now, live);
    CalmIs(h, now);
    hide Idle, ForeignLost, WaitingLost, PlacedLong, Ends, After;
    PlacedLapses(h, now);
    ForeignLapses(h, now);
    WaitingLapses(h, now);
  }

  /** Of what was heard, nothing is on the line but what is lost: calls of another's, and callers waiting. */
  ghost predicate ForeignLost(h: seq<Heard>, now: int) {
    forall i: nat, call: Id :: call != "" && i < |h| && OnTheLine(h, i, call) ==> now - h[i].at > FOREIGN_LOST
  }

  ghost predicate WaitingLost(h: seq<Heard>, now: int) {
    forall i: nat, call: Id :: call != "" && i < |h| && Waiting(h, i, call) ==> now - h[i].at > WAITING_LOST
  }

  ghost predicate PlacedLong(h: seq<Heard>, now: int) {
    forall i: nat :: i < |h| && Placing(h, i) ==> now - h[i].at > PLACED_LOST
  }

  lemma ForeignLapses(h: seq<Heard>, now: int)
    ensures ForeignLost(h, now) <==> forall c :: c in After(h).foreign ==> now - After(h).foreign[c] > FOREIGN_LOST
  {
    OnlyNamedCalls(h);
    hide After, Brings;
    if ForeignLost(h, now) {
      forall c | c in After(h).foreign
        ensures now - After(h).foreign[c] > FOREIGN_LOST
      {
        ForeignIs(h, c);
        var i: nat :| OnTheLine(h, i, c);
      }
    }
    if forall c :: c in After(h).foreign ==> now - After(h).foreign[c] > FOREIGN_LOST {
      forall i: nat, call: Id | call != "" && i < |h| && OnTheLine(h, i, call)
        ensures now - h[i].at > FOREIGN_LOST
      {
        ForeignIs(h, call);
      }
    }
  }

  lemma WaitingLapses(h: seq<Heard>, now: int)
    ensures WaitingLost(h, now) <==> forall c :: c in After(h).waiting ==> now - After(h).waiting[c].at > WAITING_LOST
  {
    OnlyNamedCalls(h);
    hide After;
    if WaitingLost(h, now) {
      forall c | c in After(h).waiting
        ensures now - After(h).waiting[c].at > WAITING_LOST
      {
        WaitingIs(h, c);
        var i: nat :| Waiting(h, i, c);
      }
    }
    if forall c :: c in After(h).waiting ==> now - After(h).waiting[c].at > WAITING_LOST {
      forall i: nat, call: Id | call != "" && i < |h| && Waiting(h, i, call)
        ensures now - h[i].at > WAITING_LOST
      {
        WaitingIs(h, call);
      }
    }
  }

  lemma PlacedLapses(h: seq<Heard>, now: int)
    ensures PlacedLong(h, now) <==> (After(h).placed.Some? ==> now - After(h).placed.value.at > PLACED_LOST)
  {
    hide After;
    PlacedIs(h);
    if After(h).placed.Some? {
      var i: nat :| Placing(h, i);
    }
  }

  lemma {:induction false} OnlyNamedCalls(h: seq<Heard>)
    ensures "" !in After(h).foreign && "" !in After(h).waiting
  {
    if h != [] {
      OnlyNamedCalls(h[..|h| - 1]);
    }
  }

  // ---- Left alone, the line is free in two hours --------------------------------------------------

  lemma {:induction false} NothingLater(h: seq<Heard>, last: int)
    requires (forall i :: 0 <= i < |h| ==> h[i].at <= last) && last >= 0
    ensures
      var l := After(h);
      && (l.placed.Some? ==> l.placed.value.at <= last) && l.calmAt <= last + CALM
      && (forall c :: c in l.foreign ==> l.foreign[c] <= last) && (forall c :: c in l.waiting ==> l.waiting[c].at <= last)
  {
    if h != [] {
      NothingLater(h[..|h| - 1], last);
      HappensBy(After(h[..|h| - 1]), h[|h| - 1].step, h[|h| - 1].at, last);
    }
  }

  lemma HappensBy(l: Line, s: Step, now: int, last: int)
    requires now <= last && (l.placed.Some? ==> l.placed.value.at <= last) && l.calmAt <= last + CALM
    requires (forall c :: c in l.foreign ==> l.foreign[c] <= last) && (forall c :: c in l.waiting ==> l.waiting[c].at <= last)
    ensures
      var m := Happens(l, s, now);
      && (m.placed.Some? ==> m.placed.value.at <= last) && m.calmAt <= last + CALM
      && (forall c :: c in m.foreign ==> m.foreign[c] <= last) && (forall c :: c in m.waiting ==> m.waiting[c].at <= last)
  {
  }

  /** With nothing more heard, a dial may go after two hours. */
  lemma FreeInTwoHours(h: seq<Heard>, last: int, now: int)
    requires (forall i :: 0 <= i < |h| ==> h[i].at <= last) && last >= 0 && now > last + FOREIGN_LOST
    ensures Idle(After(h), now, false)
  {
    NothingLater(h, last);
    IdleIff(After(h), now, false);
  }

  // ---- Letting go changes no later answer: when ------------------------------------------------------

  /** A line some of whose lost entries were let go of, and what it is without that. */
  ghost predicate Follows(whole: Line, kept: Line, now: int) {
    && kept.calmAt == whole.calmAt
    && (kept.placed == whole.placed || (kept.placed.None? && PlacedLost(whole, now)))
    && (forall c :: c in kept.foreign ==> c in whole.foreign && kept.foreign[c] == whole.foreign[c])
    && (forall c :: c in whole.foreign && c !in kept.foreign ==> now - whole.foreign[c] > FOREIGN_LOST)
    && (forall c :: c in kept.waiting ==> c in whole.waiting && kept.waiting[c] == whole.waiting[c])
    && (forall c :: c in whole.waiting && c !in kept.waiting ==> now - whole.waiting[c].at > WAITING_LOST)
  }

  /** What is heard is about a dial of the app's that was lost: its call dialled after all, or its failure. */
  predicate OfALostDial(l: Line, s: Step, now: int) {
    PlacedLost(l, now) && ((s.Dialling? && s.call != "" && OwnDial(l, s.call)) || (s.Failed? && OwnFailure(l, s.operation)))
  }

  lemma PruningFollows(whole: Line, kept: Line, now: int)
    requires Follows(whole, kept, now)
    ensures Follows(whole, Pruned(kept, now), now)
    ensures forall later, live :: later >= now ==> Idle(kept, later, live) == Idle(whole, later, live)
  {
    forall later, live | later >= now
      ensures Idle(kept, later, live) == Idle(whole, later, live)
    {
      IdleIff(kept, later, live);
      IdleIff(whole, later, live);
    }
  }

  lemma HappeningFollows(whole: Line, kept: Line, s: Step, from: int, now: int)
    requires Follows(whole, kept, from) && from <= now && !OfALostDial(whole, s, now)
    ensures Follows(Happens(whole, s, now), Happens(kept, s, now), now)
  {
    LaterFollows(whole, kept, from, now);
    if s.Ended? {
      EndedFollows(whole, kept, s.call, now);
    } else if s.Dialling? || s.Incoming? || s.Waits? {
      CallFollows(whole, kept, s, now);
    } else {
      DialFollows(whole, kept, s, now);
    }
  }

  lemma EndedFollows(whole: Line, kept: Line, call: Id, now: int)
    requires Follows(whole, kept, now)
    ensures Follows(Happens(whole, Ended(call), now), Happens(kept, Ended(call), now), now)
  {
    hide Max;
  }

  lemma CallFollows(whole: Line, kept: Line, s: Step, now: int)
    requires Follows(whole, kept, now) && !OfALostDial(whole, s, now) && (s.Dialling? || s.Incoming? || s.Waits?)
    ensures Follows(Happens(whole, s, now), Happens(kept, s, now), now)
  {
    hide Max;
  }

  lemma DialFollows(whole: Line, kept: Line, s: Step, now: int)
    requires Follows(whole, kept, now) && !OfALostDial(whole, s, now) && !(s.Dialling? || s.Incoming? || s.Waits? || s.Ended?)
    ensures Follows(Happens(whole, s, now), Happens(kept, s, now), now)
  {
    hide Max;
  }

  lemma LaterFollows(whole: Line, kept: Line, from: int, now: int)
    requires Follows(whole, kept, from) && from <= now
    ensures Follows(whole, kept, now)
  {
  }

  /** Steps, and looks that let go (a look is none), one after another, no time going back. */
  datatype Move = Hears(step: Step, at: int) | Looks(at: int)

  /** The line with what its looks let go of, and without. */
  function Both(moves: seq<Move>): (Line, Line) {
    if moves == [] then (FREE, FREE)
    else
      var (whole, kept) := Both(moves[..|moves| - 1]);
      match moves[|moves| - 1]
      case Hears(step, at) => (Happens(whole, step, at), Happens(kept, step, at))
      case Looks(at) => (whole, Pruned(kept, at))
  }

  ghost predicate InOrder(moves: seq<Move>, from: int) {
    && (forall i :: 0 <= i < |moves| ==> from <= moves[i].at)
    && (forall i, j :: 0 <= i < j < |moves| ==> moves[i].at <= moves[j].at)
  }

  /** No move is about a dial lost by then. */
  ghost predicate NoneOfALostDial(moves: seq<Move>) {
    forall i :: 0 <= i < |moves| && moves[i].Hears? ==> !OfALostDial(Both(moves[..i]).0, moves[i].step, moves[i].at)
  }

  lemma {:induction false} LettingGoFollows(moves: seq<Move>, now: int)
    requires InOrder(moves, 0) && NoneOfALostDial(moves) && now >= 0 && forall i :: 0 <= i < |moves| ==> moves[i].at <= now
    ensures Follows(Both(moves).0, Both(moves).1, now)
  {
    hide Happens, Pruned, Follows, OfALostDial;
    if moves == [] {
      FreeFollows(now);
    } else {
      var n := |moves| - 1;
      var before, at := moves[..n], moves[n].at;
      forall i | 0 <= i < n && before[i].Hears?
        ensures !OfALostDial(Both(before[..i]).0, before[i].step, before[i].at)
      {
        assert before[..i] == moves[..i];
      }
      LettingGoFollows(before, at);
      var (whole, kept) := Both(before);
      if moves[n].Hears? {
        HappeningFollows(whole, kept, moves[n].step, at, at);
      } else {
        PruningFollows(whole, kept, at);
      }
      LaterFollows(Both(moves).0, Both(moves).1, at, now);
    }
  }

  lemma FreeFollows(now: int)
    ensures Follows(FREE, FREE, now)
  {
  }

  /**
   * What `idle` lets go of as it looks never changes a later answer, as long as
   * nothing is heard of a dial of the app's after it was lost.
   */
  lemma LettingGoChangesNothing(moves: seq<Move>, now: int, live: bool)
    requires InOrder(moves, 0) && NoneOfALostDial(moves) && now >= 0 && forall i :: 0 <= i < |moves| ==> moves[i].at <= now
    ensures Idle(Both(moves).1, now, live) == Idle(Both(moves).0, now, live)
  {
    hide Idle;
    LettingGoFollows(moves, now);
    PruningFollows(Both(moves).0, Both(moves).1, now);
  }

  /**
   * It can otherwise: a dial placed, and heard of only after eleven minutes. A
   * look meanwhile makes it another's call, which keeps the line busy.
   */
  lemma ALostDialHeardOf()
    ensures
      var moves := [Hears(Take(Outreach), 0), Looks(660_000), Hears(Dialling("x"), 660_000)];
      InOrder(moves, 0) && Idle(Both(moves).0, 660_000, false) && !Idle(Both(moves).1, 660_000, false)
  {
    var moves := [Hears(Take(Outreach), 0), Looks(660_000), Hears(Dialling("x"), 660_000)];
    var m2, m1 := moves[..2], moves[..1];
    assert m2[..1] == m1 && m1[..0] == [];
    assert Both(m1) == (FREE.(placed := Some(Placed(Outreach, None, None, 0))), FREE.(placed := Some(Placed(Outreach, None, None, 0))));
    assert Both(m2).1 == Pruned(Both(m1).1, 660_000);
    IdleIff(Both(moves).0, 660_000, false);
    assert "x" in Both(moves).1.foreign;
    IdleIff(Both(moves).1, 660_000, false);
  }

  // ---- Letting go at one look: exactly when it matters ------------------------------------------------

  /** A line after what is heard of it from now on. */
  function From(l: Line, h: seq<Heard>): Line {
    if h == [] then l else Happens(From(l, h[..|h| - 1]), h[|h| - 1].step, h[|h| - 1].at)
  }

  /** What is heard from `now` until `later`, no time going back. */
  ghost predicate Between(h: seq<Heard>, now: int, later: int) {
    && now <= later && (forall i :: 0 <= i < |h| ==> now <= h[i].at <= later)
    && forall i, j :: 0 <= i < j < |h| ==> h[i].at <= h[j].at
  }

  /** Two lines answer alike, whatever is heard from now on. */
  ghost predicate AnswerAlike(a: Line, b: Line, now: int) {
    forall h: seq<Heard>, later: int, live: bool :: Between(h, now, later) ==> Idle(From(a, h), later, live) == Idle(From(b, h), later, live)
  }

  /** The app's own dial is known by an id that is one. */
  predicate Named(l: Line) {
    l.placed.Some? ==> l.placed.value.callId != Some("")
  }

  lemma {:induction false} AlwaysNamed(h: seq<Heard>)
    ensures Named(After(h))
  {
    if h != [] {
      AlwaysNamed(h[..|h| - 1]);
    }
  }

  lemma SamePlacedFollows(whole: Line, kept: Line, s: Step, now: int)
    requires Follows(whole, kept, now) && kept.placed == whole.placed
    ensures Follows(Happens(whole, s, now), Happens(kept, s, now), now) && Happens(kept, s, now).placed == Happens(whole, s, now).placed
  {
    hide Follows, Happens;
    if s.Ended? {
      EndedFollows(whole, kept, s.call, now);
      EndedPlaced(whole, kept, s.call, now);
    } else if s.Dialling? || s.Incoming? || s.Waits? {
      CallSamePlaced(whole, kept, s, now);
    } else {
      DialSamePlaced(whole, kept, s, now);
    }
  }

  lemma EndedPlaced(whole: Line, kept: Line, call: Id, now: int)
    requires kept.placed == whole.placed
    ensures Happens(kept, Ended(call), now).placed == Happens(whole, Ended(call), now).placed
  {
    hide WithoutKnocks, Max;
  }

  lemma CallSamePlaced(whole: Line, kept: Line, s: Step, now: int)
    requires Follows(whole, kept, now) && kept.placed == whole.placed && (s.Dialling? || s.Incoming? || s.Waits?)
    ensures Follows(Happens(whole, s, now), Happens(kept, s, now), now) && Happens(kept, s, now).placed == Happens(whole, s, now).placed
  {
  }

  lemma DialSamePlaced(whole: Line, kept: Line, s: Step, now: int)
    requires Follows(whole, kept, now) && kept.placed == whole.placed && !(s.Dialling? || s.Incoming? || s.Waits? || s.Ended?)
    ensures Follows(Happens(whole, s, now), Happens(kept, s, now), now) && Happens(kept, s, now).placed == Happens(whole, s, now).placed
  {
    hide Max;
  }

  lemma {:induction false} FromFollows(whole: Line, kept: Line, h: seq<Heard>, now: int, later: int)
    requires Follows(whole, kept, now) && kept.placed == whole.placed && Between(h, now, later)
    ensures Follows(From(whole, h), From(kept, h), later) && From(kept, h).placed == From(whole, h).placed
  {
    hide Happens, Follows;
    if h == [] {
      LaterFollows(whole, kept, now, later);
    } else {
      var n := |h| - 1;
      FromFollows(whole, kept, h[..n], now, h[n].at);
      SamePlacedFollows(From(whole, h[..n]), From(kept, h[..n]), h[n].step, h[n].at);
      LaterFollows(From(whole, h), From(kept, h), h[n].at, later);
    }
  }

  /** A time after all of a finite map. */
  lemma {:induction false} LatestOf(times: map<Id, int>, from: int) returns (t: int)
    ensures t >= from && forall c :: c in times ==> times[c] <= t
    decreases |times|
  {
    if times == map[] {
      t := from;
    } else {
      var c :| c in times;
      var rest := times - {c};
      assert |rest.Keys| < |times.Keys| by { assert times.Keys == rest.Keys + {c}; }
      var u := LatestOf(rest, from);
      t := if times[c] > u then times[c] else u;
      forall k | k in times
        ensures times[k] <= t
      {
        assert k != c ==> k in rest && rest[k] == times[k];
      }
    }
  }

  lemma FromOne(l: Line, one: Heard)
    ensures From(l, [one]) == Happens(l, one.step, one.at)
  {
    hide Happens;
    assert [one][..0] == [];
    assert From(l, []) == l;
  }

  /** The app's lost dial, heard of once all else is over: its call, or any when it has none. */
  lemma LostDialMatters(l: Line, now: int)
    requires PlacedLost(l, now) && Named(l)
    ensures !AnswerAlike(Pruned(l, now), l, now)
  {
    var call := if l.placed.value.callId.Some? then l.placed.value.callId.value else "x";
    var u := LatestOf(l.foreign, now);
    var v := LatestOf(map c | c in l.waiting :: l.waiting[c].at, u);
    var t := (if v > l.calmAt then v else l.calmAt) + FOREIGN_LOST + 1;
    var h := [Heard(Dialling(call), t)];
    FromOne(l, h[0]);
    FromOne(Pruned(l, now), h[0]);
    var whole, kept := From(l, h), From(Pruned(l, now), h);
    forall c | c in l.waiting
      ensures l.waiting[c].at <= v
    {
      assert c in (map c | c in l.waiting :: l.waiting[c].at);
    }
    IdleIff(whole, t, false);
    IdleIff(kept, t, false);
    assert call in kept.foreign && kept.foreign[call] == t;
    assert Between(h, now, t);
  }

  /**
   * Letting go of what is lost as it looks changes no later answer, whatever is
   * heard after, exactly when no dial of the app's is among it.
   */
  lemma LettingGoIff(l: Line, now: int)
    requires Named(l)
    ensures AnswerAlike(Pruned(l, now), l, now) <==> !PlacedLost(l, now)
  {
    if PlacedLost(l, now) {
      LostDialMatters(l, now);
    } else {
      hide Idle, Happens;
      assert Follows(l, Pruned(l, now), now);
      forall h: seq<Heard>, later: int, live: bool | Between(h, now, later)
        ensures Idle(From(Pruned(l, now), h), later, live) == Idle(From(l, h), later, live)
      {
        FromFollows(l, Pruned(l, now), h, now, later);
        PruningFollows(From(l, h), From(Pruned(l, now), h), later);
      }
    }
  }

  /** So it is of every line that was heard of. */
  lemma LettingGoOfHeard(h: seq<Heard>, now: int)
    ensures AnswerAlike(Pruned(After(h), now), After(h), now) <==> !PlacedLost(After(h), now)
  {
    hide AnswerAlike, PlacedLost;
    AlwaysNamed(h);
    LettingGoIff(After(h), now);
  }

  // ---- The class ----------------------------------------------------------------------------------------

  lemma SameKnocks(left: map<Id, Knock>, all: map<Id, Knock>, call: Id)
    requires forall k :: k in left ==> k in all && left[k] == all[k]
    requires forall k :: k in all ==> (k in left <==> k != call && all[k].on != call)
    ensures left == WithoutKnocks(all, call)
  {
  }

  class TheLine {
    var placed: Option<Placed>
    var foreign: map<Id, int>
    var waiting: map<Id, Knock>
    var calmAt: int

    constructor ()
      ensures Now() == FREE
    {
      placed, foreign, waiting, calmAt := None, map[], map[], 0;
    }

    function Now(): Line
      reads this
    {
      Line(placed, foreign, waiting, calmAt)
    }

    /** The end of a call: off the line with it go its knocks, and the app's dial where it was that; the calm begins. */
    method HearEnd(call: Id, now: int)
      modifies this
      ensures Now() == Happens(old(Now()), Ended(call), now)
    {
      foreign := foreign - {call};
      DropKnocks(call);
      if placed.Some? && placed.value.callId == Some(call) {
        placed := None;
      }
      calmAt := Max(calmAt, now + CALM);
    }

    /** It waits no more, nor does anyone who knocked on it. */
    method DropKnocks(call: Id)
      modifies this
      ensures Now() == old(Now()).(waiting := WithoutKnocks(old(waiting), call))
    {
      waiting := waiting - {call};
      var left := waiting.Keys;
      while left != {}
        invariant left <= waiting.Keys <= old(waiting).Keys && call !in waiting
        invariant forall k :: k in waiting ==> waiting[k] == old(waiting)[k]
        invariant forall k :: k in old(waiting) && k !in left && k != call ==> (k in waiting <==> old(waiting)[k].on != call)
        invariant Now() == old(Now()).(waiting := waiting)
        decreases |left|
      {
        var k :| k in left;
        left := left - {k};
        if waiting[k].on == call {
          waiting := waiting - {k};
        }
      }
      SameKnocks(waiting, old(waiting), call);
    }

    method Hear(s: Step, now: int)
      modifies this
      ensures Now() == Happens(old(Now()), s, now)
    {
      match s
      case Incoming(call) =>
        if call != "" {
          waiting := waiting - {call};
          foreign := foreign[call := now];
        }
      case Waits(call, on) =>
        if call != "" {
          waiting := waiting[call := Knock(on, now)];
        }
      case Dialling(call) =>
        if call != "" {
          if placed.Some? && (placed.value.callId == Some(call) || placed.value.callId.None?) {
            placed := Some(placed.value.(callId := Some(call)));
          } else {
            foreign := foreign[call := now];
          }
        }
      case Ended(call) => HearEnd(call, now);
      case Failed(operation) =>
        if placed.Some? && placed.value.operationId == Some(operation) {
          placed := None;
          calmAt := Max(calmAt, now + CALM);
        }
      case Take(user) => placed := Some(Placed(user, None, None, now));
      case Bind(callId, operationId) =>
        if placed.Some? {
          if callId != "" {
            placed := Some(placed.value.(callId := Some(callId)));
          }
          if operationId != "" {
            placed := Some(placed.value.(operationId := Some(operationId)));
          }
        }
      case Release(user) =>
        if placed.Some? && placed.value.user == user && placed.value.callId.None? {
          placed := None;
        }
    }

    /** Whether a dial may go now; what was not heard of for too long is let go of. */
    method LookIdle(now: int, live: bool) returns (idle: bool)
      modifies this
      ensures idle == Idle(old(Now()), now, live) && Now() == Pruned(old(Now()), now)
    {
      if placed.Some? && now - placed.value.at > PLACED_LOST {
        placed := None;
      }
      PruneForeign(now);
      PruneWaiting(now);
      idle := placed.None? && foreign == map[] && waiting == map[] && !live && now >= calmAt;
    }

    method PruneForeign(now: int)
      modifies this
      ensures Now() == old(Now()).(foreign := Pruned(old(Now()), now).foreign)
    {
      var left := foreign.Keys;
      while left != {}
        invariant left <= foreign.Keys <= old(foreign).Keys
        invariant forall k :: k in foreign ==> foreign[k] == old(foreign)[k]
        invariant forall k :: k in old(foreign) && k !in left ==> (k in foreign <==> now - old(foreign)[k] <= FOREIGN_LOST)
        invariant waiting == old(waiting) && placed == old(placed) && calmAt == old(calmAt)
        decreases |left|
      {
        var k :| k in left;
        left := left - {k};
        if now - foreign[k] > FOREIGN_LOST {
          foreign := foreign - {k};
        }
      }
      assert foreign == Pruned(old(Now()), now).foreign;
    }

    method PruneWaiting(now: int)
      modifies this
      ensures Now() == old(Now()).(waiting := Pruned(old(Now()), now).waiting)
    {
      var left := waiting.Keys;
      while left != {}
        invariant left <= waiting.Keys <= old(waiting).Keys
        invariant forall k :: k in waiting ==> waiting[k] == old(waiting)[k]
        invariant forall k :: k in old(waiting) && k !in left ==> (k in waiting <==> now - old(waiting)[k].at <= WAITING_LOST)
        invariant foreign == old(foreign) && placed == old(placed) && calmAt == old(calmAt)
        decreases |left|
      {
        var k :| k in left;
        left := left - {k};
        if now - waiting[k].at > WAITING_LOST {
          waiting := waiting - {k};
        }
      }
      assert waiting == Pruned(old(Now()), now).waiting;
    }
  }
}
