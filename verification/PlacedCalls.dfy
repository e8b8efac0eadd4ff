/**
 * Which call a dial on the phone's line is (app/src/phoneLine.ts:52-103): told
 * from what was heard since it was taken.
 */
module PlacedCalls {
  import opened Options
  import opened PhoneLine

  predicate BindsCall(s: Step) {
    s.Bind? && s.callId != ""
  }

  predicate BindsOperation(s: Step) {
    s.Bind? && s.operationId != ""
  }

  predicate Dials(s: Step) {
    s.Dialling? && s.call != ""
  }

  /** The last after `i` to say which call the dial is. */
  ghost predicate CallBound(h: seq<Heard>, i: nat, j: nat) {
    i < j < |h| && BindsCall(h[j].step) && forall k :: j < k < |h| ==> !BindsCall(h[k].step)
  }

  ghost predicate OperationBound(h: seq<Heard>, i: nat, j: nat) {
    i < j < |h| && BindsOperation(h[j].step) && forall k :: j < k < |h| ==> !BindsOperation(h[k].step)
  }

  /** The first call heard dialled after `i`, none having been bound. */
  ghost predicate FirstDialled(h: seq<Heard>, i: nat, j: nat) {
    && i < j < |h| && Dials(h[j].step) && (forall k :: i < k < j ==> !Dials(h[k].step))
    && forall k :: i < k < |h| ==> !BindsCall(h[k].step)
  }

  /** A dial taken at `i` is of the call it was bound to last; bound to none, of the first heard dialled since it was taken. */
  ghost predicate CallOf(h: seq<Heard>, i: nat, callId: Option<Id>) {
    && (callId.None? <==> forall k :: i < k < |h| ==> !BindsCall(h[k].step) && !Dials(h[k].step))
    && (callId.Some? ==>
      || (exists j: nat :: CallBound(h, i, j) && h[j].step.callId == callId.value)
      || (exists j: nat :: FirstDialled(h, i, j) && h[j].step.call == callId.value))
  }

  /** And of the operation it was bound to last. */
  ghost predicate OperationOf(h: seq<Heard>, i: nat, operationId: Option<Id>) {
    && (operationId.None? <==> forall k :: i < k < |h| ==> !BindsOperation(h[k].step))
    && (operationId.Some? ==> exists j: nat :: OperationBound(h, i, j) && h[j].step.operationId == operationId.value)
  }

  /** The dial on the line is of that call and that operation. */
  lemma {:induction false} DialIsOf(h: seq<Heard>, i: nat)
    requires Placing(h, i)
    ensures After(h).placed.Some? && CallOf(h, i, After(h).placed.value.callId) && OperationOf(h, i, After(h).placed.value.operationId)
  {
    PlacedIs(h);
    var n := |h| - 1;
    if i < n {
      var before := h[..n];
      StillPlacing(h, i);
      PlacedIs(before);
      DialIsOf(before, i);
      hide CallOf, OperationOf;
      IdsAfter(After(before), h[n].step, h[n].at);
      CallGoesOn(h, i, After(before).placed.value, After(h).placed.value);
      OperationGoesOn(h, i, After(before).placed.value, After(h).placed.value);
    } else {
      assert After(h).placed == Some(Placed(h[n].step.user, None, None, h[n].at));
    }
  }

  lemma StillPlacing(h: seq<Heard>, i: nat)
    requires Placing(h, i) && i < |h| - 1
    ensures Placing(h[..|h| - 1], i)
  {
    var before := h[..|h| - 1];
    forall j: nat | j < |before|
      ensures GivesUp(h, j) == GivesUp(before, j)
    {
      assert before[..j] == h[..j];
    }
  }

  lemma CallGoesOn(h: seq<Heard>, i: nat, p: Placed, q: Placed)
    requires i < |h| - 1 && CallOf(h[..|h| - 1], i, p.callId) && Goes(p, q, h[|h| - 1].step)
    ensures CallOf(h, i, q.callId)
  {
    var n := |h| - 1;
    var s := h[n].step;
    hide CallOf;
    if BindsCall(s) {
      NowBound(h, i);
    } else if p.callId.None? {
      FirstOf(h, i, q);
    } else {
      StillOf(h, i, p.callId.value);
    }
  }

  lemma NowBound(h: seq<Heard>, i: nat)
    requires i < |h| - 1 && BindsCall(h[|h| - 1].step)
    ensures CallOf(h, i, Some(h[|h| - 1].step.callId))
  {
    assert CallBound(h, i, |h| - 1);
  }

  lemma FirstOf(h: seq<Heard>, i: nat, q: Placed)
    requires i < |h| - 1 && CallOf(h[..|h| - 1], i, None) && !BindsCall(h[|h| - 1].step)
    requires q.callId == if Dials(h[|h| - 1].step) then Some(h[|h| - 1].step.call) else None
    ensures CallOf(h, i, q.callId)
  {
    var n := |h| - 1;
    var before := h[..n];
    forall k | i < k < n
      ensures !BindsCall(h[k].step) && !Dials(h[k].step)
    {
      assert before[k] == h[k];
    }
    if Dials(h[n].step) {
      assert FirstDialled(h, i, n);
    }
  }

  lemma StillOf(h: seq<Heard>, i: nat, call: Id)
    requires i < |h| - 1 && CallOf(h[..|h| - 1], i, Some(call)) && !BindsCall(h[|h| - 1].step)
    ensures CallOf(h, i, Some(call))
  {
    var before := h[..|h| - 1];
    var k :| i < k < |before| && (BindsCall(before[k].step) || Dials(before[k].step));
    assert h[k] == before[k];
    if exists j: nat :: CallBound(before, i, j) && before[j].step.callId == call {
      var j: nat :| CallBound(before, i, j) && before[j].step.callId == call;
      StillBound(h, i, j);
    } else {
      var j: nat :| FirstDialled(before, i, j) && before[j].step.call == call;
      StillFirst(h, i, j);
    }
  }

  lemma StillBound(h: seq<Heard>, i: nat, j: nat)
    requires |h| > 0 && CallBound(h[..|h| - 1], i, j) && !BindsCall(h[|h| - 1].step)
    ensures CallBound(h, i, j)
  {
  }

  lemma StillFirst(h: seq<Heard>, i: nat, j: nat)
    requires |h| > 0 && FirstDialled(h[..|h| - 1], i, j) && !BindsCall(h[|h| - 1].step)
    ensures FirstDialled(h, i, j)
  {
  }

  lemma OperationGoesOn(h: seq<Heard>, i: nat, p: Placed, q: Placed)
    requires i < |h| - 1 && OperationOf(h[..|h| - 1], i, p.operationId) && Goes(p, q, h[|h| - 1].step)
    ensures OperationOf(h, i, q.operationId)
  {
    var n := |h| - 1;
    var before, s := h[..n], h[n].step;
    if BindsOperation(s) {
      assert OperationBound(h, i, n);
    } else if p.operationId.Some? {
      var j: nat :| OperationBound(before, i, j) && before[j].step.operationId == p.operationId.value;
      assert OperationBound(h, i, j);
    }
  }

  predicate Goes(p: Placed, q: Placed, s: Step) {
    && q.callId == (if BindsCall(s) then Some(s.callId) else if Dials(s) && p.callId.None? then Some(s.call) else p.callId)
    && q.operationId == if BindsOperation(s) then Some(s.operationId) else p.operationId
  }

  lemma IdsAfter(l: Line, s: Step, now: int)
    requires l.placed.Some? && Happens(l, s, now).placed.Some? && !s.Take?
    ensures
      var p, q := l.placed.value, Happens(l, s, now).placed.value;
      Goes(p, q, s)
  {
    hide Max;
  }
}
