/**
 * What a person's merged note says (mergeCallers, app/src/threads.ts:165-197):
 * the newest name, notes and owner's facts given, and each fact once.
 */
module NotesMerged {
  import opened Options
  import opened Subsequences
  import opened Sorting
  import opened People

  // ---- Whose note is whose ------------------------------------------------------------------

  /** The first of the notes that is for `key`. */
  ghost predicate FirstFor(p: Rules, out: seq<Note>, key: string, k: nat) {
    k < |out| && IsTheirs(p, out[k].number, key) && forall j :: 0 <= j < k ==> !IsTheirs(p, out[j].number, key)
  }

  /** The `i`th of the notes, as they came, went into the `k`th kept. */
  ghost predicate WentInto(p: Rules, notes: seq<Note>, i: nat, k: nat) {
    i < |notes| && FirstFor(p, AddNotes(p, notes).notes, KeyOf(p, notes[i].number), k)
  }

  /** What a note may say. */
  datatype What = TheName | TheNotes | TheOwnersFacts

  predicate Says(n: Note, what: What) {
    match what
    case TheName => n.name != ""
    case TheNotes => n.notes != ""
    case TheOwnersFacts => n.ownerFacts != []
  }

  predicate Alike(a: Note, b: Note, what: What) {
    match what
    case TheName => a.name == b.name && a.nameBy == b.nameBy
    case TheNotes => a.notes == b.notes
    case TheOwnersFacts => a.ownerFacts == b.ownerFacts
  }

  /** The last of those that went into it to say so. */
  ghost predicate LastToSay(p: Rules, notes: seq<Note>, i: nat, k: nat, what: What) {
    WentInto(p, notes, i, k) && Says(notes[i], what) && forall j :: i < j < |notes| && WentInto(p, notes, j, k) ==> !Says(notes[j], what)
  }

  ghost predicate TakenIn(p: Rules, notes: seq<Note>, k: nat)
    requires notes != []
  {
    var n := |notes| - 1;
    var before, out := AddNotes(p, notes[..n]).notes, AddNotes(p, notes).notes;
    && |before| <= |out| && (forall j :: 0 <= j < |before| ==> out[j].number == before[j].number)
    && WentInto(p, notes, n, k) && (forall j :: 0 <= j < |before| && j != k ==> out[j] == before[j])
    && (k < |before| ==> |out| == |before| && out[k] == Joined(p, before[k], notes[n]))
    && (k >= |before| ==> k == |before| && |out| == k + 1 && out[k] == notes[n].(number := KeyOf(p, notes[n].number)))
  }

  /** One note more: the first kept for it takes it in, or it is kept anew under its key; the others stay. */
  lemma OneMore(p: Rules, notes: seq<Note>) returns (k: nat)
    requires notes != []
    ensures TakenIn(p, notes, k)
  {
    hide KeyOf, Joined, IsTheirs;
    var n := |notes| - 1;
    var c, key := AddNotes(p, notes[..n]), KeyOf(p, notes[n].number);
    var same := FindNote(p, c.notes, key, 0);
    var out := AddNotes(p, notes).notes;
    k := if same.Some? then same.value else |c.notes|;
    if same.Some? {
      JoinedNumber(p, c.notes[k], notes[n]);
      IsFirst(p, c.notes, key, 0);
    } else {
      Itself(p, key);
    }
    assert FirstFor(p, out, key, k);
  }

  lemma {:induction false} IsFirst(p: Rules, out: seq<Note>, key: string, from: nat)
    requires from <= |out| && FindNote(p, out, key, from).Some?
    ensures forall j :: from <= j < FindNote(p, out, key, from).value ==> !IsTheirs(p, out[j].number, key)
    decreases |out| - from
  {
    if !IsTheirs(p, out[from].number, key) {
      IsFirst(p, out, key, from + 1);
    }
  }

  /** Where a note went stays so as others come. */
  lemma WentBefore(p: Rules, notes: seq<Note>, i: nat, k: nat)
    requires i < |notes| - 1
    ensures WentInto(p, notes, i, k) <==> WentInto(p, notes[..|notes| - 1], i, k)
  {
    hide KeyOf, IsTheirs, AddNotes, Joined;
    var n := |notes| - 1;
    var before := notes[..n];
    var l := OneMore(p, notes);
    EveryoneIsNoted(p, before, i);
  }

  /** A note is kept only for those that went into it. */
  lemma {:induction false} SomeoneWent(p: Rules, notes: seq<Note>, k: nat) returns (i: nat)
    requires k < |AddNotes(p, notes).notes|
    ensures i < |notes| && WentInto(p, notes, i, k) && AddNotes(p, notes).notes[k].number == KeyOf(p, notes[i].number)
    ensures forall j :: 0 <= j < i ==> !WentInto(p, notes, j, k)
  {
    hide KeyOf, IsTheirs, Joined, WentInto;
    var n := |notes| - 1;
    var before := notes[..n];
    var l := OneMore(p, notes);
    hide AddNotes;
    if k < |AddNotes(p, before).notes| {
      i := SomeoneWent(p, before, k);
      assert WentInto(p, notes, i, k) by { WentBefore(p, notes, i, k); }
    } else {
      i := n;
    }
    forall j | 0 <= j < i
      ensures !WentInto(p, notes, j, k)
    {
      WentBefore(p, notes, j, k);
      WentWithin(p, before, j, k);
    }
  }

  lemma WentWithin(p: Rules, notes: seq<Note>, i: nat, k: nat)
    ensures WentInto(p, notes, i, k) ==> i < |notes| && k < |AddNotes(p, notes).notes|
  {
  }

  // ---- What it says ------------------------------------------------------------------------------

  /** Whose name, notes and owner's facts are kept: the last's to give any. */
  lemma {:induction false} LastSaid(p: Rules, notes: seq<Note>, i: nat, k: nat, what: What)
    requires LastToSay(p, notes, i, k, what)
    ensures k < |AddNotes(p, notes).notes| && Alike(AddNotes(p, notes).notes[k], notes[i], what)
  {
    WentWithin(p, notes, i, k);
    hide KeyOf, IsTheirs, WentInto, Joined;
    var n := |notes| - 1;
    var before := notes[..n];
    var l := OneMore(p, notes);
    hide AddNotes;
    if i < n {
      forall j | 0 <= j < n
        ensures WentInto(p, notes, j, k) <==> WentInto(p, before, j, k)
      {
        WentBefore(p, notes, j, k);
      }
      assert LastToSay(p, before, i, k, what);
      LastSaid(p, before, i, k, what);
      if l == k {
        JoinedSays(p, AddNotes(p, before).notes[k], notes[n], what);
      }
    } else {
      WentOnce(p, notes, n, k, l);
      if k < |AddNotes(p, before).notes| {
        JoinedSays(p, AddNotes(p, before).notes[k], notes[n], what);
      }
    }
  }

  lemma JoinedSays(p: Rules, kept: Note, note: Note, what: What)
    ensures Alike(Joined(p, kept, note), if Says(note, what) then note else kept, what)
  {
  }

  lemma WentOnce(p: Rules, notes: seq<Note>, i: nat, k: nat, l: nat)
    requires WentInto(p, notes, i, k) && WentInto(p, notes, i, l)
    ensures k == l
  {
    hide IsTheirs;
    assert k < l || l < k || k == l;
  }

  /** Where none said any, none is kept: and the number is the first one's key. */
  lemma {:induction false} NoneSaid(p: Rules, notes: seq<Note>, k: nat, what: What)
    requires k < |AddNotes(p, notes).notes| && forall i :: 0 <= i < |notes| && WentInto(p, notes, i, k) ==> !Says(notes[i], what)
    ensures !Says(AddNotes(p, notes).notes[k], what)
  {
    hide KeyOf, IsTheirs, WentInto, Joined;
    var n := |notes| - 1;
    var before := notes[..n];
    var l := OneMore(p, notes);
    hide AddNotes;
    if k < |AddNotes(p, before).notes| {
      forall j | 0 <= j < n && WentInto(p, before, j, k)
        ensures !Says(before[j], what)
      {
        WentBefore(p, notes, j, k);
      }
      NoneSaid(p, before, k, what);
      if l == k {
        JoinedSays(p, AddNotes(p, before).notes[k], notes[n], what);
        SaysLike(Joined(p, AddNotes(p, before).notes[k], notes[n]), AddNotes(p, before).notes[k], what);
      }
    }
  }

  lemma SaysLike(a: Note, b: Note, what: What)
    requires Alike(a, b, what)
    ensures Says(a, what) <==> Says(b, what)
  {
  }

  /** When it was last updated: the latest of those that went into it. */
  lemma {:induction false} LatestUpdate(p: Rules, notes: seq<Note>, k: nat)
    requires k < |AddNotes(p, notes).notes|
    ensures forall i :: 0 <= i < |notes| && WentInto(p, notes, i, k) ==> notes[i].updatedAt <= AddNotes(p, notes).notes[k].updatedAt
    ensures exists i :: 0 <= i < |notes| && WentInto(p, notes, i, k) && notes[i].updatedAt == AddNotes(p, notes).notes[k].updatedAt
  {
    hide KeyOf, IsTheirs, WentInto, Joined;
    var n := |notes| - 1;
    var before := notes[..n];
    var l := OneMore(p, notes);
    hide AddNotes;
    forall j | 0 <= j < n
      ensures WentInto(p, notes, j, k) <==> WentInto(p, before, j, k)
    {
      WentBefore(p, notes, j, k);
    }
    if k < |AddNotes(p, before).notes| {
      LatestUpdate(p, before, k);
      var i :| 0 <= i < n && WentInto(p, before, i, k) && before[i].updatedAt == AddNotes(p, before).notes[k].updatedAt;
      assert WentInto(p, notes, i, k);
      JoinedUpdate(p, AddNotes(p, before).notes[k], notes[n]);
    } else {
      forall j | 0 <= j < n
        ensures !WentInto(p, notes, j, k)
      {
        WentWithin(p, before, j, k);
      }
      assert WentInto(p, notes, n, k);
    }
    if WentInto(p, notes, n, k) {
      WentOnce(p, notes, n, k, l);
    }
  }

  lemma JoinedUpdate(p: Rules, kept: Note, note: Note)
    ensures
      var joined := Joined(p, kept, note).updatedAt;
      joined >= kept.updatedAt && joined >= note.updatedAt && (joined == kept.updatedAt || joined == note.updatedAt)
  {
  }

  // ---- Facts once each ---------------------------------------------------------------------------------

  /** No two facts are one, whatever their case. */
  ghost predicate EachOnce(facts: seq<string>, lower: string -> string) {
    forall i, j :: 0 <= i < j < |facts| ==> lower(facts[i]) != lower(facts[j])
  }

  ghost predicate InTurn(at: seq<nat>, n: nat) {
    (forall i :: 0 <= i < |at| ==> at[i] < n) && forall i, j :: 0 <= i < j < |at| ==> at[i] < at[j]
  }

  /** Facts added are of those given, in their order, after those there. */
  lemma {:induction false} AddedInTurn(facts: seq<string>, more: seq<string>, lower: string -> string) returns (at: seq<nat>)
    ensures facts <= AddFacts(facts, more, lower) && |AddFacts(facts, more, lower)| == |facts| + |at| && InTurn(at, |more|)
    ensures forall i :: 0 <= i < |at| ==> AddFacts(facts, more, lower)[|facts| + i] == more[at[i]]
    decreases |more|
  {
    at := [];
    if more != [] {
      hide HasFact;
      var has := HasFact(facts, more[0], lower);
      var next := if has then facts else facts + [more[0]];
      var rest := AddedInTurn(next, more[1..], lower);
      at := OneLater(rest, |more|, !has);
      var all := AddFacts(facts, more, lower);
      assert all == AddFacts(next, more[1..], lower) && next <= all;
      forall i | 0 <= i < |at|
        ensures all[|facts| + i] == more[at[i]]
      {
        if !has && i == 0 {
          assert all[|facts|] == next[|facts|];
        } else {
          var q := if has then i else i - 1;
          assert all[|next| + q] == more[1..][rest[q]] == more[at[i]];
        }
      }
    }
  }

  lemma OneLater(at: seq<nat>, n: nat, first: bool) returns (r: seq<nat>)
    requires n > 0 && InTurn(at, n - 1)
    ensures InTurn(r, n) && |r| == |at| + (if first then 1 else 0) && (first ==> r[0] == 0)
    ensures forall i :: 0 <= i < |at| ==> r[if first then i + 1 else i] == at[i] + 1
  {
    var later := seq(|at|, i requires 0 <= i < |at| => at[i] + 1);
    r := if first then [0] + later else later;
  }

  /** And none is there twice. */
  lemma {:induction false} AddedOnce(facts: seq<string>, more: seq<string>, lower: string -> string)
    requires EachOnce(facts, lower)
    ensures EachOnce(AddFacts(facts, more, lower), lower)
    decreases |more|
  {
    if more != [] {
      AddedOnce(if HasFact(facts, more[0], lower) then facts else facts + [more[0]], more[1..], lower);
    }
  }
}
