/**
 * Notes merged by whose they are (mergeCallers, app/src/threads.ts:165-197),
 * and when merging the result again is no change.
 */
module People {
  import opened Options
  import opened Subsequences
  import opened Sorting

  const TEST: string := "test"
  const HIDDEN: string := "Hidden number"
  const MAX_FACTS: nat := 30

  /** What is said of numbers: a number's key, whether it is hidden, who is the same person, a person's name, a conversation's id. */
  datatype Rules = Rules(
    key: string -> string, hidden: string -> bool, same: (string, string) -> bool,
    isName: (string, string) -> bool, threadId: string -> string, lower: string -> string)

  ghost predicate RulesOk(p: Rules) {
    && (forall a, b :: p.same(a, b) ==> p.same(b, a))
    && p.hidden(HIDDEN) && (forall k :: !p.isName(HIDDEN, k))
  }

  datatype Note = Note(
    number: string, name: string, nameBy: Option<string>, notes: string, ownerFacts: seq<string>, facts: seq<string>, unsent: seq<string>, updatedAt: int)

  function KeyOf(p: Rules, number: string): string {
    if number == TEST then TEST else if p.key(number) != "" then p.key(number) else number
  }

  /** A kept note's number is `key`, or the same person's. */
  predicate IsTheirs(p: Rules, kept: string, key: string) {
    kept == key || (key != TEST && kept != TEST && p.same(kept, key))
  }

  function FindNote(p: Rules, out: seq<Note>, key: string, from: nat): (r: Option<nat>)
    requires from <= |out|
    ensures r.Some? ==> from <= r.value < |out| && IsTheirs(p, out[r.value].number, key)
    ensures r.None? ==> forall i :: from <= i < |out| ==> !IsTheirs(p, out[i].number, key)
    decreases |out| - from
  {
    if from == |out| then None
    else if IsTheirs(p, out[from].number, key) then Some(from)
    else FindNote(p, out, key, from + 1)
  }

  predicate HasFact(facts: seq<string>, fact: string, lower: string -> string) {
    exists i :: 0 <= i < |facts| && lower(facts[i]) == lower(fact)
  }

  /** The facts not there yet, added in order. */
  function AddFacts(facts: seq<string>, more: seq<string>, lower: string -> string): seq<string>
    decreases |more|
  {
    if more == [] then facts else AddFacts(if HasFact(facts, more[0], lower) then facts else facts + [more[0]], more[1..], lower)
  }

  function LastOf<T>(s: seq<T>, n: nat): seq<T> {
    if |s| <= n then s else s[|s| - n..]
  }

  /** A later note of someone whose note is kept. */
  function Joined(p: Rules, kept: Note, note: Note): Note {
    kept.(
      name := if note.name != "" then note.name else kept.name,
      nameBy := if note.name != "" then note.nameBy else kept.nameBy,
      notes := if note.notes != "" then note.notes else kept.notes,
      ownerFacts := if note.ownerFacts != [] then note.ownerFacts else kept.ownerFacts,
      unsent := AddFacts(kept.unsent, note.unsent, p.lower),
      facts := LastOf(AddFacts(kept.facts, note.facts, p.lower), MAX_FACTS),
      updatedAt := if note.updatedAt > kept.updatedAt then note.updatedAt else kept.updatedAt)
  }

  datatype Callers = Callers(notes: seq<Note>, changed: bool)

  function AddNote(p: Rules, c: Callers, note: Note): Callers {
    var key := KeyOf(p, note.number);
    var same := FindNote(p, c.notes, key, 0);
    if same.None? then Callers(c.notes + [note.(number := key)], c.changed || key != note.number)
    else Callers(c.notes[same.value := Joined(p, c.notes[same.value], note)], true)
  }

  function AddNotes(p: Rules, notes: seq<Note>): Callers {
    if notes == [] then Callers([], false) else AddNote(p, AddNotes(p, notes[..|notes| - 1]), notes[|notes| - 1])
  }

  function ByUpdate(): Note -> int {
    (n: Note) => n.updatedAt
  }

  function MergeCallers(p: Rules, notes: seq<Note>): Callers {
    AddNotes(p, Sorted(notes, ByUpdate()))
  }

  // ---- One note a person --------------------------------------------------------------------------

  ghost predicate NotTheirs(p: Rules, a: Note, b: Note) {
    !IsTheirs(p, a.number, b.number) && !IsTheirs(p, b.number, a.number)
  }

  /** No two notes are one person's. */
  ghost predicate OneEach(p: Rules, notes: seq<Note>) {
    forall i, j :: 0 <= i < j < |notes| ==> NotTheirs(p, notes[i], notes[j])
  }

  /** Every note's number is its own key. */
  ghost predicate KeysKept(p: Rules, notes: seq<Note>) {
    forall i :: 0 <= i < |notes| ==> KeyOf(p, notes[i].number) == notes[i].number
  }

  /** The key of a number's key is that key. */
  ghost predicate KeysFixed(p: Rules, notes: seq<Note>) {
    forall i :: 0 <= i < |notes| ==> KeyOf(p, KeyOf(p, notes[i].number)) == KeyOf(p, notes[i].number)
  }

  lemma {:induction false} AddedOneEach(p: Rules, notes: seq<Note>)
    requires RulesOk(p)
    ensures OneEach(p, AddNotes(p, notes).notes)
    ensures KeysFixed(p, notes) ==> KeysKept(p, AddNotes(p, notes).notes)
  {
    hide Joined, KeyOf, RulesOk;
    if notes != [] {
      var n := |notes| - 1;
      var before, note := notes[..n], notes[n];
      AddedOneEach(p, before);
      var c, key := AddNotes(p, before), KeyOf(p, note.number);
      var same := FindNote(p, c.notes, key, 0);
      if same.None? {
        AddedApart(p, c.notes, note.(number := key));
      } else {
        JoinedNumber(p, c.notes[same.value], note);
        SameNumbers(p, c.notes, AddNotes(p, notes).notes);
      }
    }
  }

  lemma JoinedNumber(p: Rules, kept: Note, note: Note)
    ensures Joined(p, kept, note).number == kept.number
  {
  }

  lemma SameNumbers(p: Rules, a: seq<Note>, b: seq<Note>)
    requires |a| == |b| && forall i :: 0 <= i < |a| ==> b[i].number == a[i].number
    ensures OneEach(p, a) ==> OneEach(p, b)
  {
    if OneEach(p, a) {
      forall i, j | 0 <= i < j < |b|
        ensures NotTheirs(p, b[i], b[j])
      {
        assert NotTheirs(p, a[i], a[j]);
      }
    }
  }

  lemma AddedApart(p: Rules, out: seq<Note>, note: Note)
    requires RulesOk(p) && OneEach(p, out) && forall i :: 0 <= i < |out| ==> !IsTheirs(p, out[i].number, note.number)
    ensures OneEach(p, out + [note])
  {
    forall i | 0 <= i < |out|
      ensures NotTheirs(p, out[i], note)
    {
    }
    hide NotTheirs;
  }

  // ---- Merging again --------------------------------------------------------------------------------

  /** Notes of different people, under their keys, are kept as they are. */
  lemma {:induction false} AddingAgain(p: Rules, notes: seq<Note>)
    requires OneEach(p, notes) && KeysKept(p, notes)
    ensures AddNotes(p, notes) == Callers(notes, false)
  {
    hide KeyOf, Joined;
    if notes != [] {
      var n := |notes| - 1;
      var before := notes[..n];
      forall i, j | 0 <= i < j < |before|
        ensures NotTheirs(p, before[i], before[j])
      {
        assert NotTheirs(p, notes[i], notes[j]);
      }
      AddingAgain(p, before);
      assert KeyOf(p, notes[n].number) == notes[n].number;
      forall i | 0 <= i < |before|
        ensures !IsTheirs(p, before[i].number, notes[n].number)
      {
        assert NotTheirs(p, notes[i], notes[n]);
      }
      assert notes == before + [notes[n]];
      assert FindNote(p, before, notes[n].number, 0).None?;
    }
  }

  /** What holds of any two notes holds in any order. */
  lemma OneEachAnyOrder(p: Rules, a: seq<Note>, b: seq<Note>)
    requires multiset(a) == multiset(b) && OneEach(p, a)
    ensures OneEach(p, b)
  {
    Distinct(p, a);
    SameRepeats(a, b);
    forall i, j | 0 <= i < j < |b|
      ensures NotTheirs(p, b[i], b[j])
    {
      assert b[i] in multiset(b) && b[j] in multiset(b);
      assert b[i] in a && b[j] in a;
      var k :| 0 <= k < |a| && a[k] == b[i];
      var l :| 0 <= l < |a| && a[l] == b[j];
      assert b[i] != b[j];
      assert if k < l then NotTheirs(p, a[k], a[l]) else NotTheirs(p, a[l], a[k]);
    }
  }

  lemma Distinct(p: Rules, a: seq<Note>)
    requires OneEach(p, a)
    ensures NoRepeats(a)
  {
    forall i, j | 0 <= i < j < |a|
      ensures a[i] != a[j]
    {
      assert NotTheirs(p, a[i], a[j]);
    }
  }

  lemma KeysKeptAnyOrder(p: Rules, a: seq<Note>, b: seq<Note>)
    requires multiset(a) == multiset(b) && KeysKept(p, a)
    ensures KeysKept(p, b)
  {
    hide KeyOf;
    forall i | 0 <= i < |b|
      ensures KeyOf(p, b[i].number) == b[i].number
    {
      assert b[i] in multiset(b);
      assert b[i] in a;
    }
  }

  lemma FixedAnyOrder(p: Rules, a: seq<Note>, b: seq<Note>)
    requires multiset(a) == multiset(b) && KeysFixed(p, a)
    ensures KeysFixed(p, b)
  {
    hide KeyOf;
    forall i | 0 <= i < |b|
      ensures KeyOf(p, KeyOf(p, b[i].number)) == KeyOf(p, b[i].number)
    {
      assert b[i] in multiset(b);
      assert b[i] in a;
    }
  }

  /** A note kept under a number that is not its key is put under its key, and that is a change. */
  lemma {:induction false} MovedIsAChange(p: Rules, notes: seq<Note>)
    requires !KeysKept(p, notes)
    ensures AddNotes(p, notes).changed
  {
    hide KeyOf, Joined;
    var n := |notes| - 1;
    if !KeysKept(p, notes[..n]) {
      MovedIsAChange(p, notes[..n]);
    } else {
      assert forall i :: 0 <= i < n ==> notes[..n][i] == notes[i];
      assert KeyOf(p, notes[n].number) != notes[n].number;
    }
  }

  /** The notes merged are one a person; merging them again changes something exactly when one's number is not its own key. */
  lemma MergedAgainIff(p: Rules, notes: seq<Note>)
    requires RulesOk(p)
    ensures
      var once := MergeCallers(p, notes).notes;
      var again := MergeCallers(p, once);
      && OneEach(p, once) && (again.changed <==> !KeysKept(p, once))
      && (KeysKept(p, once) ==> multiset(again.notes) == multiset(once))
  {
    hide OneEach, KeysKept, AddNotes, RulesOk, Sorted;
    AddedOneEach(p, Sorted(notes, ByUpdate()));
    var once := MergeCallers(p, notes).notes;
    var sorted := Sorted(once, ByUpdate());
    SortedHas(once, ByUpdate());
    if KeysKept(p, once) {
      OneEachAnyOrder(p, once, sorted);
      KeysKeptAnyOrder(p, once, sorted);
      AddingAgain(p, sorted);
    } else {
      if KeysKept(p, sorted) {
        KeysKeptAnyOrder(p, sorted, once);
        assert false;
      }
      MovedIsAChange(p, sorted);
    }
  }

  /** So nothing changes when the key of each key is that key. */
  lemma MergedAgain(p: Rules, notes: seq<Note>)
    requires RulesOk(p) && KeysFixed(p, notes)
    ensures
      var once := MergeCallers(p, notes).notes;
      var again := MergeCallers(p, once);
      && OneEach(p, once) && KeysKept(p, once)
      && !again.changed && multiset(again.notes) == multiset(once)
  {
    hide OneEach, KeysKept, KeysFixed, AddNotes, RulesOk, Sorted;
    var sorted := Sorted(notes, ByUpdate());
    SortedHas(notes, ByUpdate());
    FixedAnyOrder(p, notes, sorted);
    AddedOneEach(p, sorted);
    MergedAgainIff(p, notes);
  }

  // ---- No one's name or fact is lost -------------------------------------------------------------------

  /** Everyone noted has a note: under their key, or the first of theirs kept. */
  lemma {:induction false} EveryoneIsNoted(p: Rules, notes: seq<Note>, i: nat)
    requires i < |notes|
    ensures exists k :: 0 <= k < |AddNotes(p, notes).notes| && IsTheirs(p, AddNotes(p, notes).notes[k].number, KeyOf(p, notes[i].number))
  {
    hide KeyOf, Joined, IsTheirs;
    var n := |notes| - 1;
    var c, key := AddNotes(p, notes[..n]), KeyOf(p, notes[n].number);
    var same := FindNote(p, c.notes, key, 0);
    var out := AddNotes(p, notes).notes;
    if same.Some? {
      JoinedNumber(p, c.notes[same.value], notes[n]);
    }
    if i < n {
      EveryoneIsNoted(p, notes[..n], i);
      var k :| 0 <= k < |c.notes| && IsTheirs(p, c.notes[k].number, KeyOf(p, notes[..n][i].number));
      assert out[k].number == c.notes[k].number;
      assert IsTheirs(p, out[k].number, KeyOf(p, notes[i].number));
    } else if same.Some? {
      assert IsTheirs(p, out[same.value].number, key);
    } else {
      Itself(p, key);
      assert IsTheirs(p, out[|c.notes|].number, key);
    }
  }

  lemma Itself(p: Rules, key: string)
    ensures IsTheirs(p, key, key)
  {
  }

  /**
   * A fact of either of two notes joined is in what is kept, the last thirty,
   * or among the oldest of more than thirty; and what waits to be sent is all
   * kept.
   */
  lemma FactsAreJoined(p: Rules, kept: Note, note: Note, fact: string)
    requires HasFact(kept.facts, fact, p.lower) || HasFact(note.facts, fact, p.lower)
    ensures
      var all, left := AddFacts(kept.facts, note.facts, p.lower), Joined(p, kept, note).facts;
      && |left| <= MAX_FACTS && kept.facts <= all && all[|all| - |left|..] == left
      && (|left| < |all| ==> |left| == MAX_FACTS)
      && (HasFact(left, fact, p.lower) || HasFact(all[..|all| - |left|], fact, p.lower))
  {
    var all, left := AddFacts(kept.facts, note.facts, p.lower), Joined(p, kept, note).facts;
    FactsAreAdded(kept.facts, note.facts, p.lower, fact);
    var i :| 0 <= i < |all| && p.lower(all[i]) == p.lower(fact);
    var n := |all| - |left|;
    if i < n {
      assert all[..n][i] == all[i];
    } else {
      assert left[i - n] == all[i];
    }
  }

  lemma UnsentAreJoined(p: Rules, kept: Note, note: Note, fact: string)
    requires HasFact(kept.unsent, fact, p.lower) || HasFact(note.unsent, fact, p.lower)
    ensures HasFact(Joined(p, kept, note).unsent, fact, p.lower)
  {
    FactsAreAdded(kept.unsent, note.unsent, p.lower, fact);
  }

  /** Facts added in turn: none is lost, and those there stay as they were. */
  lemma {:induction false} FactsAreAdded(facts: seq<string>, more: seq<string>, lower: string -> string, fact: string)
    requires HasFact(facts, fact, lower) || HasFact(more, fact, lower)
    ensures HasFact(AddFacts(facts, more, lower), fact, lower) && facts <= AddFacts(facts, more, lower)
    decreases |more|
  {
    if more != [] {
      var next := if HasFact(facts, more[0], lower) then facts else facts + [more[0]];
      StillHas(facts, next, fact, lower);
      if HasFact(more, fact, lower) && !HasFact(next, fact, lower) {
        var i :| 0 <= i < |more| && lower(more[i]) == lower(fact);
        HasFirst(facts, more[0], lower);
        SameFact(next, more[0], fact, lower);
        assert i > 0;
        assert more[1..][i - 1] == more[i];
      }
      FactsAreAdded(next, more[1..], lower, fact);
    }
  }

  lemma StillHas(facts: seq<string>, next: seq<string>, fact: string, lower: string -> string)
    requires facts <= next
    ensures HasFact(facts, fact, lower) ==> HasFact(next, fact, lower)
  {
    if HasFact(facts, fact, lower) {
      var i :| 0 <= i < |facts| && lower(facts[i]) == lower(fact);
      assert next[i] == facts[i];
    }
  }

  lemma HasFirst(facts: seq<string>, fact: string, lower: string -> string)
    ensures HasFact(if HasFact(facts, fact, lower) then facts else facts + [fact], fact, lower)
  {
    if !HasFact(facts, fact, lower) {
      assert (facts + [fact])[|facts|] == fact;
    }
  }

  lemma SameFact(facts: seq<string>, a: string, b: string, lower: string -> string)
    ensures HasFact(facts, a, lower) && lower(a) == lower(b) ==> HasFact(facts, b, lower)
  {
  }

  method MergeNotes(p: Rules, notes: seq<Note>) returns (out: seq<Note>, changed: bool)
    ensures Callers(out, changed) == MergeCallers(p, notes)
  {
    hide Joined, KeyOf;
    var sorted := Sorted(notes, ByUpdate());
    out, changed := [], false;
    for n := 0 to |sorted|
      invariant Callers(out, changed) == AddNotes(p, sorted[..n])
    {
      var note := sorted[n];
      assert sorted[..n + 1][..n] == sorted[..n];
      var key := KeyOf(p, note.number);
      var same := FindNote(p, out, key, 0);
      if same.None? {
        if key != note.number {
          changed := true;
        }
        out := out + [note.(number := key)];
      } else {
        changed := true;
        out := out[same.value := Joined(p, out[same.value], note)];
      }
    }
    assert sorted[..|sorted|] == sorted;
  }
}
