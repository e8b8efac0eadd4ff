/**
 * Notes and the desktop's contacts (app/src/contacts.ts:63-159): a note brought
 * into step with its contact, and the facts remembered before there were any
 * sent over.
 */
module Contacts {
  import opened Options
  import opened People

  const OWNER: string := "owner"

  datatype Fact = Fact(text: string, byOwner: bool)
  datatype Contact = Contact(name: string, nameBy: Option<string>, notes: string, facts: seq<Fact>)

  /** The owner's facts, or the receptionist's. */
  function FactsBy(facts: seq<Fact>, owner: bool): seq<string> {
    if facts == [] then [] else (if facts[0].byOwner == owner then [facts[0].text] else []) + FactsBy(facts[1..], owner)
  }

  // ---- A note as the contact says ---------------------------------------------------------------

  datatype Name = Name(name: string, given: Option<string>)

  function ContactName(c: Contact): Name {
    if c.name != "" then Name(c.name, c.nameBy) else Name("", None)
  }

  /** A name of a note or a contact, with its giver. */
  function NameOf(note: Option<Note>, contact: Option<Contact>, moved: bool): Name {
    if contact.Some? && contact.value.name != "" && contact.value.nameBy == Some(OWNER) then Name(contact.value.name, Some(OWNER))
    else if contact.Some? && note.Some? && note.value.nameBy == Some(OWNER) then ContactName(contact.value)
    else if note.Some? && note.value.name != "" then
      Name(note.value.name, if moved && contact.None? && note.value.nameBy == Some(OWNER) then None else note.value.nameBy)
    else if contact.Some? then ContactName(contact.value)
    else Name("", None)
  }

  function Written(note: Option<Note>, contact: Option<Contact>, number: string, moved: bool, trim: string -> string, lower: string -> string, now: int): Note {
    var name := NameOf(note, contact, moved);
    var agents := if contact.Some? then FactsBy(contact.value.facts, false) else [];
    var unsent := if note.Some? then note.value.unsent else [];
    Note(
      if note.Some? then note.value.number else number,
      name.name, name.given,
      if contact.Some? then trim(contact.value.notes) else if moved || note.None? then "" else note.value.notes,
      if contact.Some? then FactsBy(contact.value.facts, true) else if moved || note.None? then [] else note.value.ownerFacts,
      if moved then AddFacts(agents, unsent, lower) else AddFacts(if note.Some? then note.value.facts else [], agents, lower),
      unsent,
      if note.Some? then note.value.updatedAt else now)
  }

  /** What of a note may differ from its contact. */
  predicate Differs(note: Note, next: Note) {
    note.name != next.name || note.nameBy != next.nameBy || note.notes != next.notes || note.facts != next.facts || note.ownerFacts != next.ownerFacts
  }

  datatype Mirrored = Mirrored(note: Option<Note>, changed: bool)

  function MirrorContact(
    note: Option<Note>, contact: Option<Contact>, number: string, moved: bool, trim: string -> string, lower: string -> string, now: int): Mirrored
  {
    if contact.None? && note.None? then Mirrored(None, false)
    else
      var next := Written(note, contact, number, moved, trim, lower, now);
      if note.None? || Differs(note.value, next) then Mirrored(Some(next.(updatedAt := now)), true) else Mirrored(note, false)
  }

  lemma SameName(note: Option<Note>, contact: Option<Contact>, moved: bool, next: Note)
    requires next.name == NameOf(note, contact, moved).name && next.nameBy == NameOf(note, contact, moved).given
    requires note.Some? || contact.Some?
    ensures NameOf(Some(next), contact, moved) == NameOf(note, contact, moved)
  {
  }

  /** Facts added again are there already. */
  lemma {:induction false} AddedAgain(facts: seq<string>, more: seq<string>, lower: string -> string)
    requires forall i :: 0 <= i < |more| ==> HasFact(facts, more[i], lower)
    ensures AddFacts(facts, more, lower) == facts
    decreases |more|
  {
    if more != [] {
      AddedAgain(facts, more[1..], lower);
    }
  }

  lemma AllAdded(facts: seq<string>, more: seq<string>, lower: string -> string)
    ensures forall i :: 0 <= i < |more| ==> HasFact(AddFacts(facts, more, lower), more[i], lower)
  {
    forall i | 0 <= i < |more|
      ensures HasFact(AddFacts(facts, more, lower), more[i], lower)
    {
      assert HasFact(more, more[i], lower);
      FactsAreAdded(facts, more, lower, more[i]);
    }
  }

  /** Mirroring a note again changes nothing. */
  lemma MirroredAgain(note: Option<Note>, contact: Option<Contact>, number: string, moved: bool, trim: string -> string, lower: string -> string, now: int, later: int)
    ensures
      var once := MirrorContact(note, contact, number, moved, trim, lower, now);
      MirrorContact(once.note, contact, number, moved, trim, lower, later) == Mirrored(once.note, false)
  {
    hide AddFacts, NameOf, FactsBy;
    if note.Some? || contact.Some? {
      var next := Written(note, contact, number, moved, trim, lower, now);
      SameName(note, contact, moved, next.(updatedAt := now));
      if note.Some? {
        SameName(note, contact, moved, next);
      }
      if !moved {
        var agents := if contact.Some? then FactsBy(contact.value.facts, false) else [];
        var facts := if note.Some? then note.value.facts else [];
        AllAdded(facts, agents, lower);
        AddedAgain(AddFacts(facts, agents, lower), agents, lower);
      }
    }
  }

  /** A name the owner gave always wins. */
  lemma OwnersNameWins(note: Option<Note>, contact: Contact, number: string, moved: bool, trim: string -> string, lower: string -> string, now: int)
    requires contact.name != "" && contact.nameBy == Some(OWNER)
    ensures
      var once := MirrorContact(note, Some(contact), number, moved, trim, lower, now).note;
      once.Some? && once.value.name == contact.name && once.value.nameBy == Some(OWNER)
  {
    hide AddFacts, FactsBy;
  }

  /** Before what was remembered here is moved, no fact is lost: of the note, or of the contact. */
  lemma NoFactLost(note: Option<Note>, contact: Option<Contact>, number: string, trim: string -> string, lower: string -> string, now: int, fact: string)
    requires (note.Some? && HasFact(note.value.facts, fact, lower)) || (contact.Some? && HasFact(FactsBy(contact.value.facts, false), fact, lower))
    ensures
      var once := MirrorContact(note, contact, number, false, trim, lower, now).note;
      once.Some? && HasFact(once.value.facts, fact, lower)
  {
    hide AddFacts, NameOf, FactsBy, HasFact;
    var agents := if contact.Some? then FactsBy(contact.value.facts, false) else [];
    var facts := if note.Some? then note.value.facts else [];
    FactsAreAdded(facts, agents, lower, fact);
  }

  /** After, the facts are the receptionist's of the contact, and those not sent yet: no other. */
  lemma FactsAfterTheMove(note: Option<Note>, contact: Option<Contact>, number: string, trim: string -> string, lower: string -> string, now: int, fact: string)
    requires note.Some? || contact.Some?
    ensures
      var once := MirrorContact(note, contact, number, true, trim, lower, now).note;
      var agents := if contact.Some? then FactsBy(contact.value.facts, false) else [];
      var unsent := if note.Some? then note.value.unsent else [];
      once.Some? && agents <= once.value.facts && (HasFact(once.value.facts, fact, lower) <==> HasFact(agents, fact, lower) || HasFact(unsent, fact, lower))
  {
    hide NameOf, FactsBy, HasFact;
    var agents := if contact.Some? then FactsBy(contact.value.facts, false) else [];
    var unsent := if note.Some? then note.value.unsent else [];
    AddsOnly(agents, unsent, lower, fact);
    hide AddFacts;
  }

  lemma {:induction false} AddsOnly(facts: seq<string>, more: seq<string>, lower: string -> string, fact: string)
    ensures facts <= AddFacts(facts, more, lower)
    ensures HasFact(AddFacts(facts, more, lower), fact, lower) <==> HasFact(facts, fact, lower) || HasFact(more, fact, lower)
    decreases |more|
  {
    hide HasFact;
    if more == [] {
      NoFact(fact, lower);
    } else {
      var next := if HasFact(facts, more[0], lower) then facts else facts + [more[0]];
      AddsOnly(next, more[1..], lower, fact);
      FactFirst(more, lower, fact);
      FactLast(facts, more[0], lower, fact);
    }
  }

  lemma NoFact(fact: string, lower: string -> string)
    ensures !HasFact([], fact, lower)
  {
  }

  lemma FactFirst(more: seq<string>, lower: string -> string, fact: string)
    requires more != []
    ensures HasFact(more, fact, lower) <==> lower(more[0]) == lower(fact) || HasFact(more[1..], fact, lower)
  {
    if HasFact(more, fact, lower) && lower(more[0]) != lower(fact) {
      var i :| 0 <= i < |more| && lower(more[i]) == lower(fact);
      assert more[1..][i - 1] == more[i];
    }
    if HasFact(more[1..], fact, lower) {
      var i :| 0 <= i < |more[1..]| && lower(more[1..][i]) == lower(fact);
      assert more[i + 1] == more[1..][i];
    }
  }

  lemma FactLast(facts: seq<string>, one: string, lower: string -> string, fact: string)
    ensures
      var next := if HasFact(facts, one, lower) then facts else facts + [one];
      HasFact(next, fact, lower) <==> HasFact(facts, fact, lower) || lower(one) == lower(fact)
  {
    var more := facts + [one];
    if HasFact(facts, fact, lower) {
      var i :| 0 <= i < |facts| && lower(facts[i]) == lower(fact);
      assert more[i] == facts[i];
    }
    if HasFact(more, fact, lower) {
      var i :| 0 <= i < |more| && lower(more[i]) == lower(fact);
      assert i < |facts| ==> facts[i] == more[i];
    }
    assert more[|facts|] == one;
  }

  // ---- Moving what was remembered ----------------------------------------------------------------------

  /** A number's key at the desktop ("": no phone number), and whether it refuses a fact for one. */
  datatype Desktop = Desktop(key: string -> string, lower: string -> string, refuses: (string, string) -> bool)

  /** What is to be sent: a number and a fact of theirs. */
  datatype Item = Item(number: string, fact: string)

  function Paired(number: string, facts: seq<string>): (r: seq<Item>)
    ensures |r| == |facts| && forall i :: 0 <= i < |facts| ==> r[i] == Item(number, facts[i])
  {
    seq(|facts|, i requires 0 <= i < |facts| => Item(number, facts[i]))
  }

  function ItemsOf(notes: seq<Note>, lower: string -> string): seq<Item> {
    if notes == [] then [] else Paired(notes[0].number, AddFacts(notes[0].facts, notes[0].unsent, lower)) + ItemsOf(notes[1..], lower)
  }

  /** What the desktop keeps a fact as: each once, in any case. */
  function Kept(d: Desktop, i: Item): (string, string) {
    (d.key(i.number), d.lower(i.fact))
  }

  predicate Skips(d: Desktop, i: Item) {
    d.key(i.number) == "" || d.refuses(i.number, i.fact)
  }

  /** What the desktop has, and how many requests it answers before it cannot be reached; and what moving did. */
  datatype Moving = Moving(store: set<(string, string)>, left: nat, done: bool, sent: nat, there: nat, skipped: seq<Item>)

  function Move(d: Desktop, items: seq<Item>, m: Moving): Moving
    decreases |items|
  {
    if items == [] then m.(done := true)
    else
      var i := items[0];
      if d.key(i.number) == "" then Move(d, items[1..], m.(skipped := m.skipped + [i]))
      else if m.left == 0 then m.(done := false)
      else
        var asked := m.(left := m.left - 1);
        if d.refuses(i.number, i.fact) then Move(d, items[1..], asked.(skipped := m.skipped + [i]))
        else if Kept(d, i) in m.store then Move(d, items[1..], asked.(there := m.there + 1))
        else Move(d, items[1..], asked.(sent := m.sent + 1, store := m.store + {Kept(d, i)}))
  }

  /** What is to be at the desktop in the end: every fact it does not refuse. */
  function Accepted(d: Desktop, items: seq<Item>): set<(string, string)> {
    if items == [] then {} else (if Skips(d, items[0]) then {} else {Kept(d, items[0])}) + Accepted(d, items[1..])
  }

  /** Nothing lost or doubled: what was sent is new there, each fact once; and when done, all was sent, there already, or skipped. */
  ghost predicate MovedOk(d: Desktop, items: seq<Item>, m: Moving, to: Moving) {
    && m.store <= to.store <= m.store + Accepted(d, items)
    && |to.store| + m.sent == |m.store| + to.sent
    && (to.done ==> to.store == m.store + Accepted(d, items))
    && (to.done ==> to.sent + to.there + |to.skipped| == m.sent + m.there + |m.skipped| + |items|)
  }

  lemma {:induction false} MoveKeeps(d: Desktop, items: seq<Item>, m: Moving)
    ensures MovedOk(d, items, m, Move(d, items, m))
    decreases |items|
  {
    hide MovedOk, Move;
    MoveStep(d, items, m);
    if items == [] {
      DoneOk(d, m);
    } else {
      var i := items[0];
      var asked := if m.left > 0 then m.(left := m.left - 1) else m;
      if d.key(i.number) == "" {
        MoveKeeps(d, items[1..], m.(skipped := m.skipped + [i]));
        SkippedOk(d, items, m, m.(skipped := m.skipped + [i]), Move(d, items, m));
      } else if m.left == 0 {
        StoppedOk(d, items, m);
      } else if d.refuses(i.number, i.fact) {
        MoveKeeps(d, items[1..], asked.(skipped := m.skipped + [i]));
        SkippedOk(d, items, m, asked.(skipped := m.skipped + [i]), Move(d, items, m));
      } else if Kept(d, i) in m.store {
        MoveKeeps(d, items[1..], asked.(there := m.there + 1));
        ThereOk(d, items, m, asked.(there := m.there + 1), Move(d, items, m));
      } else {
        MoveKeeps(d, items[1..], asked.(sent := m.sent + 1, store := m.store + {Kept(d, i)}));
        SentOk(d, items, m, asked.(sent := m.sent + 1, store := m.store + {Kept(d, i)}), Move(d, items, m));
      }
    }
  }

  lemma DoneOk(d: Desktop, m: Moving)
    ensures MovedOk(d, [], m, m.(done := true))
  {
  }

  lemma StoppedOk(d: Desktop, items: seq<Item>, m: Moving)
    ensures MovedOk(d, items, m, m.(done := false))
  {
  }

  lemma SkippedOk(d: Desktop, items: seq<Item>, m: Moving, next: Moving, to: Moving)
    requires items != [] && Skips(d, items[0]) && next == m.(skipped := m.skipped + [items[0]], left := next.left)
    requires MovedOk(d, items[1..], next, to)
    ensures MovedOk(d, items, m, to)
  {
  }

  lemma ThereOk(d: Desktop, items: seq<Item>, m: Moving, next: Moving, to: Moving)
    requires items != [] && !Skips(d, items[0]) && Kept(d, items[0]) in m.store && next == m.(there := m.there + 1, left := next.left)
    requires MovedOk(d, items[1..], next, to)
    ensures MovedOk(d, items, m, to)
  {
    assert m.store + Accepted(d, items) == m.store + Accepted(d, items[1..]);
  }

  lemma SentOk(d: Desktop, items: seq<Item>, m: Moving, next: Moving, to: Moving)
    requires items != [] && !Skips(d, items[0]) && Kept(d, items[0]) !in m.store
    requires next == m.(sent := m.sent + 1, store := m.store + {Kept(d, items[0])}, left := next.left)
    requires MovedOk(d, items[1..], next, to)
    ensures MovedOk(d, items, m, to)
  {
    assert next.store + Accepted(d, items[1..]) == m.store + Accepted(d, items);
  }

  /** The store after tries, each as long as the desktop is reached, and all that was sent. */
  function Tried(d: Desktop, items: seq<Item>, store: set<(string, string)>, tries: seq<nat>): (r: (set<(string, string)>, nat))
    decreases |tries|
  {
    if tries == [] then (store, 0)
    else
      var one := Move(d, items, Moving(store, tries[0], false, 0, 0, []));
      var rest := Tried(d, items, one.store, tries[1..]);
      (rest.0, one.sent + rest.1)
  }

  /**
   * Tried again after any failures, until it is done: every accepted fact is at
   * the desktop, none was sent to it as new twice, and nothing else is there.
   */
  lemma TriedUntilDone(d: Desktop, items: seq<Item>, store: set<(string, string)>, tries: seq<nat>, last: nat)
    requires Move(d, items, Moving(Tried(d, items, store, tries).0, last, false, 0, 0, [])).done
    ensures
      var before := Tried(d, items, store, tries);
      var final := Move(d, items, Moving(before.0, last, false, 0, 0, []));
      && final.store == store + Accepted(d, items)
      && before.1 + final.sent == |store + Accepted(d, items)| - |store|
      && final.sent + final.there + |final.skipped| == |items|
  {
    TriesKeep(d, items, store, tries);
    MoveKeeps(d, items, Moving(Tried(d, items, store, tries).0, last, false, 0, 0, []));
  }

  lemma {:induction false} TriesKeep(d: Desktop, items: seq<Item>, store: set<(string, string)>, tries: seq<nat>)
    ensures
      var r := Tried(d, items, store, tries);
      store <= r.0 <= store + Accepted(d, items) && |r.0| == |store| + r.1
    decreases |tries|
  {
    hide Move, Accepted;
    if tries != [] {
      var m := Moving(store, tries[0], false, 0, 0, []);
      MoveKeeps(d, items, m);
      TriesKeep(d, items, Move(d, items, m).store, tries[1..]);
    }
  }

  /** How many of them the desktop is asked about: those of a phone number. */
  function Requests(d: Desktop, items: seq<Item>): (n: nat)
    ensures n <= |items|
  {
    if items == [] then 0 else (if d.key(items[0].number) == "" then 0 else 1) + Requests(d, items[1..])
  }

  /** It is done exactly when the desktop answers as many requests as there are facts of phone numbers; and then it made those. */
  lemma {:induction false} DoneIffReached(d: Desktop, items: seq<Item>, m: Moving)
    ensures Move(d, items, m).done <==> m.left >= Requests(d, items)
    ensures Move(d, items, m).left == if m.left >= Requests(d, items) then m.left - Requests(d, items) else 0
    decreases |items|
  {
    if items != [] {
      var i := items[0];
      if d.key(i.number) == "" {
        DoneIffReached(d, items[1..], m.(skipped := m.skipped + [i]));
      } else if m.left > 0 {
        var asked := m.(left := m.left - 1);
        DoneIffReached(d, items[1..], asked.(skipped := m.skipped + [i]));
        DoneIffReached(d, items[1..], asked.(there := m.there + 1));
        DoneIffReached(d, items[1..], asked.(sent := m.sent + 1, store := m.store + {Kept(d, i)}));
      }
    }
  }

  /** The desktop's contacts, as it is asked to add to them. */
  class Store {
    const d: Desktop
    var store: set<(string, string)>
    var left: nat

    constructor (d: Desktop, store: set<(string, string)>, left: nat)
      ensures this.d == d && this.store == store && this.left == left
    {
      this.d, this.store, this.left := d, store, left;
    }

    /** Asks the desktop once for each fact of each note, until one request is not answered. */
    method MoveFacts(notes: seq<Note>) returns (out: Moving)
      modifies this
      ensures out == Move(d, ItemsOf(notes, d.lower), Moving(old(store), old(left), false, 0, 0, []))
      ensures store == out.store && left == out.left
    {
      hide Move;
      out := Moving(store, left, false, 0, 0, []);
      ghost var start := out;
      for n := 0 to |notes|
        invariant out.store == store && out.left == left && !out.done
        invariant Move(d, ItemsOf(notes[n..], d.lower), out) == Move(d, ItemsOf(notes, d.lower), start)
      {
        assert notes[n..][0] == notes[n] && notes[n..][1..] == notes[n + 1..];
        var facts := AddFacts(notes[n].facts, notes[n].unsent, d.lower);
        var items := Paired(notes[n].number, facts);
        ghost var rest := ItemsOf(notes[n + 1..], d.lower);
        for i := 0 to |items|
          invariant out.store == store && out.left == left && !out.done
          invariant Move(d, items[i..] + rest, out) == Move(d, ItemsOf(notes, d.lower), start)
        {
          var all := items[i..] + rest;
          assert all[0] == items[i] && all[1..] == items[i + 1..] + rest;
          MoveStep(d, all, out);
          var item := items[i];
          if d.key(item.number) == "" {
            out := out.(skipped := out.skipped + [item]);
          } else if left == 0 {
            return;
          } else {
            left := left - 1;
            if d.refuses(item.number, item.fact) {
              out := out.(left := left, skipped := out.skipped + [item]);
            } else if Kept(d, item) in store {
              out := out.(left := left, there := out.there + 1);
            } else {
              store := store + {Kept(d, item)};
              out := out.(left := left, sent := out.sent + 1, store := store);
            }
          }
        }
        assert items[|items|..] + rest == rest;
      }
      MoveStep(d, [], out);
      out := out.(done := true);
    }
  }

  lemma MoveStep(d: Desktop, items: seq<Item>, m: Moving)
    ensures items == [] ==> Move(d, items, m) == m.(done := true)
    ensures items != [] ==>
      var i := items[0];
      var asked := if m.left > 0 then m.(left := m.left - 1) else m;
      Move(d, items, m) ==
        if d.key(i.number) == "" then Move(d, items[1..], m.(skipped := m.skipped + [i]))
        else if m.left == 0 then m.(done := false)
        else if d.refuses(i.number, i.fact) then Move(d, items[1..], asked.(skipped := m.skipped + [i]))
        else if Kept(d, i) in m.store then Move(d, items[1..], asked.(there := m.there + 1))
        else Move(d, items[1..], asked.(sent := m.sent + 1, store := m.store + {Kept(d, i)}))
  {
  }
}
