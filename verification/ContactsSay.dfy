/**
 * What a note says once it is brought into step with its contact
 * (app/src/contacts.ts:78-128): field by field, and what counts as a change.
 */
module ContactsSay {
  import opened Options
  import opened People
  import opened NotesMerged
  import opened Contacts

  /** The owner's facts of a contact, or the receptionist's: the texts of all of those, in order. */
  lemma {:induction false} FactsAreTexts(facts: seq<Fact>, owner: bool) returns (at: seq<nat>)
    ensures InTurn(at, |facts|) && |FactsBy(facts, owner)| == |at|
    ensures forall i :: 0 <= i < |at| ==> FactsBy(facts, owner)[i] == facts[at[i]].text
    ensures forall k: nat :: k in at <==> k < |facts| && facts[k].byOwner == owner
  {
    at := [];
    if facts != [] {
      var mine := facts[0].byOwner == owner;
      var rest := FactsAreTexts(facts[1..], owner);
      at := OneLater(rest, |facts|, mine);
      forall k: nat
        ensures k in at <==> k < |facts| && facts[k].byOwner == owner
      {
        PlacesLater(rest, at, mine, k);
        assert k > 0 ==> (k - 1 < |facts[1..]| ==> facts[1..][k - 1] == facts[k]);
      }
      forall i | 0 <= i < |at|
        ensures FactsBy(facts, owner)[i] == facts[at[i]].text
      {
        var q := if mine then i - 1 else i;
        assert q >= 0 ==> at[i] == rest[q] + 1;
      }
    }
  }

  lemma PlacesLater(rest: seq<nat>, at: seq<nat>, first: bool, k: nat)
    requires |at| == |rest| + (if first then 1 else 0) && (first ==> at[0] == 0)
    requires forall i :: 0 <= i < |rest| ==> at[if first then i + 1 else i] == rest[i] + 1
    ensures k in at <==> (k == 0 && first) || (k > 0 && k - 1 in rest)
  {
    if k in at {
      var i :| 0 <= i < |at| && at[i] == k;
      assert !(first && i == 0) ==> rest[if first then i - 1 else i] == k - 1;
    }
    if k > 0 && k - 1 in rest {
      var i :| 0 <= i < |rest| && rest[i] == k - 1;
      assert at[if first then i + 1 else i] == k;
    }
  }

  /** What of a note is the contact's, what stays, and when it is another note. */
  lemma MirroredIs(note: Option<Note>, contact: Option<Contact>, number: string, moved: bool, trim: string -> string, lower: string -> string, now: int)
    ensures
      var m := MirrorContact(note, contact, number, moved, trim, lower, now);
      if note.None? && contact.None? then m == Mirrored(None, false)
      else
        && m.note.Some?
        && var n := m.note.value;
           && n.number == (if note.Some? then note.value.number else number)
           && n.unsent == (if note.Some? then note.value.unsent else [])
           && (contact.Some? ==> n.notes == trim(contact.value.notes) && n.ownerFacts == FactsBy(contact.value.facts, true))
           && (contact.None? && moved ==> n.notes == "" && n.ownerFacts == [])
           && (contact.None? && !moved ==> n.notes == note.value.notes && n.ownerFacts == note.value.ownerFacts)
           && (m.changed <==> note.None? || n.(updatedAt := note.value.updatedAt) != note.value)
           && n.updatedAt == if m.changed then now else note.value.updatedAt
  {
    hide AddFacts, FactsBy, NameOf;
  }

  /** Whose name they go by, where the owner's name of the contact does not say: the note's, unless that was the owner's; else the contact's. */
  lemma NameIs(note: Option<Note>, contact: Contact, number: string, moved: bool, trim: string -> string, lower: string -> string, now: int)
    requires contact.name == "" || contact.nameBy != Some(OWNER)
    ensures
      var n := MirrorContact(note, Some(contact), number, moved, trim, lower, now).note.value;
      if note.Some? && note.value.name != "" && note.value.nameBy != Some(OWNER) then n.name == note.value.name && n.nameBy == note.value.nameBy
      else n.name == contact.name && n.nameBy == if contact.name != "" then contact.nameBy else None
  {
    hide AddFacts, FactsBy;
  }

  /** With no contact the note's; but a name that was the owner's is no one's once all is moved. */
  lemma NameStays(note: Note, number: string, moved: bool, trim: string -> string, lower: string -> string, now: int)
    requires note.name != "" || note.nameBy == None
    ensures
      var n := MirrorContact(Some(note), None, number, moved, trim, lower, now).note.value;
      n.name == note.name && n.nameBy == if moved && note.nameBy == Some(OWNER) then None else note.nameBy
  {
    hide AddFacts, FactsBy;
  }
}
