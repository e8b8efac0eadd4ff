/**
 * What regrouping asks of what was kept (RegroupSettles) is needed: kept
 * conversations without it, for which regrouping its own result changes
 * something (app/src/threads.ts:216-315).
 */
module RegroupCases {
  import opened Options
  import opened Subsequences
  import opened Sorting
  import opened People
  import opened Regroup
  import opened RegroupSettles

  // ---- Regrouping a conversation or two ------------------------------------------------------

  /** The lanes made of a conversation. */
  function LanesMade(p: Rules, g: Group, callers: seq<Note>): Lanes
    requires g.lanes != []
  {
    var call, sms := LaneFor(p, g, Call, callers), LaneFor(p, g, Sms, callers);
    Lanes(call.infos + sms.infos, call.changed || sms.changed)
  }

  lemma OneGroup(p: Rules, stored: Stored, g: Group, merge: Merge)
    requires OfKind(stored.infos, Task) == [] && NotTasks(stored.infos) == stored.infos
    requires Groups(p, stored.infos) == [g] && g.lanes != []
    ensures
      var callers, r := MergeCallers(p, stored.callers), RegroupAll(p, stored, merge);
      var made := LanesMade(p, g, callers.notes);
      && r.kept.infos == Sorted(made.infos, Newest()) && r.kept.callers == callers.notes
      && (r.changed <==> callers.changed || !StaysInPlace(g) || made.changed)
      && r.kept.files == map[ThreadOf(p, g) := ConversationOf(p, g, stored.files, merge)]
  {
    hide MergeCallers, Sorted, LaneFor, ConversationOf, ThreadOf, StaleFiles, Groups;
    var callers := MergeCallers(p, stored.callers);
    GroupsPeopled(p, stored.infos);
    assert [g][..0] == [];
    var first := Regrouped(Stored([], map[], callers.notes), callers.changed, [], {});
    assert AddGroups(p, first, [g], stored.files, merge) == AddGroup(p, first, g, stored.files, merge);
    assert [] + LaneFor(p, g, Call, callers.notes).infos == LaneFor(p, g, Call, callers.notes).infos;
  }

  lemma AddedInfos(p: Rules, r: Regrouped, g: Group, from: Files, merge: Merge)
    requires g.lanes != []
    ensures
      var added := AddGroup(p, r, g, from, merge).kept;
      added.infos == r.kept.infos + LanesMade(p, g, r.kept.callers).infos && added.callers == r.kept.callers
  {
    hide LaneFor, ConversationOf, ThreadOf, StaleFiles, StaysInPlace;
    JoinAgain(r.kept.infos, LaneFor(p, g, Call, r.kept.callers).infos, LaneFor(p, g, Sms, r.kept.callers).infos);
  }

  lemma TwoGroups(p: Rules, stored: Stored, g: Group, h: Group, merge: Merge)
    requires OfKind(stored.infos, Task) == [] && NotTasks(stored.infos) == stored.infos
    requires Groups(p, stored.infos) == [g, h] && g.lanes != [] && h.lanes != []
    ensures
      var callers, r := MergeCallers(p, stored.callers), RegroupAll(p, stored, merge);
      r.kept.infos == Sorted(LanesMade(p, g, callers.notes).infos + LanesMade(p, h, callers.notes).infos, Newest())
  {
    hide MergeCallers, Sorted, Groups, AddGroup, LanesMade;
    var callers := MergeCallers(p, stored.callers);
    GroupsPeopled(p, stored.infos);
    assert [g, h][..1] == [g] && [g][..0] == [];
    var first := Regrouped(Stored([], map[], callers.notes), callers.changed, [], {});
    var second := AddGroup(p, first, g, stored.files, merge);
    assert AddGroups(p, first, [g], stored.files, merge) == second;
    AddedInfos(p, first, g, stored.files, merge);
    AddedInfos(p, second, h, stored.files, merge);
    assert [] + LanesMade(p, g, callers.notes).infos == LanesMade(p, g, callers.notes).infos;
  }

  lemma OneLane(p: Rules, x: Info)
    requires x.kind != Task
    ensures OfKind([x], Task) == [] && NotTasks([x]) == [x] && Sorted([x], Newest()) == [x] && OfKind([x], x.kind) == [x]
    ensures forall k: Kind :: k != x.kind ==> OfKind([x], k) == []
    ensures Groups(p, [x]) == [Group(PersonOf(p, x), [x], WithThread([], x.thread))]
  {
    assert [x][1..] == [] && [x][..0] == [];
    assert Groups(p, [x]) == Into(p, [], x);
  }

  // ---- A note that calls someone "Hidden number" -----------------------------------------------------

  /** A caller whose note names them as a hidden caller is named: the next time, their call lane is a hidden caller's. */
  lemma ANameOfTheHidden(p: Rules, x: Info, note: Note, files: Files, merge: Merge)
    requires x.kind == Call && !x.hidden && x.title != HIDDEN && x.thread == None && x.key != TEST
    requires p.key(x.key) == x.key != "" && !p.hidden(x.key) && p.same(x.key, x.key)
    requires note.number == x.key && note.name == HIDDEN
    ensures
      var once := RegroupAll(p, Stored([x], files, [note]), merge).kept;
      RegroupAll(p, once, merge).changed
  {
    hide RegroupAll, MergeCallers, LaneChanged;
    var once := RegroupAll(p, Stored([x], files, [note]), merge).kept;
    NamedSo(p, x, note, files, merge);
    HiddenNow(p, once, once.infos[0], merge);
  }

  lemma NamedSo(p: Rules, x: Info, note: Note, files: Files, merge: Merge)
    requires x.kind == Call && !x.hidden && x.title != HIDDEN && x.thread == None && x.key != TEST
    requires p.key(x.key) == x.key != "" && !p.hidden(x.key) && p.same(x.key, x.key)
    requires note.number == x.key && note.name == HIDDEN
    ensures
      var infos := RegroupAll(p, Stored([x], files, [note]), merge).kept.infos;
      |infos| == 1 && infos[0].kind == Call && infos[0].title == HIDDEN && !infos[0].hidden && infos[0].key == x.key && infos[0].thread.Some?
  {
    hide RegroupAll, MergeCallers, LanesMade, LaneChanged, ThreadOf, Unique, HandlesOf;
    var g := Group(PersonOf(p, x), [x], []);
    OneLane(p, x);
    OneNote(p, note);
    OneGroup(p, Stored([x], files, [note]), g, merge);
    assert FindCaller(p, [note], x.key) == Some(note);
    assert TitleOf(p, g, [note]) == HIDDEN;
    hide TitleOf;
    CallMade(p, g, x, [note]);
  }

  lemma HiddenNow(p: Rules, stored: Stored, y: Info, merge: Merge)
    requires stored.infos == [y] && y.kind == Call && y.title == HIDDEN && !y.hidden && y.key != TEST && y.thread.Some?
    ensures RegroupAll(p, stored, merge).changed
  {
    hide RegroupAll, MergeCallers, LanesMade, ThreadOf, TitleOf, Unique, HandlesOf, StaysInPlace;
    var g := Group(PersonOf(p, y), [y], [y.thread.value]);
    OneLane(p, y);
    assert [] + [y.thread.value] == [y.thread.value];
    OneGroup(p, stored, g, merge);
    CallMade(p, g, y, MergeCallers(p, stored.callers).notes);
  }

  // ---- A key that is not its own key -------------------------------------------------------------------

  /** A note whose number's key has another key: the next time it is kept under that one. */
  lemma AKeyNotItsOwn(p: Rules, note: Note, files: Files, merge: Merge)
    requires KeyOf(p, KeyOf(p, note.number)) != KeyOf(p, note.number)
    ensures
      var once := RegroupAll(p, Stored([], files, [note]), merge).kept;
      RegroupAll(p, once, merge).changed
  {
    hide KeyOf;
    NoLanes(p, Stored([], files, [note]), merge);
    AddedUnderKey(p, note);
    var once := RegroupAll(p, Stored([], files, [note]), merge).kept;
    NoLanes(p, once, merge);
    AddedUnderKey(p, once.callers[0]);
  }

  lemma NoLanes(p: Rules, stored: Stored, merge: Merge)
    requires stored.infos == []
    ensures
      var callers, r := MergeCallers(p, stored.callers), RegroupAll(p, stored, merge);
      r.kept.infos == [] && r.kept.callers == callers.notes && r.changed == callers.changed
  {
    hide MergeCallers;
  }

  lemma AddedUnderKey(p: Rules, note: Note)
    ensures MergeCallers(p, [note]) == Callers([note.(number := KeyOf(p, note.number))], KeyOf(p, note.number) != note.number)
  {
    hide KeyOf;
    assert [note][..0] == [];
    assert Sorted([note], ByUpdate()) == [note];
    assert AddNotes(p, []) == Callers([], false);
    assert [] + [note.(number := KeyOf(p, note.number))] == [note.(number := KeyOf(p, note.number))];
  }

  lemma OneNote(p: Rules, note: Note)
    requires KeyOf(p, note.number) == note.number
    ensures MergeCallers(p, [note]) == Callers([note], false)
  {
    AddedUnderKey(p, note);
  }

  /** What is made of a conversation of one call lane. */
  lemma CallMade(p: Rules, g: Group, x: Info, callers: seq<Note>)
    requires g.lanes == [x] && x.kind == Call
    ensures
      var lane := LaneOf(g, Call, [x], TitleOf(p, g, callers), ThreadOf(p, g));
      LanesMade(p, g, callers) == Lanes([lane], LaneChanged([x], lane)) && Sorted([lane], Newest()) == [lane]
  {
    hide TitleOf, ThreadOf, LaneOf, LaneChanged;
    OneLane(p, x);
    assert Sorted([], Newest()) == [];
    var lane := LaneOf(g, Call, [x], TitleOf(p, g, callers), ThreadOf(p, g));
    assert [lane] + [] == [lane];
  }

  // ---- A conversation of a hidden caller and a person ------------------------------------------------

  /**
   * A hidden caller's call lane and a person's texts in one conversation: the
   * texts get the hidden caller's key as it was written, and the next time,
   * being newer and so first, its key.
   */
  lemma AMixedConversation(p: Rules, a: Info, b: Info, id: string, files: Files, merge: Merge)
    requires a.kind == Call && a.hidden && b.kind == Sms && !b.hidden && a.thread == Some(id) == b.thread && a.lastAt < b.lastAt
    requires a.key != TEST && !p.hidden(a.key) && p.key(a.key) !in {"", a.key}
    ensures
      var once := RegroupAll(p, Stored([a, b], files, []), merge).kept;
      RegroupAll(p, once, merge).changed
  {
    hide RegroupAll, MergeCallers, LaneFor, StaysInPlace, TitleOf, Unique, HandlesOf;
    var stored := Stored([a, b], files, []);
    var once := RegroupAll(p, stored, merge).kept;
    TwoLanes(p, a, b);
    var g := Group(PersonOf(p, a), [a, b], [id]);
    OneGroup(p, stored, g, merge);
    var notes := MergeCallers(p, []).notes;
    BothMade(p, g, a, b, a, b, notes);
    var x, y := LaneOf(g, Call, [a], TitleOf(p, g, notes), id), LaneOf(g, Sms, [b], TitleOf(p, g, notes), id);
    SortedTwo(x, y);
    assert once.infos == [y, x];
    TwoLanes(p, y, x);
    var h := Group(PersonOf(p, y), [y, x], [id]);
    OneGroup(p, once, h, merge);
    BothMade(p, h, y, x, x, y, MergeCallers(p, once.callers).notes);
  }

  lemma SortedTwo(a: Info, b: Info)
    requires a.lastAt < b.lastAt
    ensures Sorted([a] + [b], Newest()) == [b, a]
  {
    var s := [a] + [b];
    assert s[1..] == [b];
    SortedOne([b], Newest());
    assert [b][1..] == [];
    assert Placed(a, [], Newest()) == [a] + [];
  }

  /** Two lanes of one conversation. */
  lemma TwoLanes(p: Rules, a: Info, b: Info)
    requires a.kind != Task && b.kind != Task && a.thread.Some? && a.thread == b.thread
    ensures OfKind([a, b], Task) == [] && NotTasks([a, b]) == [a, b]
    ensures Groups(p, [a, b]) == [Group(PersonOf(p, a), [a, b], [a.thread.value])]
  {
    hide PersonOf;
    OneLane(p, a);
    OneLane(p, b);
    assert [a, b][1..] == [b] && [a, b][..1] == [a];
    assert [] + [a.thread.value] == [a.thread.value] && [a] + [b] == [a, b];
    var g := Group(PersonOf(p, a), [a], [a.thread.value]);
    assert Groups(p, [a]) == [g] && Belongs(p, g, b);
    assert Groups(p, [a, b]) == Into(p, [g], b);
  }

  /** What is made of a conversation of a call lane and a text lane, in whichever order. */
  lemma BothMade(p: Rules, g: Group, a: Info, b: Info, call: Info, sms: Info, callers: seq<Note>)
    requires g.lanes == [a, b] && [a, b] in {[call, sms], [sms, call]} && call.kind == Call && sms.kind == Sms
    ensures
      var x := LaneOf(g, Call, [call], TitleOf(p, g, callers), ThreadOf(p, g));
      var y := LaneOf(g, Sms, [sms], TitleOf(p, g, callers), ThreadOf(p, g));
      LanesMade(p, g, callers) == Lanes([x] + [y], LaneChanged([call], x) || LaneChanged([sms], y))
  {
    hide TitleOf, ThreadOf, LaneOf, LaneChanged;
    OneLane(p, call);
    OneLane(p, sms);
    assert [a, b][1..] == [b] && g.lanes[0] == a;
    assert OfKind(g.lanes, Call) == [call] && OfKind(g.lanes, Sms) == [sms];
  }

  // ---- Two conversations under one id ----------------------------------------------------------------------

  /** Two people whose conversations come to one id: the next time they are one conversation. */
  lemma OneIdForTwo(p: Rules, a: Info, b: Info, files: Files, merge: Merge)
    requires a.kind == Call && b.kind == Call && a.thread == None == b.thread && a.lastAt < b.lastAt
    requires !OnePerson(p, PersonOf(p, a), PersonOf(p, b))
    requires ThreadOf(p, Group(PersonOf(p, a), [a], [])) == ThreadOf(p, Group(PersonOf(p, b), [b], []))
    ensures
      var once := RegroupAll(p, Stored([a, b], files, []), merge).kept;
      RegroupAll(p, once, merge).changed
  {
    hide RegroupAll, MergeCallers, LaneFor, StaysInPlace, TitleOf, Unique, HandlesOf, ThreadOf, PersonOf, LaneChanged;
    var stored := Stored([a, b], files, []);
    var once := RegroupAll(p, stored, merge).kept;
    var g, h := Group(PersonOf(p, a), [a], []), Group(PersonOf(p, b), [b], []);
    TwoPeople(p, a, b);
    TwoGroups(p, stored, g, h, merge);
    var notes := MergeCallers(p, []).notes;
    CallMade(p, g, a, notes);
    CallMade(p, h, b, notes);
    var x, y := LaneOf(g, Call, [a], TitleOf(p, g, notes), ThreadOf(p, g)), LaneOf(h, Call, [b], TitleOf(p, h, notes), ThreadOf(p, h));
    SortedTwo(x, y);
    TwoLanes(p, y, x);
    var k := Group(PersonOf(p, y), [y, x], [y.thread.value]);
    OneGroup(p, once, k, merge);
    NotInPlace(k, y, x);
  }

  lemma NotInPlace(g: Group, a: Info, b: Info)
    requires g.lanes == [a, b] && a.kind == Call && b.kind == Call
    ensures !StaysInPlace(g)
  {
    assert [a, b][1..] == [b] && [b][1..] == [];
    assert OfKind([b], Call) == [b] + [] && OfKind([a, b], Call) == [a] + [b];
  }

  lemma TwoPeople(p: Rules, a: Info, b: Info)
    requires a.kind != Task && b.kind != Task && a.thread == None == b.thread && !OnePerson(p, PersonOf(p, a), PersonOf(p, b))
    ensures OfKind([a, b], Task) == [] && NotTasks([a, b]) == [a, b]
    ensures Groups(p, [a, b]) == [Group(PersonOf(p, a), [a], []), Group(PersonOf(p, b), [b], [])]
  {
    hide PersonOf;
    OneLane(p, a);
    OneLane(p, b);
    assert [a, b][1..] == [b] && [a, b][..1] == [a] && [a] + [b] == [a, b];
    var g := Group(PersonOf(p, a), [a], []);
    assert Groups(p, [a]) == [g] && !Belongs(p, g, b);
    assert Groups(p, [a, b]) == Into(p, [g], b);
  }

  // ---- Turns taken twice, or by no lane ----------------------------------------------------------------------

  function TurnsIn(parts: seq<Part>): seq<Turn> {
    if parts == [] then [] else parts[0].turns + TurnsIn(parts[1..])
  }

  predicate MarkedAsTheirs(parts: seq<Part>) {
    forall i, j :: 0 <= i < |parts| && 0 <= j < |parts[i].turns| ==> parts[i].turns[j].via == Some(parts[i].via)
  }

  /** Merging loses and doubles no turn of its parts, as mergeLanes does not (LaneMerge.MergedHasAll). */
  ghost predicate KeepsAll(merge: Merge) {
    forall parts :: MarkedAsTheirs(parts) ==> multiset(merge(parts)) == multiset(TurnsIn(parts))
  }

  /** Two call lanes kept in one conversation: regrouped, it has its turn twice. */
  lemma TurnDoubled(p: Rules, a: Info, b: Info, id: string, turn: Turn, merge: Merge)
    requires a.kind == Call && b.kind == Call && a.id != b.id && a.thread == Some(id) == b.thread && turn.via == Some(Call) && KeepsAll(merge)
    ensures
      var files := RegroupAll(p, Stored([a, b], map[id := [turn]], []), merge).kept.files;
      files.Keys == {id} && multiset(files[id]) == multiset{turn, turn}
  {
    hide RegroupAll, LaneFor, Groups, TitleOf, Sorted, KeepsAll, MergeCallers, PersonOf, LanesMade;
    var stored := Stored([a, b], map[id := [turn]], []);
    TwoLanes(p, a, b);
    var g := Group(PersonOf(p, a), [a, b], [id]);
    OneGroup(p, stored, g, merge);
    NotInPlace(g, a, b);
    BothTake(g, a, b, id, turn);
    var parts := [Part(Call, [turn], a.lastAt), Part(Call, [turn], b.lastAt)];
    assert MarkedAsTheirs(parts);
    TurnsOfTwo(parts[0], parts[1]);
    assert multiset(merge(parts)) == multiset(TurnsIn(parts)) by {
      MergedAll(merge, parts);
    }
  }

  lemma MergedAll(merge: Merge, parts: seq<Part>)
    requires KeepsAll(merge) && MarkedAsTheirs(parts)
    ensures multiset(merge(parts)) == multiset(TurnsIn(parts))
  {
  }

  lemma TurnsOfTwo(x: Part, y: Part)
    ensures TurnsIn([x, y]) == x.turns + y.turns
  {
    assert [x, y][1..] == [y] && [y][1..] == [] && TurnsIn([]) == [];
    assert TurnsIn([y]) == y.turns + [] == y.turns;
  }

  /** What a lane takes of a file of one turn. */
  lemma OneTurn(turn: Turn, kind: Kind, only: bool)
    ensures PartTurns([turn], kind, only) == if turn.via == Some(kind) || (only && turn.via.None?) then [turn] else []
  {
    assert [turn][1..] == [] && PartTurns([], kind, only) == [];
  }

  lemma OnePart(g: Group, x: Info, files: Files)
    ensures PartsOf(g, [x], files) == [PartOf(g, x, files)]
  {
    hide PartOf;
    assert [x][1..] == [] && PartsOf(g, [], files) == [];
  }

  lemma TwoParts(g: Group, x: Info, y: Info, files: Files)
    ensures PartsOf(g, [x, y], files) == [PartOf(g, x, files), PartOf(g, y, files)]
  {
    hide PartOf;
    assert [x, y][1..] == [y];
    OnePart(g, y, files);
  }

  lemma OfKindNext(x: Info, rest: seq<Info>, kind: Kind)
    ensures OfKind([x] + rest, kind) == (if x.kind == kind then [x] else []) + OfKind(rest, kind)
    ensures NotTasks([x] + rest) == (if x.kind != Task then [x] else []) + NotTasks(rest)
  {
    assert ([x] + rest)[1..] == rest;
  }

  lemma BothTake(g: Group, a: Info, b: Info, id: string, turn: Turn)
    requires g.lanes == [a, b] && a.kind == Call && b.kind == Call && a.thread == Some(id) == b.thread && turn.via == Some(Call)
    ensures
      var files := map[id := [turn]];
      PartsOf(g, OfKind(g.lanes, Call), files) + PartsOf(g, OfKind(g.lanes, Sms), files) == [Part(Call, [turn], a.lastAt), Part(Call, [turn], b.lastAt)]
  {
    hide PartsOf, PartTurns, Sharing, OfKind;
    var files := map[id := [turn]];
    assert [a] + [b] == [a, b];
    OfOneKind(b);
    OfKindNext(a, [b], Call);
    OfKindNext(a, [b], Sms);
    OneTurn(turn, Call, Sharing(g.lanes, Some(id)) == 1);
    TwoParts(g, a, b, files);
    NoParts(g, files);
    var x, y := PartOf(g, a, files), PartOf(g, b, files);
    assert [x, y] + [] == [x, y];
  }

  lemma NoParts(g: Group, files: Files)
    ensures PartsOf(g, [], files) == []
  {
  }

  /**
   * A person's call and text lanes in one conversation, whose turn is not marked,
   * and a call lane of theirs in none: regrouped, the conversation has lost it.
   */
  lemma TurnLost(p: Rules, l: Info, id: string, other: string, turn: Turn, merge: Merge)
    requires l.kind == Call && l.thread == Some(id) && !PersonOf(p, l).alone && other != id && turn.via == None && KeepsAll(merge)
    ensures
      var stored := Stored([l, l.(kind := Sms), l.(id := other, thread := None)], map[id := [turn]], []);
      RegroupAll(p, stored, merge).kept.files == map[id := []]
  {
    hide RegroupAll, LaneFor, Groups, TitleOf, Sorted, KeepsAll, MergeCallers, PersonOf, LanesMade, PartsOf, OfKind, NotTasks, StaysInPlace, ThreadOf;
    var m, n := l.(kind := Sms), l.(id := other, thread := None);
    var stored := Stored([l, m, n], map[id := [turn]], []);
    StillThePerson(p, l, n);
    ThreeLanes(p, l, m, n, id);
    var g := Group(PersonOf(p, l), [l, m, n], [id]);
    OneGroup(p, stored, g, merge);
    NotAllThreaded(p, g, id, n);
    NoneTakes(g, l, m, n, id, other, turn);
    var parts := [Part(Call, [], l.lastAt), Part(Call, [], n.lastAt), Part(Sms, [], m.lastAt)];
    assert MarkedAsTheirs(parts);
    assert [parts[0], parts[1], parts[2]][1..] == [parts[1], parts[2]];
    TurnsOfTwo(parts[1], parts[2]);
    MergedAll(merge, parts);
    assert |multiset(merge(parts))| == 0;
  }

  lemma NotAllThreaded(p: Rules, g: Group, id: string, n: Info)
    requires |g.lanes| == 3 && g.lanes[2] == n && n.thread == None && g.threads == [id]
    ensures !StaysInPlace(g) && ThreadOf(p, g) == id
  {
    assert g.lanes[2].thread.None?;
  }

  lemma StillThePerson(p: Rules, l: Info, n: Info)
    requires n == l.(id := n.id, thread := None)
    ensures PersonOf(p, n) == PersonOf(p, l)
  {
  }

  lemma ThreeLanes(p: Rules, l: Info, m: Info, n: Info, id: string)
    requires l.kind != Task && m.kind != Task && n.kind != Task && l.thread == Some(id) == m.thread && n.thread == None
    requires !PersonOf(p, l).alone && PersonOf(p, n) == PersonOf(p, l)
    ensures OfKind([l, m, n], Task) == [] && NotTasks([l, m, n]) == [l, m, n]
    ensures Groups(p, [l, m, n]) == [Group(PersonOf(p, l), [l, m, n], [id])]
  {
    hide PersonOf, OfKind, NotTasks;
    TwoLanes(p, l, m);
    OfOneKind(n);
    assert [l] + [m, n] == [l, m, n] && [m] + [n] == [m, n];
    OfKindNext(l, [m, n], Task);
    OfKindNext(m, [n], Task);
    assert [l, m, n][..2] == [l, m] && [l, m] + [n] == [l, m, n];
    var g := Group(PersonOf(p, l), [l, m], [id]);
    assert Belongs(p, g, n);
    assert Groups(p, [l, m, n]) == Into(p, [g], n);
  }

  lemma OfOneKind(x: Info)
    ensures forall k: Kind :: OfKind([x], k) == if x.kind == k then [x] else []
    ensures x.kind != Task ==> NotTasks([x]) == [x]
  {
    assert [x][1..] == [];
    assert NotTasks([]) == [] && forall k: Kind :: OfKind([], k) == [];
  }

  lemma NoneTakes(g: Group, l: Info, m: Info, n: Info, id: string, other: string, turn: Turn)
    requires g.lanes == [l, m, n] && l.kind == Call && m.kind == Sms && n.kind == Call && l.thread == Some(id) == m.thread
    requires n.thread == None && n.id == other != id && turn.via == None
    ensures
      var files := map[id := [turn]];
      PartsOf(g, OfKind(g.lanes, Call), files) + PartsOf(g, OfKind(g.lanes, Sms), files)
        == [Part(Call, [], l.lastAt), Part(Call, [], n.lastAt), Part(Sms, [], m.lastAt)]
  {
    hide PartsOf, PartTurns, Sharing, OfKind, PartOf;
    var files := map[id := [turn]];
    TheLanesOfEach(l, m, n);
    TwoParts(g, l, n, files);
    OnePart(g, m, files);
    TakesNone(g, l, m, n, id, other, turn);
    assert [Part(Call, [], l.lastAt), Part(Call, [], n.lastAt)] + [Part(Sms, [], m.lastAt)]
        == [Part(Call, [], l.lastAt), Part(Call, [], n.lastAt), Part(Sms, [], m.lastAt)];
  }

  lemma TheLanesOfEach(l: Info, m: Info, n: Info)
    requires l.kind == Call && m.kind == Sms && n.kind == Call
    ensures OfKind([l, m, n], Call) == [l, n] && OfKind([l, m, n], Sms) == [m]
  {
    hide OfKind;
    assert [l] + [m, n] == [l, m, n] && [m] + [n] == [m, n] && [l] + [n] == [l, n];
    OfOneKind(n);
    OfKindNext(l, [m, n], Call);
    OfKindNext(m, [n], Call);
    OfKindNext(l, [m, n], Sms);
    OfKindNext(m, [n], Sms);
  }

  lemma TakesNone(g: Group, l: Info, m: Info, n: Info, id: string, other: string, turn: Turn)
    requires g.lanes == [l, m, n] && l.kind == Call && m.kind == Sms && n.kind == Call && l.thread == Some(id) == m.thread
    requires n.thread == None && n.id == other != id && turn.via == None
    ensures
      var files := map[id := [turn]];
      && PartOf(g, l, files) == Part(Call, [], l.lastAt) && PartOf(g, n, files) == Part(Call, [], n.lastAt)
      && PartOf(g, m, files) == Part(Sms, [], m.lastAt)
  {
    hide PartTurns, Sharing;
    TwoShare(l, m, n, id);
    OneTurn(turn, Call, false);
    OneTurn(turn, Sms, false);
  }

  lemma TwoShare(l: Info, m: Info, n: Info, id: string)
    requires l.thread == Some(id) == m.thread && n.thread == None
    ensures Sharing([l, m, n], Some(id)) == 2
  {
    assert [l, m, n][1..] == [m, n] && [m, n][1..] == [n] && [n][1..] == [];
    assert Sharing([], Some(id)) == 0;
    assert Sharing([n], Some(id)) == 0;
    assert Sharing([m, n], Some(id)) == 1;
  }
}
