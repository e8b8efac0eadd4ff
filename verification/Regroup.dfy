/**
 * The conversations kept, with each person's as one (regroup,
 * app/src/threads.ts:216-315), and that running it on what it returned changes
 * nothing. A file's turns are values here; how lanes' turns are merged is
 * LaneMerge's, and a part of the input.
 */
module Regroup {
  import opened Options
  import opened Subsequences
  import opened Sorting
  import opened People

  datatype Kind = Call | Sms | Task

  datatype Info = Info(
    id: string, kind: Kind, key: string, title: string, lastAt: int, unread: nat, handles: seq<string>,
    thread: Option<string>, hidden: bool, vouched: bool)

  /** A turn, and the lane it is marked with. */
  datatype Turn = Turn(id: nat, via: Option<Kind>)
  datatype Part = Part(via: Kind, turns: seq<Turn>, lastAt: int)

  type Files = map<string, seq<Turn>>
  type Merge = seq<Part> -> seq<Turn>

  function TurnsOf(files: Files, file: string): seq<Turn> {
    if file in files then files[file] else []
  }

  // ---- Whose a lane is ------------------------------------------------------------------------

  datatype Person = Person(key: string, alone: bool)

  function PersonOf(p: Rules, info: Info): Person {
    if info.key == TEST then Person(TEST, true)
    else if info.hidden || (info.kind == Call && info.title == HIDDEN) || p.hidden(info.key) then Person(info.key, true)
    else Person(if p.key(info.key) != "" then p.key(info.key) else info.key, false)
  }

  /** Two that are not alone are one person. */
  predicate OnePerson(p: Rules, a: Person, b: Person) {
    !a.alone && !b.alone && (a.key == b.key || p.same(a.key, b.key))
  }

  datatype Group = Group(who: Person, lanes: seq<Info>, threads: seq<string>)

  predicate Belongs(p: Rules, g: Group, info: Info) {
    (info.thread.Some? && info.thread.value in g.threads) || OnePerson(p, g.who, PersonOf(p, info))
  }

  function FindGroup(p: Rules, groups: seq<Group>, info: Info, from: nat): (r: Option<nat>)
    requires from <= |groups|
    ensures r.Some? ==> from <= r.value < |groups| && Belongs(p, groups[r.value], info)
    ensures r.None? ==> forall i :: from <= i < |groups| ==> !Belongs(p, groups[i], info)
    decreases |groups| - from
  {
    if from == |groups| then None
    else if Belongs(p, groups[from], info) then Some(from)
    else FindGroup(p, groups, info, from + 1)
  }

  function WithThread(threads: seq<string>, thread: Option<string>): seq<string> {
    if thread.None? || thread.value in threads then threads else threads + [thread.value]
  }

  function Into(p: Rules, groups: seq<Group>, info: Info): seq<Group> {
    var g := FindGroup(p, groups, info, 0);
    if g.None? then groups + [Group(PersonOf(p, info), [info], WithThread([], info.thread))]
    else groups[g.value := groups[g.value].(lanes := groups[g.value].lanes + [info], threads := WithThread(groups[g.value].threads, info.thread))]
  }

  /** The groups after every lane of the list was put into one. */
  function Groups(p: Rules, infos: seq<Info>): seq<Group> {
    if infos == [] then [] else Into(p, Groups(p, infos[..|infos| - 1]), infos[|infos| - 1])
  }

  function OfKind(infos: seq<Info>, kind: Kind): (r: seq<Info>)
    ensures |r| <= |infos| && forall i :: 0 <= i < |r| ==> r[i] in infos && r[i].kind == kind
  {
    if infos == [] then [] else (if infos[0].kind == kind then [infos[0]] else []) + OfKind(infos[1..], kind)
  }

  function NotTasks(infos: seq<Info>): (r: seq<Info>)
    ensures forall i :: 0 <= i < |r| ==> r[i] in infos && r[i].kind != Task
  {
    if infos == [] then [] else (if infos[0].kind != Task then [infos[0]] else []) + NotTasks(infos[1..])
  }

  // ---- One conversation -------------------------------------------------------------------------

  function Newest(): Info -> int {
    (i: Info) => -i.lastAt
  }

  predicate AllThreaded(lanes: seq<Info>) {
    forall i :: 0 <= i < |lanes| ==> lanes[i].thread.Some?
  }

  /** The conversation they are all kept in already. */
  function KeptThread(g: Group): Option<string> {
    if |g.threads| == 1 && AllThreaded(g.lanes) then Some(g.threads[0]) else None
  }

  predicate OneOfEach(g: Group) {
    |OfKind(g.lanes, Call)| <= 1 && |OfKind(g.lanes, Sms)| <= 1
  }

  function ThreadOf(p: Rules, g: Group): string
    requires g.lanes != []
  {
    if g.threads != [] then g.threads[0] else p.threadId(if g.who.alone then g.lanes[0].key else g.who.key)
  }

  function FindCaller(p: Rules, callers: seq<Note>, key: string): Option<Note> {
    if callers == [] then None else if p.same(callers[0].number, key) then Some(callers[0]) else FindCaller(p, callers[1..], key)
  }

  function FirstName(p: Rules, lanes: seq<Info>): Option<string> {
    if lanes == [] then None else if p.isName(lanes[0].title, lanes[0].key) then Some(lanes[0].title) else FirstName(p, lanes[1..])
  }

  function TitleOf(p: Rules, g: Group, callers: seq<Note>): string
    requires g.lanes != []
  {
    var note := if g.who.alone then None else FindCaller(p, callers, g.who.key);
    var named := FirstName(p, Sorted(g.lanes, Newest()));
    if note.Some? && note.value.name != "" then note.value.name
    else if named.Some? && named.value != "" then named.value
    else if g.who.key == TEST then "Test"
    else if g.who.alone && g.lanes[0].title != "" then g.lanes[0].title
    else g.who.key
  }

  function MarkAll(turns: seq<Turn>, kind: Kind): (r: seq<Turn>)
    ensures |r| == |turns| && forall i :: 0 <= i < |turns| ==> r[i] == if turns[i].via.None? then turns[i].(via := Some(kind)) else turns[i]
  {
    seq(|turns|, i requires 0 <= i < |turns| => if turns[i].via.None? then turns[i].(via := Some(kind)) else turns[i])
  }

  function PartTurns(turns: seq<Turn>, kind: Kind, only: bool): seq<Turn> {
    if turns == [] then []
    else (if turns[0].via == Some(kind) || (only && turns[0].via.None?) then [turns[0]] else []) + PartTurns(turns[1..], kind, only)
  }

  function Sharing(lanes: seq<Info>, thread: Option<string>): nat {
    if lanes == [] then 0 else (if lanes[0].thread == thread then 1 else 0) + Sharing(lanes[1..], thread)
  }

  /** A lane's turns: its own file's, or its part of a conversation's. */
  function PartOf(g: Group, l: Info, files: Files): Part {
    Part(l.kind,
         if l.thread.None? then TurnsOf(files, l.id) else PartTurns(TurnsOf(files, l.thread.value), l.kind, Sharing(g.lanes, l.thread) == 1),
         l.lastAt)
  }

  function PartsOf(g: Group, lanes: seq<Info>, files: Files): seq<Part> {
    if lanes == [] then [] else [PartOf(g, lanes[0], files)] + PartsOf(g, lanes[1..], files)
  }

  predicate StaysInPlace(g: Group) {
    KeptThread(g).Some? && OneOfEach(g)
  }

  function ConversationOf(p: Rules, g: Group, files: Files, merge: Merge): seq<Turn>
    requires g.lanes != []
  {
    if StaysInPlace(g) then
      var turns := TurnsOf(files, g.threads[0]);
      if |g.lanes| == 1 then MarkAll(turns, g.lanes[0].kind) else turns
    else merge(PartsOf(g, OfKind(g.lanes, Call), files) + PartsOf(g, OfKind(g.lanes, Sms), files))
  }

  /** The files it was kept in that are not its own. */
  function StaleFiles(lanes: seq<Info>, thread: string): set<string> {
    set i | 0 <= i < |lanes| && FileOf(lanes[i]) != thread :: FileOf(lanes[i])
  }

  function FileOf(l: Info): string {
    if l.thread.Some? then l.thread.value else l.id
  }

  // ---- Its lanes -------------------------------------------------------------------------------------

  function Unique(s: seq<string>, seen: set<string>): (r: seq<string>)
    ensures forall i :: 0 <= i < |r| ==> r[i] !in seen
    ensures NoRepeats(r)
  {
    if s == [] then [] else if s[0] in seen then Unique(s[1..], seen) else [s[0]] + Unique(s[1..], seen + {s[0]})
  }

  function HandlesOf(lanes: seq<Info>): seq<string> {
    if lanes == [] then [] else lanes[0].handles + HandlesOf(lanes[1..])
  }

  function Latest(lanes: seq<Info>): int
    requires lanes != []
  {
    if |lanes| == 1 then lanes[0].lastAt
    else
      var rest := Latest(lanes[1..]);
      if lanes[0].lastAt > rest then lanes[0].lastAt else rest
  }

  function Unread(lanes: seq<Info>): nat {
    if lanes == [] then 0 else lanes[0].unread + Unread(lanes[1..])
  }

  predicate AnyHidden(lanes: seq<Info>) {
    exists i :: 0 <= i < |lanes| && lanes[i].hidden
  }

  predicate AnyVouched(lanes: seq<Info>) {
    exists i :: 0 <= i < |lanes| && lanes[i].vouched
  }

  /** A conversation's lane of a kind, of those it had. */
  function LaneOf(g: Group, kind: Kind, lanes: seq<Info>, title: string, thread: string): Info
    requires lanes != []
  {
    Info(lanes[0].id, kind, g.who.key, title, Latest(lanes), Unread(lanes), LastOf(Unique(HandlesOf(lanes), {}), 100), Some(thread),
         AnyHidden(lanes) || (g.who.alone && g.who.key != TEST && kind == Call), AnyVouched(lanes))
  }

  /** It is not as it was kept (a name alone is no change). */
  predicate LaneChanged(lanes: seq<Info>, lane: Info)
    requires lanes != []
  {
    |lanes| > 1 || lanes[0].key != lane.key || lanes[0].thread != lane.thread || lanes[0].hidden != lane.hidden
  }

  datatype Lanes = Lanes(infos: seq<Info>, changed: bool)

  function LaneFor(p: Rules, g: Group, kind: Kind, callers: seq<Note>): Lanes
    requires g.lanes != []
  {
    var lanes := Sorted(OfKind(g.lanes, kind), Newest());
    if lanes == [] then Lanes([], false)
    else
      var lane := LaneOf(g, kind, lanes, TitleOf(p, g, callers), ThreadOf(p, g));
      Lanes([lane], LaneChanged(lanes, lane))
  }

  // ---- All of them ---------------------------------------------------------------------------------------

  datatype Stored = Stored(infos: seq<Info>, files: Files, callers: seq<Note>)
  datatype Regrouped = Regrouped(kept: Stored, changed: bool, rewritten: seq<string>, stale: set<string>)

  function TaskThread(i: Info): string {
    if i.thread.Some? then i.thread.value else i.id
  }

  /** The task lanes, each with its file, which is kept under its thread or its id. */
  function WithTasks(tasks: seq<Info>, from: Files): (r: (seq<Info>, Files))
  {
    if tasks == [] then ([], map[])
    else
      var n := |tasks| - 1;
      var before := WithTasks(tasks[..n], from);
      (before.0 + [tasks[n].(thread := Some(TaskThread(tasks[n])))], before.1[TaskThread(tasks[n]) := TurnsOf(from, TaskThread(tasks[n]))])
  }

  ghost predicate Peopled(groups: seq<Group>) {
    forall i :: 0 <= i < |groups| ==> groups[i].lanes != []
  }

  function AddGroup(p: Rules, r: Regrouped, g: Group, from: Files, merge: Merge): Regrouped
    requires g.lanes != []
  {
    var thread := ThreadOf(p, g);
    var call, sms := LaneFor(p, g, Call, r.kept.callers), LaneFor(p, g, Sms, r.kept.callers);
    Regrouped(
      Stored(r.kept.infos + call.infos + sms.infos, r.kept.files[thread := ConversationOf(p, g, from, merge)], r.kept.callers),
      r.changed || !StaysInPlace(g) || call.changed || sms.changed,
      if StaysInPlace(g) then r.rewritten else r.rewritten + [thread],
      if StaysInPlace(g) then r.stale else r.stale + StaleFiles(g.lanes, thread))
  }

  ghost function AddGroups(p: Rules, r: Regrouped, groups: seq<Group>, from: Files, merge: Merge): Regrouped
    requires Peopled(groups)
    decreases |groups|
  {
    if groups == [] then r
    else
      var n := |groups| - 1;
      AddGroup(p, AddGroups(p, r, groups[..n], from, merge), groups[n], from, merge)
  }

  lemma {:induction false} GroupsPeopled(p: Rules, infos: seq<Info>)
    ensures Peopled(Groups(p, infos))
  {
    if infos != [] {
      GroupsPeopled(p, infos[..|infos| - 1]);
    }
  }

  ghost function RegroupAll(p: Rules, stored: Stored, merge: Merge): Regrouped {
    var callers := MergeCallers(p, stored.callers);
    var tasks := WithTasks(OfKind(stored.infos, Task), stored.files);
    var groups := Groups(p, NotTasks(stored.infos));
    GroupsPeopled(p, NotTasks(stored.infos));
    var r := AddGroups(p, Regrouped(Stored(tasks.0, tasks.1, callers.notes), callers.changed, [], {}), groups, stored.files, merge);
    r.(kept := r.kept.(infos := Sorted(r.kept.infos, Newest())))
  }

  // ---- Which turns a conversation's lanes take -----------------------------------------------------------

  /** Whether a lane takes a turn of its conversation's file: marked as its own, or not marked when it is the only lane of it. */
  predicate Takes(l: Info, thread: string, via: Option<Kind>, sharing: nat) {
    l.thread == Some(thread) && (via == Some(l.kind) || (sharing == 1 && via.None?))
  }

  function Takers(lanes: seq<Info>, thread: string, via: Option<Kind>, sharing: nat): nat {
    if lanes == [] then 0 else (if Takes(lanes[0], thread, via, sharing) then 1 else 0) + Takers(lanes[1..], thread, via, sharing)
  }

  /** What a conversation's lanes take of a file, lane after lane. */
  function TakenFrom(g: Group, lanes: seq<Info>, files: Files, thread: string): seq<Turn> {
    if lanes == [] then []
    else (if lanes[0].thread == Some(thread) then PartOf(g, lanes[0], files).turns else []) + TakenFrom(g, lanes[1..], files, thread)
  }

  lemma {:induction false} PartHas(turns: seq<Turn>, kind: Kind, only: bool, x: Turn)
    ensures multiset(PartTurns(turns, kind, only))[x] == if x.via == Some(kind) || (only && x.via.None?) then multiset(turns)[x] else 0
  {
    if turns != [] {
      PartHas(turns[1..], kind, only, x);
      assert turns == [turns[0]] + turns[1..];
    }
  }

  /** Merging a conversation takes each turn of a file once for each of its lanes that takes it. */
  lemma {:induction false} TurnsTaken(g: Group, lanes: seq<Info>, files: Files, thread: string, x: Turn)
    ensures multiset(TakenFrom(g, lanes, files, thread))[x]
         == Takers(lanes, thread, x.via, Sharing(g.lanes, Some(thread))) * multiset(TurnsOf(files, thread))[x]
  {
    hide PartTurns, Sharing, TurnsOf;
    if lanes != [] {
      TurnsTaken(g, lanes[1..], files, thread, x);
      var l, sharing := lanes[0], Sharing(g.lanes, Some(thread));
      var turns := TurnsOf(files, thread);
      PartHas(turns, l.kind, sharing == 1, x);
      OneMoreTaker(Takers(lanes[1..], thread, x.via, sharing), multiset(turns)[x]);
    }
  }

  lemma OneMoreTaker(n: nat, m: nat)
    ensures (1 + n) * m == m + n * m && (0 + n) * m == n * m
  {
  }

  /** How many lanes of a kind a file has. */
  function SharingKind(lanes: seq<Info>, thread: string, kind: Kind): nat {
    if lanes == [] then 0 else (if lanes[0].thread == Some(thread) && lanes[0].kind == kind then 1 else 0) + SharingKind(lanes[1..], thread, kind)
  }

  /** A turn marked is one of the one lane of its kind; one not marked is of a file with one lane. */
  predicate HasOneLane(lanes: seq<Info>, thread: string, via: Option<Kind>) {
    if via.None? then Sharing(lanes, Some(thread)) == 1 else SharingKind(lanes, thread, via.value) == 1
  }

  lemma {:induction false} TakersAre(lanes: seq<Info>, thread: string, via: Option<Kind>, sharing: nat)
    ensures Takers(lanes, thread, via, sharing)
         == if via.Some? then SharingKind(lanes, thread, via.value) else if sharing == 1 then Sharing(lanes, Some(thread)) else 0
  {
    if lanes != [] {
      TakersAre(lanes[1..], thread, via, sharing);
    }
  }

  /** Merging loses or doubles no turn of a file exactly when each turn of it has one lane to be of. */
  lemma NoneLostIff(g: Group, files: Files, thread: string)
    ensures multiset(TakenFrom(g, g.lanes, files, thread)) == multiset(TurnsOf(files, thread)) <==>
      forall x :: x in TurnsOf(files, thread) ==> HasOneLane(g.lanes, thread, x.via)
  {
    hide TakenFrom, Takers, Sharing, SharingKind, TurnsOf;
    var taken, turns := multiset(TakenFrom(g, g.lanes, files, thread)), TurnsOf(files, thread);
    forall x: Turn
      ensures taken[x] == multiset(turns)[x] <==> (x in turns ==> HasOneLane(g.lanes, thread, x.via))
    {
      TurnsTaken(g, g.lanes, files, thread, x);
      TakersAre(g.lanes, thread, x.via, Sharing(g.lanes, Some(thread)));
      TimesOne(Takers(g.lanes, thread, x.via, Sharing(g.lanes, Some(thread))), multiset(turns)[x]);
    }
    if forall x :: x in turns ==> HasOneLane(g.lanes, thread, x.via) {
      assert forall x: Turn :: taken[x] == multiset(turns)[x];
    }
  }

  lemma TimesOne(n: nat, m: nat)
    ensures n * m == m <==> n == 1 || m == 0
  {
    if n > 1 && m > 0 {
      assert n * m >= 2 * m;
    }
  }

  // ---- The loops --------------------------------------------------------------------------------------------

  /** The lanes, by person. */
  method GroupLanes(p: Rules, infos: seq<Info>) returns (groups: seq<Group>)
    ensures groups == Groups(p, infos)
  {
    hide PersonOf, Belongs;
    groups := [];
    for n := 0 to |infos|
      invariant groups == Groups(p, infos[..n])
    {
      var info := infos[n];
      assert infos[..n + 1][..n] == infos[..n];
      var g := FindGroup(p, groups, info, 0);
      if g.Some? {
        ghost var was := groups;
        groups := groups[g.value := groups[g.value].(lanes := groups[g.value].lanes + [info])];
        if info.thread.Some? && info.thread.value !in groups[g.value].threads {
          groups := groups[g.value := groups[g.value].(threads := groups[g.value].threads + [info.thread.value])];
        }
        assert groups == was[g.value := was[g.value].(lanes := was[g.value].lanes + [info], threads := WithThread(was[g.value].threads, info.thread))];
      } else {
        groups := groups + [Group(PersonOf(p, info), [info], if info.thread.Some? then [info.thread.value] else [])];
        assert info.thread.Some? ==> [] + [info.thread.value] == [info.thread.value];
      }
    }
    assert infos[..|infos|] == infos;
  }

  method RegroupNow(p: Rules, stored: Stored, merge: Merge) returns (r: Regrouped)
    ensures r == RegroupAll(p, stored, merge)
  {
    hide AddGroup, MergeCallers, Groups, WithTasks;
    var notes, changed := MergeNotes(p, stored.callers);
    var tasks := OfKind(stored.infos, Task);
    var kept := WithTasks(tasks, stored.files);
    var others := NotTasks(stored.infos);
    var groups := GroupLanes(p, others);
    GroupsPeopled(p, others);
    ghost var first := Regrouped(Stored(kept.0, kept.1, notes), changed, [], {});
    r := Regrouped(Stored(kept.0, kept.1, notes), changed, [], {});
    for n := 0 to |groups|
      invariant r == AddGroups(p, first, groups[..n], stored.files, merge)
    {
      assert groups[..n + 1][..n] == groups[..n];
      r := AddGroup(p, r, groups[n], stored.files, merge);
    }
    assert groups[..|groups|] == groups;
    r := r.(kept := r.kept.(infos := Sorted(r.kept.infos, Newest())));
  }
}
