/**
 * What regrouping returns is settled (app/src/threads.ts:224-315), so that
 * running it again changes nothing: given that the keys kept are keys, that a
 * conversation is not of one person and of a hidden caller at once, that no
 * note calls someone "Hidden number", and that no two conversations come to
 * one id.
 */
module RegroupSettles {
  import opened Options
  import opened Subsequences
  import opened Sorting
  import opened People
  import opened Regroup
  import opened RegroupAgain

  // ---- What is asked of what was kept --------------------------------------------------------

  /** A lane's person, not alone: known by a key that is its own key. */
  predicate PersonFixed(p: Rules, x: Info) {
    var who := PersonOf(p, x);
    !who.alone ==> who.key != TEST && !p.hidden(who.key) && KeyOf(p, who.key) == who.key
  }

  /** Two lanes of one conversation: both of hidden callers known alike, or neither. */
  predicate NotMixed(p: Rules, a: Info, b: Info) {
    a.thread.Some? && a.thread == b.thread ==>
      PersonOf(p, a).alone == PersonOf(p, b).alone && (PersonOf(p, a).alone ==> a.key == b.key)
  }

  ghost predicate LanesOk(p: Rules, s: seq<Info>) {
    && (forall i :: 0 <= i < |s| ==> PersonFixed(p, s[i]))
    && (forall i, j :: 0 <= i < |s| && 0 <= j < |s| ==> NotMixed(p, s[i], s[j]))
  }

  /** No note calls anyone what a hidden caller is called. */
  ghost predicate NamesOk(notes: seq<Note>) {
    forall i :: 0 <= i < |notes| ==> notes[i].name != HIDDEN
  }

  /** No two conversations come to one id. */
  ghost predicate NoCollision(p: Rules, groups: seq<Group>)
    requires Peopled(groups)
  {
    forall i, j :: 0 <= i < j < |groups| ==> ThreadOf(p, groups[i]) != ThreadOf(p, groups[j])
  }

  /** Merging marks every turn with its lane, as mergeLanes does (LaneMerge). */
  ghost predicate Marks(merge: Merge) {
    forall parts :: AllMarked(merge(parts))
  }

  ghost predicate MayRegroup(p: Rules, stored: Stored, merge: Merge) {
    var others := NotTasks(stored.infos);
    GroupsPeopled(p, others);
    && RulesOk(p) && Marks(merge) && LanesOk(p, others) && NoCollision(p, Groups(p, others))
    && KeysFixed(p, stored.callers) && NamesOk(stored.callers)
  }

  // ---- A group is one person's ------------------------------------------------------------------

  ghost predicate Has(g: Group, thread: string) {
    exists k :: 0 <= k < |g.lanes| && g.lanes[k].thread == Some(thread)
  }

  ghost predicate GroupOk(p: Rules, g: Group, s: seq<Info>) {
    && g.lanes != [] && g.who == PersonOf(p, g.lanes[0])
    && (forall k :: 0 <= k < |g.lanes| ==>
          g.lanes[k] in s && PersonOf(p, g.lanes[k]).alone == g.who.alone && (g.who.alone ==> g.lanes[k].key == g.who.key))
    && (forall k :: 0 <= k < |g.threads| ==> Has(g, g.threads[k]))
  }

  ghost predicate TwoPeople(p: Rules, g: Group, h: Group) {
    !OnePerson(p, g.who, h.who) && !OnePerson(p, h.who, g.who)
  }

  ghost predicate GroupsOk(p: Rules, groups: seq<Group>, s: seq<Info>) {
    && (forall i :: 0 <= i < |groups| ==> GroupOk(p, groups[i], s))
    && (forall i, j :: 0 <= i < j < |groups| ==> TwoPeople(p, groups[i], groups[j]))
  }

  lemma AloneKey(p: Rules, x: Info)
    ensures PersonOf(p, x).alone ==> PersonOf(p, x).key == x.key
  {
  }

  lemma MoreLanes(p: Rules, g: Group, s: seq<Info>, t: seq<Info>)
    requires GroupOk(p, g, s) && forall x :: x in s ==> x in t
    ensures GroupOk(p, g, t)
  {
  }

  lemma {:induction false} GroupsAreOk(p: Rules, s: seq<Info>)
    requires LanesOk(p, s) && RulesOk(p)
    ensures GroupsOk(p, Groups(p, s), s)
  {
    hide RulesOk, PersonFixed, NotMixed, GroupOk, TwoPeople, Into;
    if s != [] {
      var n := |s| - 1;
      GroupsAreOk(p, s[..n]);
      IntoOk(p, Groups(p, s[..n]), s);
    }
  }

  lemma IntoOk(p: Rules, groups: seq<Group>, s: seq<Info>)
    requires s != [] && LanesOk(p, s) && RulesOk(p) && GroupsOk(p, groups, s[..|s| - 1])
    ensures GroupsOk(p, Into(p, groups, s[|s| - 1]), s)
  {
    hide RulesOk, PersonFixed, LanesOk, GroupOk, TwoPeople, PersonOf, Belongs, Has;
    var n := |s| - 1;
    var x := s[n];
    forall i | 0 <= i < |groups|
      ensures GroupOk(p, groups[i], s)
    {
      MoreLanes(p, groups[i], s[..n], s);
    }
    var g := FindGroup(p, groups, x, 0);
    if g.None? {
      NewOk(p, s, x);
      var new_ := Group(PersonOf(p, x), [x], WithThread([], x.thread));
      forall i | 0 <= i < |groups|
        ensures TwoPeople(p, groups[i], new_)
      {
        NotBelonging(p, groups[i], x);
      }
    } else {
      GrownOk(p, groups[g.value], s, n);
      SameWho(p, groups, Into(p, groups, x));
    }
  }

  lemma NewOk(p: Rules, s: seq<Info>, x: Info)
    requires x in s
    ensures GroupOk(p, Group(PersonOf(p, x), [x], WithThread([], x.thread)), s)
  {
    AloneKey(p, x);
    hide PersonOf;
    var g := Group(PersonOf(p, x), [x], WithThread([], x.thread));
    if x.thread.Some? {
      assert g.lanes[0].thread == Some(g.threads[0]);
    }
  }

  lemma NotBelonging(p: Rules, g: Group, x: Info)
    requires RulesOk(p) && !Belongs(p, g, x)
    ensures TwoPeople(p, g, Group(PersonOf(p, x), [x], WithThread([], x.thread)))
  {
    hide PersonOf;
  }

  lemma SameWho(p: Rules, groups: seq<Group>, after: seq<Group>)
    requires |after| == |groups| && forall k :: 0 <= k < |groups| ==> after[k].who == groups[k].who
    requires forall j, k :: 0 <= j < k < |groups| ==> TwoPeople(p, groups[j], groups[k])
    ensures forall j, k :: 0 <= j < k < |after| ==> TwoPeople(p, after[j], after[k])
  {
    forall j, k | 0 <= j < k < |after|
      ensures TwoPeople(p, after[j], after[k])
    {
      assert TwoPeople(p, groups[j], groups[k]);
    }
  }

  lemma GrownOk(p: Rules, g: Group, s: seq<Info>, n: nat)
    requires n < |s| && LanesOk(p, s) && GroupOk(p, g, s) && Belongs(p, g, s[n])
    ensures GroupOk(p, g.(lanes := g.lanes + [s[n]], threads := WithThread(g.threads, s[n].thread)), s)
  {
    var x := s[n];
    var to := g.(lanes := g.lanes + [x], threads := WithThread(g.threads, x.thread));
    AloneAlike(p, g, s, n);
    hide PersonOf, LanesOk, Belongs;
    forall k | 0 <= k < |to.threads|
      ensures Has(to, to.threads[k])
    {
      if k < |g.threads| {
        assert Has(g, g.threads[k]);
        var l :| 0 <= l < |g.lanes| && g.lanes[l].thread == Some(g.threads[k]);
        assert to.lanes[l] == g.lanes[l];
      } else {
        assert to.lanes[|g.lanes|].thread == Some(to.threads[k]);
      }
    }
  }

  lemma AloneAlike(p: Rules, g: Group, s: seq<Info>, n: nat)
    requires n < |s| && LanesOk(p, s) && GroupOk(p, g, s) && Belongs(p, g, s[n])
    ensures PersonOf(p, s[n]).alone == g.who.alone && (g.who.alone ==> s[n].key == g.who.key)
  {
    hide PersonOf, PersonFixed;
    var x := s[n];
    if x.thread.Some? && x.thread.value in g.threads {
      var t :| 0 <= t < |g.threads| && g.threads[t] == x.thread.value;
      assert Has(g, g.threads[t]);
      var l :| 0 <= l < |g.lanes| && g.lanes[l].thread == x.thread;
      var k :| 0 <= k < |s| && s[k] == g.lanes[l];
      assert NotMixed(p, s[k], s[n]);
    }
  }

  // ---- Its lanes are of that person still ---------------------------------------------------------

  /** A lane of a conversation as regrouped: of the same person. */
  lemma LanePerson(p: Rules, g: Group, s: seq<Info>, kind: Kind, lanes: seq<Info>, title: string, thread: string)
    requires RulesOk(p) && LanesOk(p, s) && GroupOk(p, g, s) && (kind == Call || kind == Sms)
    requires lanes != [] && forall i :: 0 <= i < |lanes| ==> lanes[i] in g.lanes && lanes[i].kind == kind
    requires g.who.alone || title != HIDDEN
    ensures PersonOf(p, LaneOf(g, kind, lanes, title, thread)) == g.who
  {
    var x := LaneOf(g, kind, lanes, title, thread);
    WhoFixed(p, g, s);
    hide LanesOk, RulesOk, KeyOf;
    forall i | 0 <= i < |lanes|
      ensures PersonOf(p, lanes[i]).alone == g.who.alone && (g.who.alone ==> lanes[i].key == g.who.key)
    {
      var k :| 0 <= k < |g.lanes| && g.lanes[k] == lanes[i];
    }
    hide GroupOk;
    if !g.who.alone {
      NotHidden(p, lanes);
      KeyIsItsOwn(p, g.who.key);
    } else if g.who.key != TEST && kind == Sms {
      SomeHidden(p, lanes);
    }
  }

  lemma WhoFixed(p: Rules, g: Group, s: seq<Info>)
    requires LanesOk(p, s) && GroupOk(p, g, s)
    ensures !g.who.alone ==> g.who.key != TEST && !p.hidden(g.who.key) && KeyOf(p, g.who.key) == g.who.key
    ensures g.who.alone && g.who.key == TEST ==> g.who == Person(TEST, true)
  {
    hide PersonOf, KeyOf, NotMixed;
    assert g.lanes[0] in s;
    var k :| 0 <= k < |s| && s[k] == g.lanes[0];
    assert PersonFixed(p, s[k]);
  }

  lemma NotHidden(p: Rules, lanes: seq<Info>)
    requires forall i :: 0 <= i < |lanes| ==> !PersonOf(p, lanes[i]).alone
    ensures !AnyHidden(lanes)
  {
  }

  lemma KeyIsItsOwn(p: Rules, key: string)
    requires key != TEST && KeyOf(p, key) == key
    ensures (if p.key(key) != "" then p.key(key) else key) == key
  {
  }

  lemma SomeHidden(p: Rules, lanes: seq<Info>)
    requires lanes != [] && lanes[0].kind == Sms && PersonOf(p, lanes[0]).alone && lanes[0].key != TEST
    ensures AnyHidden(lanes) || p.hidden(lanes[0].key)
  {
  }

  /** A person's conversation is not titled as a hidden caller's. */
  lemma TitleIsNoHidden(p: Rules, g: Group, callers: seq<Note>)
    requires RulesOk(p) && g.lanes != [] && NamesOk(callers) && (!g.who.alone ==> !p.hidden(g.who.key) && g.who.key != TEST)
    ensures g.who.alone || TitleOf(p, g, callers) != HIDDEN
  {
    hide Sorted;
    NoHiddenFirst(p, Sorted(g.lanes, Newest()));
    NoHiddenCaller(p, callers, g.who.key);
  }

  lemma {:induction false} NoHiddenFirst(p: Rules, lanes: seq<Info>)
    requires RulesOk(p)
    ensures FirstName(p, lanes).Some? ==> FirstName(p, lanes).value != HIDDEN
  {
    if lanes != [] {
      NoHiddenFirst(p, lanes[1..]);
    }
  }

  lemma {:induction false} NoHiddenCaller(p: Rules, callers: seq<Note>, key: string)
    requires NamesOk(callers)
    ensures FindCaller(p, callers, key).Some? ==> FindCaller(p, callers, key).value.name != HIDDEN
  {
    if callers != [] {
      assert NamesOk(callers[1..]);
      NoHiddenCaller(p, callers[1..], key);
    }
  }

  lemma {:induction false} NamesStay(p: Rules, notes: seq<Note>)
    requires NamesOk(notes)
    ensures NamesOk(AddNotes(p, notes).notes)
  {
    hide KeyOf;
    if notes != [] {
      var n := |notes| - 1;
      assert NamesOk(notes[..n]);
      NamesStay(p, notes[..n]);
      var c := AddNotes(p, notes[..n]);
      var same := FindNote(p, c.notes, KeyOf(p, notes[n].number), 0);
      if same.Some? {
        JoinedName(p, c.notes[same.value], notes[n]);
      }
    }
  }

  lemma JoinedName(p: Rules, kept: Note, note: Note)
    requires kept.name != HIDDEN && note.name != HIDDEN
    ensures Joined(p, kept, note).name != HIDDEN
  {
  }

  lemma MergedNames(p: Rules, notes: seq<Note>)
    requires NamesOk(notes)
    ensures NamesOk(MergeCallers(p, notes).notes)
  {
    hide AddNotes;
    var sorted := Sorted(notes, ByUpdate());
    forall i | 0 <= i < |sorted|
      ensures sorted[i].name != HIDDEN
    {
      SortedIn(notes, ByUpdate(), sorted[i]);
    }
    NamesStay(p, sorted);
  }

  // ---- Its lanes are settled -----------------------------------------------------------------------

  lemma LaneIsSettled(p: Rules, g: Group, s: seq<Info>, kind: Kind, lanes: seq<Info>, title: string, thread: string)
    requires RulesOk(p) && LanesOk(p, s) && GroupOk(p, g, s) && (kind == Call || kind == Sms)
    requires lanes != [] && forall i :: 0 <= i < |lanes| ==> lanes[i] in g.lanes && lanes[i].kind == kind
    requires g.who.alone || title != HIDDEN
    ensures LaneSettled(p, LaneOf(g, kind, lanes, title, thread))
  {
    LanePerson(p, g, s, kind, lanes, title, thread);
    hide PersonOf, RulesOk, LanesOk, GroupOk;
    LastUnique(Unique(HandlesOf(lanes), {}));
  }

  lemma LastUnique(s: seq<string>)
    requires NoRepeats(s)
    ensures NoRepeats(LastOf(s, 100)) && |LastOf(s, 100)| <= 100
  {
  }

  /** What a conversation keeps of a kind: none, or one lane, settled. */
  ghost predicate LanesAre(p: Rules, g: Group, kind: Kind, infos: seq<Info>)
    requires g.lanes != []
  {
    && |infos| <= 1
    && (infos != [] ==>
      LaneSettled(p, infos[0]) && infos[0].thread == Some(ThreadOf(p, g)) && PersonOf(p, infos[0]) == g.who && infos[0].kind == kind)
  }

  lemma LaneForIs(p: Rules, g: Group, s: seq<Info>, kind: Kind, callers: seq<Note>)
    requires RulesOk(p) && LanesOk(p, s) && GroupOk(p, g, s) && NamesOk(callers) && (kind == Call || kind == Sms)
    ensures LanesAre(p, g, kind, LaneFor(p, g, kind, callers).infos)
  {
    hide RulesOk, LanesOk, PersonOf, LaneSettled, NamesOk, TitleOf, ThreadOf, LaneChanged;
    WhoFixed(p, g, s);
    TitleIsNoHidden(p, g, callers);
    var lanes := Sorted(OfKind(g.lanes, kind), Newest());
    if lanes != [] {
      forall i | 0 <= i < |lanes|
        ensures lanes[i] in g.lanes && lanes[i].kind == kind
      {
        OneSorted(g.lanes, kind, lanes[i]);
      }
      LaneIsSettled(p, g, s, kind, lanes, TitleOf(p, g, callers), ThreadOf(p, g));
      LanePerson(p, g, s, kind, lanes, TitleOf(p, g, callers), ThreadOf(p, g));
    }
  }

  lemma OneSorted(lanes: seq<Info>, kind: Kind, x: Info)
    requires x in Sorted(OfKind(lanes, kind), Newest())
    ensures x in lanes && x.kind == kind
  {
    SortedIn(OfKind(lanes, kind), Newest(), x);
  }

  /** The lanes of the conversations, in their order. */
  ghost function OutOf(p: Rules, groups: seq<Group>, callers: seq<Note>): seq<Info>
    requires Peopled(groups)
  {
    if groups == [] then []
    else
      var n := |groups| - 1;
      OutOf(p, groups[..n], callers) + (LaneFor(p, groups[n], Call, callers).infos + LaneFor(p, groups[n], Sms, callers).infos)
  }

  lemma {:induction false} AddGroupsIs(p: Rules, r: Regrouped, groups: seq<Group>, from: Files, merge: Merge)
    requires Peopled(groups)
    ensures
      var to := AddGroups(p, r, groups, from, merge);
      to.kept.infos == r.kept.infos + OutOf(p, groups, r.kept.callers) && to.kept.callers == r.kept.callers
    decreases |groups|
  {
    hide LaneFor, StaysInPlace, ConversationOf, StaleFiles, ThreadOf;
    if groups != [] {
      var n := |groups| - 1;
      AddGroupsIs(p, r, groups[..n], from, merge);
      var out, call, sms := OutOf(p, groups[..n], r.kept.callers), LaneFor(p, groups[n], Call, r.kept.callers).infos, LaneFor(p, groups[n], Sms, r.kept.callers).infos;
      assert (r.kept.infos + out) + call + sms == r.kept.infos + (out + (call + sms));
    } else {
      assert r.kept.infos + [] == r.kept.infos;
    }
  }

  /** A lane of one of the conversations. */
  ghost predicate OfGroup(p: Rules, g: Group, x: Info) {
    g.lanes != [] && x.thread == Some(ThreadOf(p, g)) && PersonOf(p, x) == g.who
  }

  lemma OthersPair(p: Rules, g: Group, h: Group, x: Info, y: Info)
    requires OfGroup(p, g, x) && OfGroup(p, h, y) && TwoPeople(p, g, h) && ThreadOf(p, g) != ThreadOf(p, h)
    ensures PairSettled(p, x, y)
  {
  }

  ghost predicate OutIs(p: Rules, groups: seq<Group>, out: seq<Info>) {
    && (forall k :: 0 <= k < |out| ==> LaneSettled(p, out[k]) && exists i :: 0 <= i < |groups| && OfGroup(p, groups[i], out[k]))
    && (forall k, l :: 0 <= k < l < |out| ==> PairSettled(p, out[k], out[l]))
  }

  lemma {:induction false} OutIsSettled(p: Rules, groups: seq<Group>, callers: seq<Note>, s: seq<Info>)
    requires RulesOk(p) && LanesOk(p, s) && NamesOk(callers) && GroupsOk(p, groups, s) && Peopled(groups) && NoCollision(p, groups)
    ensures OutIs(p, groups, OutOf(p, groups, callers))
    decreases |groups|
  {
    hide RulesOk, LanesOk, NamesOk, LaneFor, LaneSettled, PairSettled, ThreadOf, GroupOk, TwoPeople, PersonOf;
    if groups != [] {
      var n := |groups| - 1;
      FewerGroups(p, groups, s);
      OutIsSettled(p, groups[..n], callers, s);
      LaneForIs(p, groups[n], s, Call, callers);
      LaneForIs(p, groups[n], s, Sms, callers);
      OneGroupMore(p, groups, OutOf(p, groups[..n], callers), LaneFor(p, groups[n], Call, callers).infos, LaneFor(p, groups[n], Sms, callers).infos);
    }
  }

  lemma FewerGroups(p: Rules, groups: seq<Group>, s: seq<Info>)
    requires groups != [] && GroupsOk(p, groups, s) && Peopled(groups) && NoCollision(p, groups)
    ensures GroupsOk(p, groups[..|groups| - 1], s) && Peopled(groups[..|groups| - 1]) && NoCollision(p, groups[..|groups| - 1])
    ensures GroupOk(p, groups[|groups| - 1], s)
  {
    hide GroupOk, TwoPeople, ThreadOf;
  }

  lemma OneGroupMore(p: Rules, groups: seq<Group>, out: seq<Info>, call: seq<Info>, sms: seq<Info>)
    requires groups != [] && Peopled(groups) && NoCollision(p, groups)
    requires forall i, j :: 0 <= i < j < |groups| ==> TwoPeople(p, groups[i], groups[j])
    requires OutIs(p, groups[..|groups| - 1], out)
    requires LanesAre(p, groups[|groups| - 1], Call, call) && LanesAre(p, groups[|groups| - 1], Sms, sms)
    ensures OutIs(p, groups, out + (call + sms))
  {
    hide LaneSettled, PersonOf, TwoPeople, ThreadOf, PairSettled, OfGroup;
    var n := |groups| - 1;
    var more := call + sms;
    TheirOwn(p, groups[n], call, sms);
    forall k | 0 <= k < |out|
      ensures LaneSettled(p, out[k]) && exists i :: 0 <= i < n && OfGroup(p, groups[i], out[k])
    {
      var i :| 0 <= i < n && OfGroup(p, groups[..n][i], out[k]);
      assert OfGroup(p, groups[i], out[k]);
    }
    forall k, l | 0 <= k < |out| && 0 <= l < |more|
      ensures PairSettled(p, out[k], more[l])
    {
      var i :| 0 <= i < n && OfGroup(p, groups[i], out[k]);
      OthersPair(p, groups[i], groups[n], out[k], more[l]);
    }
    assert forall k :: 0 <= k < |more| ==> OfGroup(p, groups[n], more[k]);
  }

  lemma TheirOwn(p: Rules, g: Group, call: seq<Info>, sms: seq<Info>)
    requires g.lanes != [] && LanesAre(p, g, Call, call) && LanesAre(p, g, Sms, sms)
    ensures forall k :: 0 <= k < |call + sms| ==> LaneSettled(p, (call + sms)[k]) && OfGroup(p, g, (call + sms)[k])
    ensures forall k, l :: 0 <= k < l < |call + sms| ==> PairSettled(p, (call + sms)[k], (call + sms)[l])
  {
    hide LaneSettled, PersonOf, ThreadOf;
    var more := call + sms;
    forall k, l | 0 <= k < l < |more|
      ensures PairSettled(p, more[k], more[l])
    {
      assert more[k] == call[0] && more[l] == sms[0];
    }
  }

  // ---- What is returned is settled -----------------------------------------------------------------

  lemma OutSettled(p: Rules, groups: seq<Group>, out: seq<Info>)
    requires OutIs(p, groups, out)
    ensures Settled(p, out)
  {
    hide LaneSettled, PairSettled, OfGroup;
  }

  lemma {:induction false} NotTasksJoin(a: seq<Info>, b: seq<Info>)
    ensures NotTasks(a + b) == NotTasks(a) + NotTasks(b)
  {
    if a == [] {
      assert a + b == b;
    } else {
      assert (a + b)[1..] == a[1..] + b;
      NotTasksJoin(a[1..], b);
      JoinAgain(if a[0].kind != Task then [a[0]] else [], NotTasks(a[1..]), NotTasks(b));
    }
  }

  lemma {:induction false} NotTasksHas(s: seq<Info>, x: Info)
    ensures multiset(NotTasks(s))[x] == if x.kind == Task then 0 else multiset(s)[x]
  {
    if s != [] {
      var rest := NotTasks(s[1..]);
      NotTasksHas(s[1..], x);
      assert s == [s[0]] + s[1..];
      if s[0].kind == Task {
        assert NotTasks(s) == [] + rest == rest;
      } else {
        assert NotTasks(s) == [s[0]] + rest;
      }
    }
  }

  lemma {:induction false} TasksHas(s: seq<Info>, x: Info)
    ensures x in OfKind(s, Task) <==> x in s && x.kind == Task
  {
    if s != [] {
      TasksHas(s[1..], x);
      assert s == [s[0]] + s[1..];
    }
  }

  ghost predicate AreTasks(s: seq<Info>) {
    forall i :: 0 <= i < |s| ==> s[i].kind == Task && s[i].thread.Some?
  }

  ghost predicate NoTasks(s: seq<Info>) {
    forall i :: 0 <= i < |s| ==> s[i].kind != Task
  }

  /** The lanes kept, sorted among the tasks: those that are no tasks are they, in some order. */
  lemma OthersOfSorted(tasks: seq<Info>, out: seq<Info>)
    requires AreTasks(tasks) && NoTasks(out)
    ensures multiset(NotTasks(Sorted(tasks + out, Newest()))) == multiset(out)
  {
    var all := Sorted(tasks + out, Newest());
    SortedHas(tasks + out, Newest());
    forall x
      ensures multiset(NotTasks(all))[x] == multiset(out)[x]
    {
      NotTasksHas(all, x);
      if x.kind == Task {
        assert x !in out;
      } else {
        assert x !in tasks;
      }
    }
  }

  lemma TasksOfSorted(tasks: seq<Info>, out: seq<Info>)
    requires AreTasks(tasks) && NoTasks(out)
    ensures
      var left := OfKind(Sorted(tasks + out, Newest()), Task);
      TasksThreaded(left) && TaskThreads(left) == TaskThreads(tasks)
  {
    var all := Sorted(tasks + out, Newest());
    var left := OfKind(all, Task);
    forall x
      ensures x in left <==> x in tasks
    {
      TasksHas(all, x);
      SortedIn(tasks + out, Newest(), x);
    }
    forall t | t in TaskThreads(left)
      ensures t in TaskThreads(tasks)
    {
      var i :| 0 <= i < |left| && TaskThread(left[i]) == t;
      assert left[i] in left;
      var j :| 0 <= j < |tasks| && tasks[j] == left[i];
    }
    forall t | t in TaskThreads(tasks)
      ensures t in TaskThreads(left)
    {
      var i :| 0 <= i < |tasks| && TaskThread(tasks[i]) == t;
      assert tasks[i] in tasks;
      var j :| 0 <= j < |left| && left[j] == tasks[i];
    }
    assert forall i :: 0 <= i < |left| ==> left[i] in left;
  }

  lemma {:induction false} WithTasksAre(tasks: seq<Info>, from: Files)
    requires forall i :: 0 <= i < |tasks| ==> tasks[i].kind == Task
    ensures AreTasks(WithTasks(tasks, from).0) && TaskThreads(WithTasks(tasks, from).0) == TaskThreads(tasks)
  {
    if tasks != [] {
      var n := |tasks| - 1;
      WithTasksAre(tasks[..n], from);
      MoreTasks(tasks);
      MoreTasks(WithTasks(tasks, from).0);
      assert WithTasks(tasks, from).0[..n] == WithTasks(tasks[..n], from).0 by {
        SameLength(tasks[..n], from);
      }
    } else {
      assert TaskThreads(WithTasks(tasks, from).0) == {};
    }
  }

  lemma {:induction false} SameLength(tasks: seq<Info>, from: Files)
    ensures |WithTasks(tasks, from).0| == |tasks|
  {
    if tasks != [] {
      SameLength(tasks[..|tasks| - 1], from);
    }
  }

  // ---- Its files ---------------------------------------------------------------------------------------

  /** Each conversation's file has its turns. */
  lemma {:induction false} FilesAre(p: Rules, r: Regrouped, groups: seq<Group>, from: Files, merge: Merge)
    requires Peopled(groups) && NoCollision(p, groups)
    ensures
      var to := AddGroups(p, r, groups, from, merge).kept.files;
      && to.Keys == r.kept.files.Keys + ThreadsOf(p, groups)
      && forall i :: 0 <= i < |groups| ==> ThreadOf(p, groups[i]) in to && to[ThreadOf(p, groups[i])] == ConversationOf(p, groups[i], from, merge)
    decreases |groups|
  {
    hide LaneFor, StaysInPlace, ConversationOf, StaleFiles, ThreadOf;
    if groups != [] {
      var n := |groups| - 1;
      FilesAre(p, r, groups[..n], from, merge);
      ThreadsMore(p, groups);
      var before, to := AddGroups(p, r, groups[..n], from, merge).kept.files, AddGroups(p, r, groups, from, merge).kept.files;
      forall i | 0 <= i < |groups|
        ensures ThreadOf(p, groups[i]) in to && to[ThreadOf(p, groups[i])] == ConversationOf(p, groups[i], from, merge)
      {
        if i < n {
          assert groups[..n][i] == groups[i];
          assert ThreadOf(p, groups[i]) != ThreadOf(p, groups[n]);
        }
      }
    }
  }

  lemma {:induction false} TwoKinds(lanes: seq<Info>)
    requires NoTasks(lanes)
    ensures |OfKind(lanes, Call)| + |OfKind(lanes, Sms)| == |lanes|
  {
    if lanes != [] {
      assert NoTasks(lanes[1..]);
      TwoKinds(lanes[1..]);
    }
  }

  lemma LaneForHas(p: Rules, g: Group, kind: Kind, callers: seq<Note>)
    requires g.lanes != []
    ensures LaneFor(p, g, kind, callers).infos == [] <==> OfKind(g.lanes, kind) == []
  {
    hide LaneOf, LaneChanged, TitleOf, ThreadOf;
    SortedHas(OfKind(g.lanes, kind), Newest());
  }

  /** A conversation's lanes are in what is returned. */
  lemma {:induction false} OutHas(p: Rules, groups: seq<Group>, callers: seq<Note>, i: nat, x: Info)
    requires Peopled(groups) && i < |groups|
    requires x in LaneFor(p, groups[i], Call, callers).infos || x in LaneFor(p, groups[i], Sms, callers).infos
    ensures x in OutOf(p, groups, callers)
    decreases |groups|
  {
    hide LaneFor;
    var n := |groups| - 1;
    if i < n {
      assert groups[..n][i] == groups[i];
      OutHas(p, groups[..n], callers, i, x);
    }
  }

  lemma {:induction false} InThreadHas(s: seq<Info>, x: Info)
    requires x in s && x.thread.Some?
    ensures x in InThread(s, x.thread.value)
  {
    var n := |s| - 1;
    if x != s[n] {
      assert x in s[..n];
      InThreadHas(s[..n], x);
    }
  }

  /** The turns of a lone lane are all marked. */
  lemma MarkedOrTwo(p: Rules, g: Group, s: seq<Info>, callers: seq<Note>, from: Files, merge: Merge)
    requires RulesOk(p) && LanesOk(p, s) && NoTasks(s) && GroupOk(p, g, s) && NamesOk(callers) && Marks(merge)
    ensures AllMarked(ConversationOf(p, g, from, merge))
      || (LaneFor(p, g, Call, callers).infos != [] && LaneFor(p, g, Sms, callers).infos != [])
  {
    hide RulesOk, LanesOk, NamesOk, LaneFor, KeptThread;
    forall i | 0 <= i < |g.lanes|
      ensures g.lanes[i].kind != Task
    {
      assert g.lanes[i] in s;
    }
    TwoKinds(g.lanes);
    LaneForHas(p, g, Call, callers);
    LaneForHas(p, g, Sms, callers);
  }

  lemma SomeLane(p: Rules, g: Group, s: seq<Info>, callers: seq<Note>)
    requires NoTasks(s) && GroupOk(p, g, s)
    ensures LaneFor(p, g, Call, callers).infos != [] || LaneFor(p, g, Sms, callers).infos != []
  {
    hide LaneFor;
    forall i | 0 <= i < |g.lanes|
      ensures g.lanes[i].kind != Task
    {
      assert g.lanes[i] in s;
    }
    TwoKinds(g.lanes);
    LaneForHas(p, g, Call, callers);
    LaneForHas(p, g, Sms, callers);
  }

  /** What the first regrouping made: its groups, its lanes, and them sorted among the tasks. */
  ghost predicate Made(p: Rules, s: seq<Info>, callers: seq<Note>, out: seq<Info>, after: seq<Info>) {
    GroupsPeopled(p, s);
    var groups := Groups(p, s);
    && RulesOk(p) && LanesOk(p, s) && NoTasks(s) && NamesOk(callers) && GroupsOk(p, groups, s) && NoCollision(p, groups)
    && out == OutOf(p, groups, callers) && OutIs(p, groups, out) && multiset(after) == multiset(out)
    && Settled(p, after)
  }

  /** A conversation found again is one there was. */
  lemma GroupWas(p: Rules, s: seq<Info>, callers: seq<Note>, out: seq<Info>, after: seq<Info>, g: Group) returns (i: nat)
    requires Made(p, s, callers, out, after) && GroupIs(p, after, g)
    ensures i < |Groups(p, s)| && Groups(p, s)[i].lanes != [] && ThreadOf(p, Groups(p, s)[i]) == g.threads[0] && ThreadOf(p, g) == g.threads[0]
  {
    hide RulesOk, LanesOk, NamesOk, GroupsOk, NoCollision, LaneSettled, PairSettled, Groups, PersonOf;
    GroupsPeopled(p, s);
    IsConversation(p, after, g);
    StaysWhole(p, g);
    var x := g.lanes[0];
    assert x in after && x.thread == Some(g.threads[0]);
    InBoth(after, out, x);
    var k :| 0 <= k < |out| && out[k] == x;
    i :| 0 <= i < |Groups(p, s)| && OfGroup(p, Groups(p, s)[i], out[k]);
  }

  lemma InBoth(a: seq<Info>, b: seq<Info>, x: Info)
    requires multiset(a) == multiset(b)
    ensures x in a <==> x in b
  {
    assert x in a <==> x in multiset(a);
    assert x in b <==> x in multiset(b);
  }

  /** A conversation there was is found again. */
  lemma GroupIsFound(p: Rules, s: seq<Info>, callers: seq<Note>, out: seq<Info>, after: seq<Info>, i: nat) returns (j: nat)
    requires Made(p, s, callers, out, after) && i < |Groups(p, s)| && Groups(p, s)[i].lanes != []
    ensures j < |Groups(p, after)| && Groups(p, after)[j].threads == [ThreadOf(p, Groups(p, s)[i])]
    ensures GroupIs(p, after, Groups(p, after)[j])
  {
    hide RulesOk, LanesOk, NamesOk, NoCollision, PersonOf, LaneFor, OutIs, Settled, Groups, GroupIs, TwoPeople, ThreadOf;
    GroupsPeopled(p, s);
    var g := Groups(p, s)[i];
    SomeLane(p, g, s, callers);
    LaneForIs(p, g, s, Call, callers);
    LaneForIs(p, g, s, Sms, callers);
    var x := if LaneFor(p, g, Call, callers).infos != [] then LaneFor(p, g, Call, callers).infos[0] else LaneFor(p, g, Sms, callers).infos[0];
    OutHas(p, Groups(p, s), callers, i, x);
    InBoth(after, out, x);
    SettledGroups(p, after);
    var k :| 0 <= k < |after| && after[k] == x;
    j :| 0 <= j < |Groups(p, after)| && Groups(p, after)[j].threads == [after[k].thread.value];
  }

  lemma SameThreads(p: Rules, s: seq<Info>, callers: seq<Note>, out: seq<Info>, after: seq<Info>)
    requires Made(p, s, callers, out, after)
    ensures Peopled(Groups(p, s)) && Peopled(Groups(p, after)) && ThreadsOf(p, Groups(p, after)) == ThreadsOf(p, Groups(p, s))
  {
    hide Made, Groups, ThreadOf;
    GroupsPeopled(p, s);
    GroupsPeopled(p, after);
    forall t | t in ThreadsOf(p, Groups(p, after))
      ensures t in ThreadsOf(p, Groups(p, s))
    {
      ThreadWas(p, s, callers, out, after, t);
    }
    forall t | t in ThreadsOf(p, Groups(p, s))
      ensures t in ThreadsOf(p, Groups(p, after))
    {
      ThreadIsFound(p, s, callers, out, after, t);
    }
  }

  lemma ThreadWas(p: Rules, s: seq<Info>, callers: seq<Note>, out: seq<Info>, after: seq<Info>, t: string)
    requires Made(p, s, callers, out, after) && Peopled(Groups(p, s)) && Peopled(Groups(p, after)) && t in ThreadsOf(p, Groups(p, after))
    ensures t in ThreadsOf(p, Groups(p, s))
  {
    SettledGroups(p, after);
    hide Made, Groups, GroupIs, ThreadOf;
    var j :| 0 <= j < |Groups(p, after)| && ThreadOf(p, Groups(p, after)[j]) == t;
    var i := GroupWas(p, s, callers, out, after, Groups(p, after)[j]);
  }

  lemma ThreadIsFound(p: Rules, s: seq<Info>, callers: seq<Note>, out: seq<Info>, after: seq<Info>, t: string)
    requires Made(p, s, callers, out, after) && Peopled(Groups(p, s)) && Peopled(Groups(p, after)) && t in ThreadsOf(p, Groups(p, s))
    ensures t in ThreadsOf(p, Groups(p, after))
  {
    hide Made, Groups, GroupIs, ThreadOf;
    var i :| 0 <= i < |Groups(p, s)| && ThreadOf(p, Groups(p, s)[i]) == t;
    var j := GroupIsFound(p, s, callers, out, after, i);
    var k := GroupWas(p, s, callers, out, after, Groups(p, after)[j]);
  }

  lemma MarkedAgain(p: Rules, s: seq<Info>, callers: seq<Note>, out: seq<Info>, after: seq<Info>, files: Files, from: Files, merge: Merge)
    requires Made(p, s, callers, out, after) && Marks(merge) && Peopled(Groups(p, s))
    requires forall i :: 0 <= i < |Groups(p, s)| ==>
      ThreadOf(p, Groups(p, s)[i]) in files && files[ThreadOf(p, Groups(p, s)[i])] == ConversationOf(p, Groups(p, s)[i], from, merge)
    ensures FilesMarked(Groups(p, after), files)
  {
    SettledGroups(p, after);
    hide Made, Groups, GroupIs, ThreadOf, ConversationOf, AllMarked, Marks;
    forall j | 0 <= j < |Groups(p, after)| && |Groups(p, after)[j].threads| == 1 && |Groups(p, after)[j].lanes| == 1
      ensures AllMarked(TurnsOf(files, Groups(p, after)[j].threads[0]))
    {
      var g := Groups(p, after)[j];
      var i := GroupWas(p, s, callers, out, after, g);
      MarkedUnlessTwo(p, s, callers, out, after, g, i, from, merge);
    }
  }

  lemma MarkedUnlessTwo(p: Rules, s: seq<Info>, callers: seq<Note>, out: seq<Info>, after: seq<Info>, g: Group, i: nat, from: Files, merge: Merge)
    requires Made(p, s, callers, out, after) && Marks(merge) && GroupIs(p, after, g) && |g.lanes| == 1
    requires i < |Groups(p, s)| && Groups(p, s)[i].lanes != [] && ThreadOf(p, Groups(p, s)[i]) == g.threads[0]
    ensures AllMarked(ConversationOf(p, Groups(p, s)[i], from, merge))
  {
    hide RulesOk, LanesOk, NamesOk, NoCollision, PersonOf, LaneFor, OutIs, Settled, Groups, TwoPeople, ThreadOf, ConversationOf, AllMarked, Marks;
    GroupsPeopled(p, s);
    var h := Groups(p, s)[i];
    MarkedOrTwo(p, h, s, callers, from, merge);
    LaneForIs(p, h, s, Call, callers);
    LaneForIs(p, h, s, Sms, callers);
    var call, sms := LaneFor(p, h, Call, callers).infos, LaneFor(p, h, Sms, callers).infos;
    if call != [] && sms != [] {
      OutHas(p, Groups(p, s), callers, i, call[0]);
      OutHas(p, Groups(p, s), callers, i, sms[0]);
      InBoth(after, out, call[0]);
      InBoth(after, out, sms[0]);
      InThreadHas(after, call[0]);
      InThreadHas(after, sms[0]);
      assert false;
    }
  }

  lemma TasksOnly(s: seq<Info>)
    ensures NoTasks(NotTasks(s)) && forall i :: 0 <= i < |OfKind(s, Task)| ==> OfKind(s, Task)[i].kind == Task
  {
  }

  lemma OutHasNoTasks(p: Rules, groups: seq<Group>, out: seq<Info>)
    requires OutIs(p, groups, out)
    ensures NoTasks(out)
  {
  }

  /** What regrouping returns is settled. */
  lemma RegroupedIsSettled(p: Rules, stored: Stored, merge: Merge)
    requires MayRegroup(p, stored, merge)
    ensures StoredSettled(p, RegroupAll(p, stored, merge).kept)
  {
    hide RulesOk, LanesOk, NamesOk, KeysFixed, NoCollision, Marks, Groups, Settled, OneEach, KeysKept, MergeCallers, AddGroups, WithTasks,
         OutOf, OutIs, GroupsOk, NoTasks, AreTasks, TasksThreaded, TaskThreads, ThreadsOf, Sorted, FilesMarked, OfKind, NotTasks;
    var others, tasks := NotTasks(stored.infos), OfKind(stored.infos, Task);
    var groups := Groups(p, others);
    GroupsPeopled(p, others);
    TasksOnly(stored.infos);
    var callers := MergeCallers(p, stored.callers);
    MergedAgain(p, stored.callers);
    MergedNames(p, stored.callers);
    GroupsAreOk(p, others);
    OutIsSettled(p, groups, callers.notes, others);
    var out, with := OutOf(p, groups, callers.notes), WithTasks(tasks, stored.files);
    OutSettled(p, groups, out);
    OutHasNoTasks(p, groups, out);
    TasksStay(tasks, stored.files);
    WithTasksAre(tasks, stored.files);
    var first := Regrouped(Stored(with.0, with.1, callers.notes), callers.changed, [], {});
    AddGroupsIs(p, first, groups, stored.files, merge);
    FilesAre(p, first, groups, stored.files, merge);
    var kept := RegroupAll(p, stored, merge).kept;
    assert kept.infos == Sorted(with.0 + out, Newest());
    var after := NotTasks(kept.infos);
    OthersOfSorted(with.0, out);
    TasksOfSorted(with.0, out);
    SettledAnyOrder(p, out, after);
    assert Made(p, others, callers.notes, out, after);
    SameThreads(p, others, callers.notes, out, after);
    MarkedAgain(p, others, callers.notes, out, after, kept.files, stored.files, merge);
  }

  /**
   * Regrouping what was regrouped changes nothing: it reports no change,
   * writes and drops no file, and returns the same turns and, but for their
   * titles, the same lanes and notes.
   */
  lemma RegroupingAgain(p: Rules, stored: Stored, merge: Merge)
    requires MayRegroup(p, stored, merge)
    ensures
      var once := RegroupAll(p, stored, merge).kept;
      NothingChanged(once, RegroupAll(p, once, merge))
  {
    hide MayRegroup, StoredSettled, NothingChanged;
    RegroupedIsSettled(p, stored, merge);
    SettledStays(p, RegroupAll(p, stored, merge).kept, merge);
  }
}
