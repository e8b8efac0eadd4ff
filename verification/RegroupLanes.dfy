/**
 * The lanes regrouping returns, told from those it was given, and what it says
 * it wrote (app/src/threads.ts:247-314).
 */
module RegroupLanes {
  import opened Options
  import opened Subsequences
  import opened Sorting
  import opened People
  import opened Regroup
  import opened RegroupSettles
  import opened RegroupTurns

  // ---- Who is in a group ---------------------------------------------------------------------

  /** A lane is of this group because of one of its lanes: kept in one conversation with it, or of one person with the first. */
  predicate Joins(p: Rules, g: Group, k: nat)
    requires g.lanes != [] && k < |g.lanes|
  {
    || k == 0 || (exists j :: 0 <= j < k && g.lanes[j].thread.Some? && g.lanes[j].thread == g.lanes[k].thread)
    || OnePerson(p, PersonOf(p, g.lanes[0]), PersonOf(p, g.lanes[k]))
  }

  /** A group is its first lane's person's, and every lane of it joins it. */
  ghost predicate Joined(p: Rules, g: Group) {
    && ThreadsAre(g) && g.who == PersonOf(p, g.lanes[0])
    && forall k :: 0 <= k < |g.lanes| ==> Joins(p, g, k)
  }

  /** Two groups are not of one person, as the first lane of each says. */
  ghost predicate TwoPeoples(p: Rules, groups: seq<Group>) {
    forall i, j :: 0 <= i < j < |groups| ==> !OnePerson(p, groups[i].who, groups[j].who)
  }

  lemma {:induction false} GroupsAreJoined(p: Rules, s: seq<Info>)
    requires forall i :: 0 <= i < |s| ==> s[i].kind != Task
    ensures forall i :: 0 <= i < |Groups(p, s)| ==> Joined(p, Groups(p, s)[i])
    ensures TwoPeoples(p, Groups(p, s))
  {
    hide Belongs, PersonOf, Joined, OnePerson;
    if s != [] {
      var n := |s| - 1;
      GroupsAreJoined(p, s[..n]);
      var before := Groups(p, s[..n]);
      var g := FindGroup(p, before, s[n], 0);
      if g.Some? {
        OneMoreJoins(p, before[g.value], s[n]);
      } else {
        NewGroup(p, before, s[n]);
      }
    }
  }

  lemma OneMoreJoins(p: Rules, g: Group, x: Info)
    requires Joined(p, g) && x.kind != Task && Belongs(p, g, x)
    ensures
      var h := g.(lanes := g.lanes + [x], threads := WithThread(g.threads, x.thread));
      Joined(p, h) && h.who == g.who
  {
    hide PersonOf, OnePerson, WithThread;
    var h := g.(lanes := g.lanes + [x], threads := WithThread(g.threads, x.thread));
    LaneJoins(g, x);
    assert h.lanes[0] == g.lanes[0] && h.lanes[|g.lanes|] == x;
    forall k | 0 <= k < |h.lanes|
      ensures Joins(p, h, k)
    {
      if k < |g.lanes| {
        assert Joins(p, g, k) && h.lanes[k] == g.lanes[k];
        assert forall j :: 0 <= j < k ==> h.lanes[j] == g.lanes[j];
      } else if x.thread.Some? && x.thread.value in g.threads {
        var j :| 0 <= j < |g.lanes| && g.lanes[j].thread == x.thread;
        assert h.lanes[j] == g.lanes[j];
      }
    }
  }

  lemma NewGroup(p: Rules, groups: seq<Group>, x: Info)
    requires x.kind != Task && TwoPeoples(p, groups) && forall i :: 0 <= i < |groups| ==> Joined(p, groups[i]) && !Belongs(p, groups[i], x)
    ensures
      var g := Group(PersonOf(p, x), [x], WithThread([], x.thread));
      Joined(p, g) && TwoPeoples(p, groups + [g])
  {
    hide PersonOf, OnePerson;
    LaneBegins(PersonOf(p, x), x);
  }

  /** Whose a lane is: the pretend conversation's, a hidden caller's, who are alone; or the person's whose key its number has. */
  lemma PersonIs(p: Rules, x: Info)
    ensures
      var hides := x.hidden || (x.kind == Call && x.title == "Hidden number") || p.hidden(x.key);
      && PersonOf(p, x).alone == (x.key == "test" || hides)
      && PersonOf(p, x).key == if PersonOf(p, x).alone || p.key(x.key) == "" then x.key else p.key(x.key)
  {
  }

  // ---- What is made of its lanes -----------------------------------------------------------------

  /** Its conversation: that of the first of its lanes kept in one, or else one under its key's id. */
  ghost predicate ThreadIs(p: Rules, g: Group, t: string) {
    if exists k :: 0 <= k < |g.lanes| && g.lanes[k].thread.Some? then
      exists k :: 0 <= k < |g.lanes| && g.lanes[k].thread == Some(t) && forall j :: 0 <= j < k ==> g.lanes[j].thread.None?
    else g.lanes != [] && t == p.threadId(if g.who.alone then g.lanes[0].key else g.who.key)
  }

  /** The newest of its kind, the first of those as new. */
  ghost predicate NewestAt(lanes: seq<Info>, kind: Kind, k: nat) {
    && k < |lanes| && lanes[k].kind == kind
    && forall j :: 0 <= j < |lanes| && lanes[j].kind == kind && j != k ==>
         if j < k then lanes[j].lastAt < lanes[k].lastAt else lanes[j].lastAt <= lanes[k].lastAt
  }

  /** Of the group's lanes. */
  ghost predicate IsNewest(g: Group, kind: Kind, k: nat) {
    NewestAt(g.lanes, kind, k)
  }

  function UnreadOf(lanes: seq<Info>, kind: Kind): nat {
    if lanes == [] then 0 else (if lanes[0].kind == kind then lanes[0].unread else 0) + UnreadOf(lanes[1..], kind)
  }

  ghost predicate AnyOf(g: Group, kind: Kind, has: Info -> bool) {
    exists k :: 0 <= k < |g.lanes| && g.lanes[k].kind == kind && has(g.lanes[k])
  }

  /**
   * The one lane of a kind made of the group's: the newest one's id and time, all
   * that is unread of them, every handle of theirs once (the last hundred), and
   * hidden or vouched for as any of them is; an alone caller's call is hidden.
   */
  ghost predicate IsLane(p: Rules, g: Group, kind: Kind, x: Info) {
    && x.kind == kind && x.key == g.who.key && (exists t :: ThreadIs(p, g, t) && x.thread == Some(t))
    && (exists k: nat :: IsNewest(g, kind, k) && x.id == g.lanes[k].id && x.lastAt == g.lanes[k].lastAt)
    && x.unread == UnreadOf(g.lanes, kind)
    && (x.hidden <==> AnyOf(g, kind, (y: Info) => y.hidden) || (g.who.alone && g.who.key != "test" && kind == Call))
    && (x.vouched <==> AnyOf(g, kind, (y: Info) => y.vouched))
    && NoRepeats(x.handles) && |x.handles| <= 100
    && (forall h :: h in x.handles ==> AnyOf(g, kind, (y: Info) => h in y.handles))
    && (|x.handles| < 100 ==> forall k, h :: 0 <= k < |g.lanes| && g.lanes[k].kind == kind && h in g.lanes[k].handles ==> h in x.handles)
  }

  lemma ItsThread(g: Group, k: nat)
    requires ThreadsAre(g) && k < |g.lanes|
    ensures g.lanes[k].thread.Some? ==> g.lanes[k].thread.value in g.threads
  {
  }

  lemma FirstThread(p: Rules, g: Group)
    requires Joined(p, g) && ThreadsInOrder(g)
    ensures ThreadIs(p, g, ThreadOf(p, g))
  {
    if g.threads != [] {
      assert g.threads[0] in g.threads;
    } else {
      forall k | 0 <= k < |g.lanes|
        ensures g.lanes[k].thread.None?
      {
        ItsThread(g, k);
      }
    }
  }

  /** The first of its threads is the first a lane of it has. */
  ghost predicate ThreadsInOrder(g: Group) {
    g.threads != [] ==> exists k :: 0 <= k < |g.lanes| && g.lanes[k].thread == Some(g.threads[0]) && forall j :: 0 <= j < k ==> g.lanes[j].thread.None?
  }

  lemma {:induction false} GroupThreadsInOrder(p: Rules, s: seq<Info>)
    requires forall i :: 0 <= i < |s| ==> s[i].kind != Task
    ensures forall i :: 0 <= i < |Groups(p, s)| ==> ThreadsInOrder(Groups(p, s)[i])
  {
    hide Belongs, PersonOf, ThreadsInOrder;
    if s != [] {
      var n := |s| - 1;
      GroupThreadsInOrder(p, s[..n]);
      GroupThreads(p, s[..n]);
      var before := Groups(p, s[..n]);
      var g := FindGroup(p, before, s[n], 0);
      if g.Some? {
        OrderGoesOn(before[g.value], s[n]);
      } else {
        OrderBegins(PersonOf(p, s[n]), s[n]);
      }
    }
  }

  lemma OrderGoesOn(g: Group, x: Info)
    requires ThreadsInOrder(g) && ThreadsAre(g)
    ensures ThreadsInOrder(g.(lanes := g.lanes + [x], threads := WithThread(g.threads, x.thread)))
  {
    var h := g.(lanes := g.lanes + [x], threads := WithThread(g.threads, x.thread));
    assert h.lanes[|g.lanes|] == x;
    assert forall j :: 0 <= j < |g.lanes| ==> h.lanes[j] == g.lanes[j];
    if g.threads != [] {
      var k :| 0 <= k < |g.lanes| && g.lanes[k].thread == Some(g.threads[0]) && forall j :: 0 <= j < k ==> g.lanes[j].thread.None?;
      assert h.lanes[k].thread == Some(h.threads[0]);
    } else {
      forall j | 0 <= j < |g.lanes|
        ensures h.lanes[j].thread.None?
      {
        ItsThread(g, j);
      }
    }
  }

  lemma OrderBegins(who: Person, x: Info)
    ensures ThreadsInOrder(Group(who, [x], WithThread([], x.thread)))
  {
    var g := Group(who, [x], WithThread([], x.thread));
    assert g.lanes[0] == x;
  }

  lemma {:induction false} NewestOfKind(lanes: seq<Info>, kind: Kind) returns (k: nat)
    requires OfKind(lanes, kind) != []
    ensures NewestAt(lanes, kind, k) && Sorted(OfKind(lanes, kind), Newest()) != [] && lanes[k] == Sorted(OfKind(lanes, kind), Newest())[0]
  {
    hide Sorted, Placed, NewestAt;
    var first, rest := lanes[0], lanes[1..];
    if first.kind != kind {
      assert OfKind(lanes, kind) == [] + OfKind(rest, kind) == OfKind(rest, kind);
      var l := NewestOfKind(rest, kind);
      k := l + 1;
      NewestLater(lanes, kind, l);
    } else {
      assert OfKind(lanes, kind) == [first] + OfKind(rest, kind);
      hide OfKind;
      SortedFirst(first, OfKind(rest, kind));
      if OfKind(rest, kind) == [] {
        k := 0;
        NewestAlone(lanes, kind);
      } else {
        var l := NewestOfKind(rest, kind);
        NewestLater(lanes, kind, l);
        k := if first.lastAt >= lanes[l + 1].lastAt then 0 else l + 1;
      }
    }
  }

  lemma NewestAlone(lanes: seq<Info>, kind: Kind)
    requires lanes != [] && lanes[0].kind == kind && OfKind(lanes[1..], kind) == []
    ensures NewestAt(lanes, kind, 0)
  {
    OneOrNone(lanes[1..], kind);
    forall j | 0 < j < |lanes|
      ensures lanes[j].kind != kind
    {
      assert lanes[1..][j - 1] == lanes[j];
    }
  }

  lemma NewestLater(lanes: seq<Info>, kind: Kind, l: nat)
    requires lanes != [] && NewestAt(lanes[1..], kind, l)
    ensures l + 1 < |lanes| && lanes[l + 1] == lanes[1..][l]
    ensures NewestAt(lanes, kind, if lanes[0].kind == kind && lanes[0].lastAt >= lanes[l + 1].lastAt then 0 else l + 1)
  {
    var rest := lanes[1..];
    forall j | 0 < j < |lanes| && lanes[j].kind == kind
      ensures rest[j - 1] == lanes[j]
    {
    }
  }

  lemma SortedFirst(x: Info, s: seq<Info>)
    ensures
      var all, left := Sorted([x] + s, Newest()), Sorted(s, Newest());
      && all != [] && |left| == |s| && all[0] == if left == [] || x.lastAt >= left[0].lastAt then x else left[0]
  {
    assert ([x] + s)[1..] == s;
    SortedHas(s, Newest());
  }

  lemma {:induction false} LatestIsMost(lanes: seq<Info>)
    requires lanes != []
    ensures forall j :: 0 <= j < |lanes| ==> lanes[j].lastAt <= Latest(lanes)
    ensures exists j :: 0 <= j < |lanes| && lanes[j].lastAt == Latest(lanes)
  {
    assert |lanes| == 1 ==> lanes[0].lastAt == Latest(lanes);
    if |lanes| > 1 {
      var rest := lanes[1..];
      LatestIsMost(rest);
      assert lanes[0].lastAt > Latest(rest) ==> lanes[0].lastAt == Latest(lanes);
      var j :| 0 <= j < |rest| && rest[j].lastAt == Latest(rest);
      assert lanes[j + 1] == rest[j];
      assert forall i :: 0 <= i < |rest| ==> lanes[i + 1] == rest[i];
    }
  }

  lemma {:induction false} UnreadPlaced(x: Info, s: seq<Info>)
    ensures Unread(Placed(x, s, Newest())) == x.unread + Unread(s)
  {
    if s != [] && Newest()(x) > Newest()(s[0]) {
      UnreadPlaced(x, s[1..]);
    }
  }

  lemma {:induction false} UnreadSorted(s: seq<Info>)
    ensures Unread(Sorted(s, Newest())) == Unread(s)
  {
    if s != [] {
      UnreadSorted(s[1..]);
      UnreadPlaced(s[0], Sorted(s[1..], Newest()));
    }
  }

  lemma {:induction false} UnreadKind(lanes: seq<Info>, kind: Kind)
    ensures Unread(OfKind(lanes, kind)) == UnreadOf(lanes, kind)
  {
    if lanes != [] {
      UnreadKind(lanes[1..], kind);
      if lanes[0].kind == kind {
        assert ([lanes[0]] + OfKind(lanes[1..], kind))[1..] == OfKind(lanes[1..], kind);
      } else {
        assert [] + OfKind(lanes[1..], kind) == OfKind(lanes[1..], kind);
      }
    }
  }

  lemma {:induction false} KindHas(lanes: seq<Info>, kind: Kind, x: Info)
    ensures x in OfKind(lanes, kind) <==> x in lanes && x.kind == kind
  {
    if lanes != [] {
      KindHas(lanes[1..], kind, x);
      assert lanes == [lanes[0]] + lanes[1..];
    }
  }

  /** The sorted lanes of a kind: the group's of that kind. */
  lemma SortedHasKind(g: Group, kind: Kind)
    ensures forall x :: x in Sorted(OfKind(g.lanes, kind), Newest()) <==> x in g.lanes && x.kind == kind
  {
    forall x
      ensures x in Sorted(OfKind(g.lanes, kind), Newest()) <==> x in g.lanes && x.kind == kind
    {
      SortedIn(OfKind(g.lanes, kind), Newest(), x);
      KindHas(g.lanes, kind, x);
    }
  }

  lemma {:induction false} HandlesHave(lanes: seq<Info>, h: string)
    ensures h in HandlesOf(lanes) <==> exists k :: 0 <= k < |lanes| && h in lanes[k].handles
  {
    if lanes != [] {
      HandlesHave(lanes[1..], h);
      if h in HandlesOf(lanes[1..]) {
        var k :| 0 <= k < |lanes[1..]| && h in lanes[1..][k].handles;
        assert lanes[k + 1] == lanes[1..][k];
      }
      if k :| 0 <= k < |lanes| && h in lanes[k].handles {
        assert k > 0 ==> lanes[1..][k - 1] == lanes[k];
      }
    }
  }

  lemma {:induction false} UniqueHas(s: seq<string>, seen: set<string>, h: string)
    ensures h in Unique(s, seen) <==> h in s && h !in seen
  {
    if s != [] {
      UniqueHas(s[1..], if s[0] in seen then seen else seen + {s[0]}, h);
      assert s == [s[0]] + s[1..];
    }
  }

  lemma LastHundred(all: seq<string>)
    requires NoRepeats(all)
    ensures NoRepeats(LastOf(all, 100)) && |LastOf(all, 100)| <= 100 && (forall h :: h in LastOf(all, 100) ==> h in all)
    ensures |LastOf(all, 100)| < 100 ==> LastOf(all, 100) == all
  {
    var left := LastOf(all, 100);
    forall i, j | 0 <= i < j < |left|
      ensures left[i] != left[j]
    {
      assert left[i] == all[|all| - |left| + i] && left[j] == all[|all| - |left| + j];
    }
  }

  lemma HandlesAre(g: Group, kind: Kind, x: Info)
    requires x.handles == LastOf(Unique(HandlesOf(Sorted(OfKind(g.lanes, kind), Newest())), {}), 100)
    ensures NoRepeats(x.handles) && |x.handles| <= 100
    ensures forall h :: h in x.handles ==> AnyOf(g, kind, (y: Info) => h in y.handles)
    ensures |x.handles| < 100 ==> forall k, h :: 0 <= k < |g.lanes| && g.lanes[k].kind == kind && h in g.lanes[k].handles ==> h in x.handles
  {
    hide Sorted, OfKind, Unique, HandlesOf, LastOf, NoRepeats;
    var lanes := Sorted(OfKind(g.lanes, kind), Newest());
    var all := Unique(HandlesOf(lanes), {});
    LastHundred(all);
    SortedHasKind(g, kind);
    forall h | h in x.handles
      ensures AnyOf(g, kind, (y: Info) => h in y.handles)
    {
      UniqueHas(HandlesOf(lanes), {}, h);
      HandlesHave(lanes, h);
      var k :| 0 <= k < |lanes| && h in lanes[k].handles;
      assert lanes[k] in lanes;
      var j :| 0 <= j < |g.lanes| && g.lanes[j] == lanes[k];
    }
    if |x.handles| < 100 {
      forall k, h | 0 <= k < |g.lanes| && g.lanes[k].kind == kind && h in g.lanes[k].handles
        ensures h in x.handles
      {
        assert g.lanes[k] in lanes;
        var j :| 0 <= j < |lanes| && lanes[j] == g.lanes[k];
        HandlesHave(lanes, h);
        UniqueHas(HandlesOf(lanes), {}, h);
      }
    }
  }

  lemma FlagsAre(g: Group, kind: Kind)
    ensures AnyHidden(Sorted(OfKind(g.lanes, kind), Newest())) <==> AnyOf(g, kind, (y: Info) => y.hidden)
    ensures AnyVouched(Sorted(OfKind(g.lanes, kind), Newest())) <==> AnyOf(g, kind, (y: Info) => y.vouched)
  {
    hide Sorted, OfKind;
    var lanes := Sorted(OfKind(g.lanes, kind), Newest());
    SortedHasKind(g, kind);
    if k :| 0 <= k < |lanes| && lanes[k].hidden {
      assert lanes[k] in lanes;
      var j :| 0 <= j < |g.lanes| && g.lanes[j] == lanes[k];
    }
    if k :| 0 <= k < |lanes| && lanes[k].vouched {
      assert lanes[k] in lanes;
      var j :| 0 <= j < |g.lanes| && g.lanes[j] == lanes[k];
    }
    forall k | 0 <= k < |g.lanes| && g.lanes[k].kind == kind
      ensures exists j :: 0 <= j < |lanes| && lanes[j] == g.lanes[k]
    {
      assert g.lanes[k] in lanes;
    }
  }

  /** Of each kind there is one lane when the group has any of it, and it is as said. */
  lemma LaneForIsLane(p: Rules, g: Group, kind: Kind, callers: seq<Note>)
    requires Joined(p, g) && ThreadsInOrder(g)
    ensures
      var made := LaneFor(p, g, kind, callers).infos;
      && (made == [] <==> forall k :: 0 <= k < |g.lanes| ==> g.lanes[k].kind != kind)
      && (made != [] ==> |made| == 1 && IsLane(p, g, kind, made[0]) && made[0].title == TitleOf(p, g, callers))
  {
    hide TitleOf, ThreadOf, ThreadIs, Joined, ThreadsInOrder, Unique, HandlesOf, AnyOf, LastOf, Sorted, OfKind, AnyHidden, AnyVouched;
    OneOrNone(g.lanes, kind);
    SortedHas(OfKind(g.lanes, kind), Newest());
    var lanes := Sorted(OfKind(g.lanes, kind), Newest());
    JoinedHas(p, g);
    if lanes != [] {
      var x := LaneFor(p, g, kind, callers).infos[0];
      FirstThread(p, g);
      var k := NewestOfKind(g.lanes, kind);
      NewestIsLatest(g, kind, k);
      UnreadSorted(OfKind(g.lanes, kind));
      UnreadKind(g.lanes, kind);
      HandlesAre(g, kind, x);
      FlagsAre(g, kind);
      assert IsNewest(g, kind, k);
    }
  }

  lemma JoinedHas(p: Rules, g: Group)
    requires Joined(p, g)
    ensures g.lanes != []
  {
  }

  lemma NewestIsLatest(g: Group, kind: Kind, k: nat)
    requires IsNewest(g, kind, k) && Sorted(OfKind(g.lanes, kind), Newest()) != []
    ensures Latest(Sorted(OfKind(g.lanes, kind), Newest())) == g.lanes[k].lastAt
  {
    hide Sorted, OfKind;
    var lanes := Sorted(OfKind(g.lanes, kind), Newest());
    LatestIsMost(lanes);
    SortedHasKind(g, kind);
    var j :| 0 <= j < |lanes| && lanes[j].lastAt == Latest(lanes);
    assert lanes[j] in lanes;
    var i :| 0 <= i < |g.lanes| && g.lanes[i] == lanes[j];
    assert g.lanes[k] in lanes;
    var l :| 0 <= l < |lanes| && lanes[l] == g.lanes[k];
  }

  // ---- All of them, and what is written ---------------------------------------------------------------

  ghost predicate HasKind(g: Group, kind: Kind) {
    exists k :: 0 <= k < |g.lanes| && g.lanes[k].kind == kind
  }

  /**
   * Regrouping returns, of each group and each kind it has, one lane, and besides
   * them the tasks' alone; a conversation is written anew exactly when it was
   * not kept as it is, and then the other files of its lanes are stale.
   */
  lemma LanesReturned(p: Rules, stored: Stored, merge: Merge)
    requires Peopled(Groups(p, NotTasks(stored.infos)))
    ensures
      var groups, r := Groups(p, NotTasks(stored.infos)), RegroupAll(p, stored, merge);
      && (forall i, kind :: 0 <= i < |groups| && HasKind(groups[i], kind) ==>
            exists x :: x in r.kept.infos && IsLane(p, groups[i], kind, x))
      && (forall x :: x in r.kept.infos ==> x.kind == Task || exists i :: 0 <= i < |groups| && IsLane(p, groups[i], x.kind, x))
      && (forall t :: t in r.rewritten <==> SomeWritten(p, groups, t))
      && (forall f :: f in r.stale <==> SomeStale(p, groups, f))
  {
    hide Groups, NotTasks, OfKind, WithTasks, AddGroups, IsLane, IsWritten, IsStale, Sorted, MergeCallers, Joined, HasKind, ThreadsInOrder, LaneFor, OutOf;
    var others := NotTasks(stored.infos);
    var groups := Groups(p, others);
    GroupsAreJoined(p, others);
    GroupThreadsInOrder(p, others);
    var callers := MergeCallers(p, stored.callers);
    var tasks := WithTasks(OfKind(stored.infos, Task), stored.files);
    TasksAre(OfKind(stored.infos, Task), stored.files);
    var first := Regrouped(Stored(tasks.0, tasks.1, callers.notes), callers.changed, [], {});
    AddGroupsIs(p, first, groups, stored.files, merge);
    WrittenAre(p, first, groups, stored.files, merge);
    var infos := tasks.0 + OutOf(p, groups, callers.notes);
    forall x
      ensures x in RegroupAll(p, stored, merge).kept.infos <==> x in infos
    {
      SortedIn(infos, Newest(), x);
    }
    forall i, kind: Kind | 0 <= i < |groups| && HasKind(groups[i], kind)
      ensures exists x :: x in infos && IsLane(p, groups[i], kind, x)
    {
      LaneThere(p, groups, callers.notes, i, kind);
    }
    forall x | x in infos
      ensures x.kind == Task || exists i :: 0 <= i < |groups| && IsLane(p, groups[i], x.kind, x)
    {
      if x in OutOf(p, groups, callers.notes) {
        var i := LaneFrom(p, groups, callers.notes, x);
      }
    }
  }

  lemma LaneThere(p: Rules, groups: seq<Group>, callers: seq<Note>, i: nat, kind: Kind)
    requires Peopled(groups) && i < |groups| && Joined(p, groups[i]) && ThreadsInOrder(groups[i])
    requires HasKind(groups[i], kind)
    ensures exists x :: x in OutOf(p, groups, callers) && IsLane(p, groups[i], kind, x)
  {
    hide OutOf, LaneFor, IsLane, ThreadsInOrder, Joins, PersonOf;
    LaneForIsLane(p, groups[i], kind, callers);
    var x := LaneFor(p, groups[i], kind, callers).infos[0];
    OutHas(p, groups, callers, i, x);
  }

  lemma {:induction false} LaneFrom(p: Rules, groups: seq<Group>, callers: seq<Note>, x: Info) returns (i: nat)
    requires Peopled(groups) && x in OutOf(p, groups, callers)
    requires forall j :: 0 <= j < |groups| ==> Joined(p, groups[j]) && ThreadsInOrder(groups[j])
    ensures i < |groups| && IsLane(p, groups[i], x.kind, x)
    decreases |groups|
  {
    hide LaneFor, IsLane, ThreadsInOrder, Joined;
    var n := |groups| - 1;
    assert groups != [];
    if x in OutOf(p, groups[..n], callers) {
      i := LaneFrom(p, groups[..n], callers, x);
    } else {
      i := n;
      LaneForIsLane(p, groups[n], Call, callers);
      LaneForIsLane(p, groups[n], Sms, callers);
      IsOfKind(p, groups[n], x);
    }
  }

  lemma IsOfKind(p: Rules, g: Group, x: Info)
    ensures forall kind :: IsLane(p, g, kind, x) ==> x.kind == kind
  {
  }

  lemma {:induction false} TasksAre(tasks: seq<Info>, files: Files)
    requires forall i :: 0 <= i < |tasks| ==> tasks[i].kind == Task
    ensures forall x :: x in WithTasks(tasks, files).0 ==> x.kind == Task
  {
    if tasks != [] {
      TasksAre(tasks[..|tasks| - 1], files);
    }
  }

  /** Merged, under this id; and what is a file of its lanes but its own. */
  ghost predicate IsWritten(p: Rules, g: Group, t: string) {
    g.lanes != [] && (forall u :: !AsKept(g, u)) && t == ThreadOf(p, g)
  }

  ghost predicate IsStale(p: Rules, g: Group, f: string) {
    g.lanes != [] && (forall u :: !AsKept(g, u)) && f != ThreadOf(p, g) && exists k :: 0 <= k < |g.lanes| && f == FileOf(g.lanes[k])
  }

  ghost predicate SomeWritten(p: Rules, groups: seq<Group>, t: string) {
    exists i :: 0 <= i < |groups| && IsWritten(p, groups[i], t)
  }

  ghost predicate SomeStale(p: Rules, groups: seq<Group>, f: string) {
    exists i :: 0 <= i < |groups| && IsStale(p, groups[i], f)
  }

  lemma {:induction false} WrittenAre(p: Rules, r: Regrouped, groups: seq<Group>, from: Files, merge: Merge)
    requires Peopled(groups) && r.rewritten == [] && r.stale == {} && forall i :: 0 <= i < |groups| ==> Joined(p, groups[i])
    ensures
      var to := AddGroups(p, r, groups, from, merge);
      && (forall t :: t in to.rewritten <==> SomeWritten(p, groups, t))
      && (forall f :: f in to.stale <==> SomeStale(p, groups, f))
    decreases |groups|
  {
    hide LaneFor, ConversationOf, ThreadOf, Joined, StaysInPlace, IsWritten, IsStale, StaleFiles, SomeWritten, SomeStale;
    if groups == [] {
      NoneWritten(p);
    } else {
      var n := |groups| - 1;
      WrittenAre(p, r, groups[..n], from, merge);
      OneWritten(p, groups[n]);
      var before, to := AddGroups(p, r, groups[..n], from, merge), AddGroups(p, r, groups, from, merge);
      forall t
        ensures t in to.rewritten <==> SomeWritten(p, groups, t)
        ensures t in to.stale <==> SomeStale(p, groups, t)
      {
        assert t in to.rewritten <==> t in before.rewritten || IsWritten(p, groups[n], t);
        assert t in to.stale <==> t in before.stale || IsStale(p, groups[n], t);
        LastOrBefore(p, groups, t);
      }
    }
  }

  lemma NoneWritten(p: Rules)
    ensures forall t :: !SomeWritten(p, [], t) && !SomeStale(p, [], t)
  {
  }

  lemma LastOrBefore(p: Rules, groups: seq<Group>, t: string)
    requires groups != []
    ensures
      var n := |groups| - 1;
      && (SomeWritten(p, groups, t) <==> SomeWritten(p, groups[..n], t) || IsWritten(p, groups[n], t))
      && (SomeStale(p, groups, t) <==> SomeStale(p, groups[..n], t) || IsStale(p, groups[n], t))
  {
    hide IsWritten, IsStale;
    var n := |groups| - 1;
    assert forall i :: 0 <= i < n ==> groups[..n][i] == groups[i];
    if i :| 0 <= i < |groups[..n]| && IsWritten(p, groups[..n][i], t) {
      assert IsWritten(p, groups[i], t);
    }
    if i :| 0 <= i < |groups[..n]| && IsStale(p, groups[..n][i], t) {
      assert IsStale(p, groups[i], t);
    }
    if i :| 0 <= i < |groups| && IsWritten(p, groups[i], t) {
      assert i < n ==> IsWritten(p, groups[..n][i], t);
    }
    if i :| 0 <= i < |groups| && IsStale(p, groups[i], t) {
      assert i < n ==> IsStale(p, groups[..n][i], t);
    }
  }

  lemma OneWritten(p: Rules, g: Group)
    requires Joined(p, g) && g.lanes != []
    ensures forall t :: IsWritten(p, g, t) <==> !StaysInPlace(g) && t == ThreadOf(p, g)
    ensures forall f :: IsStale(p, g, f) <==> !StaysInPlace(g) && f in StaleFiles(g.lanes, ThreadOf(p, g))
  {
    hide AsKept, StaysInPlace, ThreadOf, Joins, PersonOf, ThreadsAre;
    InPlaceIs(p, g);
  }

  // ---- What a conversation is called -----------------------------------------------------------------------

  lemma {:induction false} CallerIs(p: Rules, callers: seq<Note>, key: string)
    ensures FindCaller(p, callers, key).None? <==> forall c :: 0 <= c < |callers| ==> !p.same(callers[c].number, key)
    ensures forall c :: 0 <= c < |callers| && p.same(callers[c].number, key) && (forall b :: 0 <= b < c ==> !p.same(callers[b].number, key)) ==>
      FindCaller(p, callers, key) == Some(callers[c])
  {
    if callers != [] {
      var rest := callers[1..];
      CallerIs(p, rest, key);
      assert forall c :: 0 <= c < |rest| ==> rest[c] == callers[c + 1];
      if FindCaller(p, callers, key).Some? && !p.same(callers[0].number, key) {
        var c :| 0 <= c < |rest| && p.same(rest[c].number, key);
        assert p.same(callers[c + 1].number, key);
      }
      forall c | 0 <= c < |callers| && p.same(callers[c].number, key) && (forall b :: 0 <= b < c ==> !p.same(callers[b].number, key))
        ensures FindCaller(p, callers, key) == Some(callers[c])
      {
        if c > 0 {
          assert !p.same(callers[0].number, key);
          assert rest[c - 1] == callers[c];
          assert forall b :: 0 <= b < c - 1 ==> rest[b] == callers[b + 1];
        }
      }
    }
  }

  lemma {:induction false} NameIs(p: Rules, lanes: seq<Info>)
    ensures FirstName(p, lanes).None? <==> forall k :: 0 <= k < |lanes| ==> !p.isName(lanes[k].title, lanes[k].key)
    ensures forall k :: 0 <= k < |lanes| && p.isName(lanes[k].title, lanes[k].key) && (forall j :: 0 <= j < k ==> !p.isName(lanes[j].title, lanes[j].key)) ==>
      FirstName(p, lanes) == Some(lanes[k].title)
  {
    if lanes != [] {
      var rest := lanes[1..];
      NameIs(p, rest);
      assert forall c :: 0 <= c < |rest| ==> rest[c] == lanes[c + 1];
      if FirstName(p, lanes).Some? && !p.isName(lanes[0].title, lanes[0].key) {
        var c :| 0 <= c < |rest| && p.isName(rest[c].title, rest[c].key);
        assert p.isName(lanes[c + 1].title, lanes[c + 1].key);
      }
      forall k | 0 <= k < |lanes| && p.isName(lanes[k].title, lanes[k].key) && (forall j :: 0 <= j < k ==> !p.isName(lanes[j].title, lanes[j].key))
        ensures FirstName(p, lanes) == Some(lanes[k].title)
      {
        if k > 0 {
          assert !p.isName(lanes[0].title, lanes[0].key);
          assert rest[k - 1] == lanes[k];
          assert forall j :: 0 <= j < k - 1 ==> rest[j] == lanes[j + 1];
        }
      }
    }
  }

  /** The first note that is this person's. */
  ghost predicate IsFirstNote(p: Rules, callers: seq<Note>, key: string, c: nat) {
    c < |callers| && p.same(callers[c].number, key) && forall b :: 0 <= b < c ==> !p.same(callers[b].number, key)
  }

  /** No note is theirs, and no lane has a name for a title. */
  ghost predicate NoNames(p: Rules, g: Group, callers: seq<Note>) {
    && (g.who.alone || forall c :: 0 <= c < |callers| ==> !p.same(callers[c].number, g.who.key))
    && forall k :: 0 <= k < |g.lanes| ==> !p.isName(g.lanes[k].title, g.lanes[k].key)
  }

  /** Of its lanes whose title is a name, the newest; of those as new, the first. */
  ghost predicate IsNewestNamed(p: Rules, lanes: seq<Info>, k: nat) {
    && k < |lanes| && p.isName(lanes[k].title, lanes[k].key)
    && forall j :: 0 <= j < |lanes| && j != k && p.isName(lanes[j].title, lanes[j].key) ==>
      lanes[j].lastAt < lanes[k].lastAt || (lanes[j].lastAt == lanes[k].lastAt && k < j)
  }

  predicate Ascending(s: seq<Info>) {
    forall i, j :: 0 <= i < j < |s| ==> Newest()(s[i]) <= Newest()(s[j])
  }

  /** The first lane whose title is a name. */
  function Named(p: Rules, s: seq<Info>): (r: Option<Info>)
    ensures r.Some? ==> r.value in s && p.isName(r.value.title, r.value.key)
  {
    if s == [] then None else if p.isName(s[0].title, s[0].key) then Some(s[0]) else Named(p, s[1..])
  }

  lemma {:induction false} FirstNameIs(p: Rules, s: seq<Info>)
    ensures FirstName(p, s) == if Named(p, s).Some? then Some(Named(p, s).value.title) else None
  {
    if s != [] {
      FirstNameIs(p, s[1..]);
    }
  }

  lemma {:induction false} PlacedAscends(e: Info, s: seq<Info>)
    requires Ascending(s)
    ensures Ascending(Placed(e, s, Newest()))
  {
    if s != [] && Newest()(e) > Newest()(s[0]) {
      PlacedAscends(e, s[1..]);
      PlacedHas(e, s[1..], Newest());
      var r := Placed(e, s[1..], Newest());
      forall i | 0 <= i < |r|
        ensures Newest()(s[0]) <= Newest()(r[i])
      {
        assert r[i] in multiset(r);
      }
    }
  }

  lemma {:induction false} SortedAscends(s: seq<Info>)
    ensures Ascending(Sorted(s, Newest()))
  {
    if s != [] {
      SortedAscends(s[1..]);
      PlacedAscends(s[0], Sorted(s[1..], Newest()));
    }
  }

  /** One lane more: named, it is the first when none named before is newer. */
  lemma {:induction false} NamedPlaced(p: Rules, e: Info, s: seq<Info>)
    requires Ascending(s)
    ensures
      var before := Named(p, s);
      Named(p, Placed(e, s, Newest())) ==
      if p.isName(e.title, e.key) && (before.None? || Newest()(e) <= Newest()(before.value)) then Some(e) else before
  {
    if s == [] || Newest()(e) <= Newest()(s[0]) {
      assert ([e] + s)[1..] == s;
      if Named(p, s).Some? {
        var i :| 0 <= i < |s| && s[i] == Named(p, s).value;
        assert Newest()(s[0]) <= Newest()(s[i]);
      }
    } else {
      NamedPlaced(p, e, s[1..]);
      assert ([s[0]] + Placed(e, s[1..], Newest()))[1..] == Placed(e, s[1..], Newest());
    }
  }

  /** The first name of the lanes, newest first, is the newest named one's. */
  lemma {:induction false} NewestName(p: Rules, lanes: seq<Info>, k: nat)
    requires IsNewestNamed(p, lanes, k)
    ensures Named(p, Sorted(lanes, Newest())) == Some(lanes[k])
  {
    hide Named, Ascending;
    var e, rest := lanes[0], lanes[1..];
    var s := Sorted(rest, Newest());
    SortedAscends(rest);
    NamedPlaced(p, e, s);
    assert forall j :: 0 <= j < |rest| ==> rest[j] == lanes[j + 1];
    if k > 0 {
      NewestName(p, rest, k - 1);
    } else if Named(p, s).Some? {
      var x := Named(p, s).value;
      SortedIn(rest, Newest(), x);
      var l :| 0 <= l < |rest| && rest[l] == x;
      assert lanes[l + 1] == x;
    }
  }

  /** Their note says no name, or there is none. */
  ghost predicate NoNotesName(p: Rules, g: Group, callers: seq<Note>) {
    g.who.alone || forall c: nat :: IsFirstNote(p, callers, g.who.key, c) ==> callers[c].name == ""
  }

  /** Where their note says none, they are called as the newest lane with a name is. */
  lemma TitleOfLane(p: Rules, g: Group, callers: seq<Note>, k: nat)
    requires IsNewestNamed(p, g.lanes, k) && NoNotesName(p, g, callers) && g.lanes[k].title != ""
    ensures TitleOf(p, g, callers) == g.lanes[k].title
  {
    hide FindCaller, FirstName, Sorted, Named;
    CallerIs(p, callers, g.who.key);
    NewestName(p, g.lanes, k);
    FirstNameIs(p, Sorted(g.lanes, Newest()));
    FirstNoteIs(p, callers, g.who.key);
  }

  lemma FirstNoteIs(p: Rules, callers: seq<Note>, key: string)
    ensures FindCaller(p, callers, key).Some? ==> exists c: nat :: IsFirstNote(p, callers, key, c) && callers[c] == FindCaller(p, callers, key).value
  {
    if callers != [] {
      if p.same(callers[0].number, key) {
        assert IsFirstNote(p, callers, key, 0);
      } else {
        var rest := callers[1..];
        FirstNoteIs(p, rest, key);
        if FindCaller(p, rest, key).Some? {
          var c: nat :| IsFirstNote(p, rest, key, c) && rest[c] == FindCaller(p, rest, key).value;
          assert IsFirstNote(p, callers, key, c + 1);
        }
      }
    }
  }

  /** A person's conversation is called as their note names them; with no such name and none on its lanes, as the pretend one, an alone caller's first lane, or the key. */
  lemma TitleIs(p: Rules, g: Group, callers: seq<Note>)
    requires g.lanes != []
    ensures forall c: nat :: !g.who.alone && IsFirstNote(p, callers, g.who.key, c) && callers[c].name != "" ==> TitleOf(p, g, callers) == callers[c].name
    ensures NoNames(p, g, callers) ==>
      TitleOf(p, g, callers) == if g.who.key == "test" then "Test" else if g.who.alone && g.lanes[0].title != "" then g.lanes[0].title else g.who.key
  {
    hide FindCaller, FirstName, Sorted;
    CallerIs(p, callers, g.who.key);
    var lanes := Sorted(g.lanes, Newest());
    NameIs(p, lanes);
    if forall k :: 0 <= k < |g.lanes| ==> !p.isName(g.lanes[k].title, g.lanes[k].key) {
      forall k | 0 <= k < |lanes|
        ensures !p.isName(lanes[k].title, lanes[k].key)
      {
        SortedIn(g.lanes, Newest(), lanes[k]);
        assert lanes[k] in lanes;
        var j :| 0 <= j < |g.lanes| && g.lanes[j] == lanes[k];
      }
    }
  }
}
