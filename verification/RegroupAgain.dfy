/**
 * Regrouping what was regrouped changes nothing (app/src/threads.ts:224-231):
 * what it returns is settled, and what is settled stays as it is.
 */
module RegroupAgain {
  import opened Options
  import opened Subsequences
  import opened Sorting
  import opened People
  import opened Regroup

  // ---- Settled lanes ---------------------------------------------------------------------------

  /** A lane as regrouping leaves it. */
  ghost predicate LaneSettled(p: Rules, x: Info) {
    && x.thread.Some? && x.kind != Task && PersonOf(p, x).key == x.key
    && (PersonOf(p, x).alone && x.key != TEST && x.kind == Call ==> x.hidden)
    && NoRepeats(x.handles) && |x.handles| <= 100
  }

  /** Two of them: one person's call and texts in one conversation, or two people's in two. */
  ghost predicate PairSettled(p: Rules, a: Info, b: Info) {
    if a.thread == b.thread then PersonOf(p, a) == PersonOf(p, b) && a.kind != b.kind
    else !OnePerson(p, PersonOf(p, a), PersonOf(p, b)) && !OnePerson(p, PersonOf(p, b), PersonOf(p, a))
  }

  ghost predicate Settled(p: Rules, s: seq<Info>) {
    && (forall i :: 0 <= i < |s| ==> LaneSettled(p, s[i]))
    && (forall i, j :: 0 <= i < j < |s| ==> PairSettled(p, s[i], s[j]))
  }

  lemma SettledPrefix(p: Rules, s: seq<Info>, n: nat)
    requires Settled(p, s) && n <= |s|
    ensures Settled(p, s[..n])
  {
    hide LaneSettled, PairSettled;
  }

  lemma PairsBothWays(p: Rules, a: Info, b: Info)
    ensures PairSettled(p, a, b) <==> PairSettled(p, b, a)
  {
  }

  /** Settled in one order is settled in any. */
  lemma SettledAnyOrder(p: Rules, a: seq<Info>, b: seq<Info>)
    requires multiset(a) == multiset(b) && Settled(p, a)
    ensures Settled(p, b)
  {
    NoLaneTwice(p, a);
    SameRepeats(a, b);
    hide LaneSettled, PairSettled;
    forall i | 0 <= i < |b|
      ensures LaneSettled(p, b[i])
    {
      assert b[i] in multiset(b);
      assert b[i] in a;
    }
    forall i, j | 0 <= i < j < |b|
      ensures PairSettled(p, b[i], b[j])
    {
      assert b[i] in multiset(b) && b[j] in multiset(b);
      assert b[i] in a && b[j] in a;
      var k :| 0 <= k < |a| && a[k] == b[i];
      var l :| 0 <= l < |a| && a[l] == b[j];
      PairsBothWays(p, b[i], b[j]);
      assert b[i] != b[j];
      assert if k < l then PairSettled(p, a[k], a[l]) else PairSettled(p, a[l], a[k]);
    }
  }

  lemma NoLaneTwice(p: Rules, a: seq<Info>)
    requires Settled(p, a)
    ensures NoRepeats(a)
  {
    forall i, j | 0 <= i < j < |a|
      ensures a[i] != a[j]
    {
      assert PairSettled(p, a[i], a[j]);
    }
  }

  // ---- They are grouped by their conversation ---------------------------------------------------

  /** Those kept in one conversation. */
  function InThread(s: seq<Info>, thread: string): (r: seq<Info>)
    ensures forall i :: 0 <= i < |r| ==> r[i] in s && r[i].thread == Some(thread)
  {
    if s == [] then []
    else
      var n := |s| - 1;
      InThread(s[..n], thread) + if s[n].thread == Some(thread) then [s[n]] else []
  }

  lemma {:induction false} NoneInThread(s: seq<Info>, thread: string)
    requires forall i :: 0 <= i < |s| ==> s[i].thread != Some(thread)
    ensures InThread(s, thread) == []
  {
    if s != [] {
      NoneInThread(s[..|s| - 1], thread);
    }
  }

  /** A group of one conversation's lanes. */
  ghost predicate GroupIs(p: Rules, s: seq<Info>, g: Group) {
    && |g.threads| == 1 && g.lanes == InThread(s, g.threads[0]) && g.lanes != [] && g.who == PersonOf(p, g.lanes[0])
  }

  ghost predicate GroupsAre(p: Rules, s: seq<Info>, groups: seq<Group>) {
    && (forall i :: 0 <= i < |groups| ==> GroupIs(p, s, groups[i]))
    && (forall i, j :: 0 <= i < j < |groups| ==> groups[i].threads != groups[j].threads)
    && (forall k :: 0 <= k < |s| && s[k].thread.Some? ==> exists i :: 0 <= i < |groups| && groups[i].threads == [s[k].thread.value])
  }

  /** A lane belongs to a group exactly when it is of its conversation. */
  lemma BelongsIff(p: Rules, s: seq<Info>, n: nat, g: Group)
    requires Settled(p, s) && n < |s| && GroupIs(p, s[..n], g)
    ensures Belongs(p, g, s[n]) <==> g.threads == [s[n].thread.value]
  {
    var first := g.lanes[0];
    assert first in s[..n];
    var k :| 0 <= k < n && s[k] == first;
    assert PairSettled(p, s[k], s[n]);
    assert LaneSettled(p, s[n]);
  }

  lemma {:induction false} SettledGroups(p: Rules, s: seq<Info>)
    requires Settled(p, s)
    ensures GroupsAre(p, s, Groups(p, s))
  {
    if s != [] {
      var n := |s| - 1;
      SettledPrefix(p, s, n);
      SettledGroups(p, s[..n]);
      OneLaneMore(p, s, Groups(p, s[..n]));
    }
  }

  lemma OneLaneMore(p: Rules, s: seq<Info>, groups: seq<Group>)
    requires Settled(p, s) && s != [] && GroupsAre(p, s[..|s| - 1], groups)
    ensures GroupsAre(p, s, Into(p, groups, s[|s| - 1]))
  {
    hide GroupIs, Belongs;
    var n := |s| - 1;
    var x := s[n];
    forall i | 0 <= i < |groups|
      ensures Belongs(p, groups[i], x) <==> groups[i].threads == [x.thread.value]
      ensures groups[i].threads != [x.thread.value] ==> GroupIs(p, s, groups[i])
    {
      BelongsIff(p, s, n, groups[i]);
      if groups[i].threads != [x.thread.value] {
        OtherGroup(p, s, groups[i]);
      }
    }
    var g := FindGroup(p, groups, x, 0);
    assert LaneSettled(p, x);
    if g.None? {
      NewGroup(p, s, groups);
      Covered(p, s, groups, groups + [Group(PersonOf(p, x), [x], [x.thread.value])], |groups|);
    } else {
      GrownGroup(p, s, groups[g.value]);
      var to := groups[g.value].(lanes := groups[g.value].lanes + [x]);
      assert Into(p, groups, x) == groups[g.value := to];
      Covered(p, s, groups, groups[g.value := to], g.value);
    }
  }

  lemma OtherGroup(p: Rules, s: seq<Info>, g: Group)
    requires s != [] && GroupIs(p, s[..|s| - 1], g) && s[|s| - 1].thread.Some? && g.threads != [s[|s| - 1].thread.value]
    ensures GroupIs(p, s, g)
  {
    assert InThread(s, g.threads[0]) == InThread(s[..|s| - 1], g.threads[0]) + [];
  }

  lemma GrownGroup(p: Rules, s: seq<Info>, g: Group)
    requires s != [] && GroupIs(p, s[..|s| - 1], g) && s[|s| - 1].thread.Some? && g.threads == [s[|s| - 1].thread.value]
    ensures GroupIs(p, s, g.(lanes := g.lanes + [s[|s| - 1]])) && WithThread(g.threads, s[|s| - 1].thread) == g.threads
  {
  }

  lemma NewGroup(p: Rules, s: seq<Info>, groups: seq<Group>)
    requires s != [] && s[|s| - 1].thread.Some? && GroupsAre(p, s[..|s| - 1], groups)
    requires forall i :: 0 <= i < |groups| ==> groups[i].threads != [s[|s| - 1].thread.value]
    ensures
      var x := s[|s| - 1];
      GroupIs(p, s, Group(PersonOf(p, x), [x], [x.thread.value])) && WithThread([], x.thread) == [x.thread.value]
  {
    var n := |s| - 1;
    var x := s[n];
    forall k | 0 <= k < n
      ensures s[..n][k].thread != x.thread
    {
    }
    NoneInThread(s[..n], x.thread.value);
  }

  /** Each lane's conversation has its group still. */
  lemma Covered(p: Rules, s: seq<Info>, groups: seq<Group>, after: seq<Group>, at: nat)
    requires s != [] && s[|s| - 1].thread.Some? && GroupsAre(p, s[..|s| - 1], groups) && |groups| <= |after| && at < |after|
    requires forall i :: 0 <= i < |groups| ==> after[i].threads == groups[i].threads
    requires after[at].threads == [s[|s| - 1].thread.value]
    ensures forall k :: 0 <= k < |s| && s[k].thread.Some? ==> exists i :: 0 <= i < |after| && after[i].threads == [s[k].thread.value]
  {
    hide GroupIs;
    forall k | 0 <= k < |s| && s[k].thread.Some?
      ensures exists i :: 0 <= i < |after| && after[i].threads == [s[k].thread.value]
    {
      if k < |s| - 1 {
        assert s[..|s| - 1][k] == s[k];
        var i :| 0 <= i < |groups| && groups[i].threads == [s[k].thread.value];
        assert after[i].threads == [s[k].thread.value];
      }
    }
  }

  // ---- A settled conversation stays ------------------------------------------------------------------

  /** A lane but for its title: a name alone is no change. */
  function Untitled(x: Info): Info {
    x.(title := "")
  }

  function AllUntitled(s: seq<Info>): (r: seq<Info>)
    ensures |r| == |s| && forall i :: 0 <= i < |s| ==> r[i] == Untitled(s[i])
  {
    seq(|s|, i requires 0 <= i < |s| => Untitled(s[i]))
  }

  lemma UntitledJoin(a: seq<Info>, b: seq<Info>)
    ensures AllUntitled(a + b) == AllUntitled(a) + AllUntitled(b)
  {
  }

  /** A conversation's lanes: settled, and of one person. */
  ghost predicate Conversation(p: Rules, g: Group) {
    && |g.threads| == 1 && g.lanes != [] && g.who == PersonOf(p, g.lanes[0])
    && (forall i :: 0 <= i < |g.lanes| ==> LaneSettled(p, g.lanes[i]) && g.lanes[i].thread == Some(g.threads[0]) && PersonOf(p, g.lanes[i]) == g.who)
    && (forall i, j :: 0 <= i < j < |g.lanes| ==> g.lanes[i].kind != g.lanes[j].kind)
  }

  lemma {:induction false} PairsInThread(p: Rules, s: seq<Info>, thread: string)
    requires Settled(p, s)
    ensures forall i, j :: 0 <= i < j < |InThread(s, thread)| ==> PairSettled(p, InThread(s, thread)[i], InThread(s, thread)[j])
  {
    hide LaneSettled, PairSettled;
    if s != [] {
      var n := |s| - 1;
      PairsInThread(p, s[..n], thread);
      var before := InThread(s[..n], thread);
      forall i | 0 <= i < |before|
        ensures PairSettled(p, before[i], s[n])
      {
        assert before[i] in s[..n];
        var k :| 0 <= k < n && s[k] == before[i];
      }
    }
  }

  lemma IsConversation(p: Rules, s: seq<Info>, g: Group)
    requires Settled(p, s) && GroupIs(p, s, g)
    ensures Conversation(p, g)
  {
    PairsInThread(p, s, g.threads[0]);
    forall i | 0 <= i < |g.lanes|
      ensures LaneSettled(p, g.lanes[i]) && g.lanes[i].thread == Some(g.threads[0]) && PersonOf(p, g.lanes[i]) == g.who
    {
      assert g.lanes[i] in s;
      assert i > 0 ==> PairSettled(p, g.lanes[0], g.lanes[i]);
    }
    forall i, j | 0 <= i < j < |g.lanes|
      ensures g.lanes[i].kind != g.lanes[j].kind
    {
      assert PairSettled(p, g.lanes[i], g.lanes[j]);
    }
  }

  /** At most two lanes, one of each kind. */
  lemma TwoAtMost(p: Rules, g: Group)
    requires Conversation(p, g)
    ensures |g.lanes| <= 2
    ensures |g.lanes| == 1 ==> OfKind(g.lanes, g.lanes[0].kind) == g.lanes && forall k :: k != g.lanes[0].kind ==> OfKind(g.lanes, k) == []
    ensures |g.lanes| == 2 ==> OfKind(g.lanes, g.lanes[0].kind) == [g.lanes[0]] && OfKind(g.lanes, g.lanes[1].kind) == [g.lanes[1]]
    ensures forall i :: 0 <= i < |g.lanes| ==> g.lanes[i].kind == Call || g.lanes[i].kind == Sms
  {
    hide PersonOf;
    forall i | 0 <= i < |g.lanes|
      ensures g.lanes[i].kind == Call || g.lanes[i].kind == Sms
    {
      assert LaneSettled(p, g.lanes[i]);
    }
    hide LaneSettled;
    if |g.lanes| > 2 {
      TwoOfThree(g.lanes);
      assert false;
    }
    assert OfKind([], Call) == [] && OfKind([], Sms) == [] && OfKind([], Task) == [];
    if |g.lanes| == 2 {
      assert g.lanes[0].kind != g.lanes[1].kind;
      assert g.lanes[1..] == [g.lanes[1]] && g.lanes[1..][1..] == [];
    } else {
      assert g.lanes[1..] == [];
    }
  }

  lemma TwoOfThree(lanes: seq<Info>)
    requires |lanes| > 2 && forall i :: 0 <= i < |lanes| ==> lanes[i].kind == Call || lanes[i].kind == Sms
    ensures exists i, j :: 0 <= i < j < |lanes| && lanes[i].kind == lanes[j].kind
  {
    var i := if lanes[0].kind == lanes[1].kind || lanes[0].kind == lanes[2].kind then 0 else 1;
    var j := if lanes[0].kind == lanes[1].kind then 1 else 2;
    assert i < j && lanes[i].kind == lanes[j].kind;
  }

  lemma StaysWhole(p: Rules, g: Group)
    requires Conversation(p, g)
    ensures StaysInPlace(g) && ThreadOf(p, g) == g.threads[0]
  {
    TwoAtMost(p, g);
    hide LaneSettled, PersonOf;
    if |g.lanes| == 2 {
      assert g.lanes[0].kind != g.lanes[1].kind;
    }
  }

  lemma {:induction false} UniqueAlready(s: seq<string>, seen: set<string>)
    requires NoRepeats(s) && forall i :: 0 <= i < |s| ==> s[i] !in seen
    ensures Unique(s, seen) == s
  {
    if s != [] {
      assert s[0] !in s[1..];
      UniqueAlready(s[1..], seen + {s[0]});
    }
  }

  /** A conversation's only lane of a kind stays as it was, but for its title. */
  lemma LaneStays(p: Rules, g: Group, x: Info, title: string)
    requires Conversation(p, g) && x in g.lanes
    ensures
      var lane := LaneOf(g, x.kind, [x], title, g.threads[0]);
      Untitled(lane) == Untitled(x) && !LaneChanged([x], lane)
  {
    var i :| 0 <= i < |g.lanes| && g.lanes[i] == x;
    assert LaneSettled(p, x) && PersonOf(p, x) == g.who && x.thread == Some(g.threads[0]);
    assert HandlesOf([x]) == x.handles + [] && x.handles + [] == x.handles;
    UniqueAlready(x.handles, {});
    assert Unread([x]) == x.unread;
    hide PersonOf;
    assert [x][0] == x;
  }

  lemma LaneForStays(p: Rules, g: Group, kind: Kind, callers: seq<Note>)
    requires Conversation(p, g) && (kind == Call || kind == Sms) && |OfKind(g.lanes, kind)| <= 1
    ensures !LaneFor(p, g, kind, callers).changed
    ensures AllUntitled(LaneFor(p, g, kind, callers).infos) == AllUntitled(OfKind(g.lanes, kind))
  {
    hide Conversation, LaneOf, LaneChanged, TitleOf;
    var lanes := OfKind(g.lanes, kind);
    if lanes != [] {
      SortedOne(lanes, Newest());
      StaysWhole(p, g);
      LaneStays(p, g, lanes[0], TitleOf(p, g, callers));
      assert lanes == [lanes[0]];
    } else {
      assert Sorted(lanes, Newest()) == [];
    }
  }

  lemma ConversationStays(p: Rules, g: Group, callers: seq<Note>)
    requires Conversation(p, g)
    ensures
      var call, sms := LaneFor(p, g, Call, callers), LaneFor(p, g, Sms, callers);
      && !call.changed && !sms.changed
      && multiset(AllUntitled(call.infos + sms.infos)) == multiset(AllUntitled(g.lanes))
  {
    hide LaneFor, Conversation, OfKind;
    TwoAtMost(p, g);
    KindsDiffer(p, g);
    LaneForStays(p, g, Call, callers);
    LaneForStays(p, g, Sms, callers);
    UntitledJoin(LaneFor(p, g, Call, callers).infos, LaneFor(p, g, Sms, callers).infos);
    UntitledJoin(OfKind(g.lanes, Call), OfKind(g.lanes, Sms));
    if |g.lanes| == 1 {
      assert OfKind(g.lanes, Call) + OfKind(g.lanes, Sms) == g.lanes;
    } else if g.lanes[0].kind == Call {
      assert OfKind(g.lanes, Call) + OfKind(g.lanes, Sms) == g.lanes;
    } else {
      assert OfKind(g.lanes, Sms) + OfKind(g.lanes, Call) == g.lanes;
      UntitledJoin(OfKind(g.lanes, Sms), OfKind(g.lanes, Call));
    }
  }

  lemma KindsDiffer(p: Rules, g: Group)
    requires Conversation(p, g)
    ensures |g.lanes| == 2 ==> g.lanes[0].kind != g.lanes[1].kind
    ensures g.lanes != [] && |g.threads| == 1
  {
  }

  // ---- Everything settled stays ------------------------------------------------------------------------

  function Flat(groups: seq<Group>): seq<Info> {
    if groups == [] then [] else Flat(groups[..|groups| - 1]) + groups[|groups| - 1].lanes
  }

  /** Grouping loses no lane. */
  lemma {:induction false} GroupsHaveAll(p: Rules, s: seq<Info>)
    ensures multiset(Flat(Groups(p, s))) == multiset(s)
  {
    hide Belongs, PersonOf;
    if s != [] {
      var n := |s| - 1;
      GroupsHaveAll(p, s[..n]);
      assert s == s[..n] + [s[n]];
      IntoHasAll(p, Groups(p, s[..n]), s[n]);
    }
  }

  lemma IntoHasAll(p: Rules, groups: seq<Group>, x: Info)
    ensures multiset(Flat(Into(p, groups, x))) == multiset(Flat(groups)) + multiset{x}
  {
    hide Belongs, PersonOf;
    var g := FindGroup(p, groups, x, 0);
    if g.None? {
      assert Into(p, groups, x)[..|groups|] == groups;
    } else {
      var to := groups[g.value].(lanes := groups[g.value].lanes + [x], threads := WithThread(groups[g.value].threads, x.thread));
      FlatGrows(groups, g.value, to, x);
    }
  }

  lemma {:induction false} FlatGrows(groups: seq<Group>, i: nat, to: Group, x: Info)
    requires i < |groups| && to.lanes == groups[i].lanes + [x]
    ensures multiset(Flat(groups[i := to])) == multiset(Flat(groups)) + multiset{x}
  {
    var n := |groups| - 1;
    var after := groups[i := to];
    if i == n {
      assert after[..n] == groups[..n];
      assert Flat(after) == Flat(groups[..n]) + (groups[n].lanes + [x]);
      assert Flat(after) == Flat(groups) + [x];
    } else {
      assert after[..n] == groups[..n][i := to];
      FlatGrows(groups[..n], i, to, x);
      FlatIs(after);
      FlatIs(groups);
    }
  }

  lemma FlatIs(groups: seq<Group>)
    requires groups != []
    ensures multiset(Flat(groups)) == multiset(Flat(groups[..|groups| - 1])) + multiset(groups[|groups| - 1].lanes)
  {
  }

  ghost predicate Conversations(p: Rules, groups: seq<Group>) {
    forall i :: 0 <= i < |groups| ==> Conversation(p, groups[i])
  }

  lemma SettledConversations(p: Rules, s: seq<Info>)
    requires Settled(p, s)
    ensures Conversations(p, Groups(p, s)) && GroupsAre(p, s, Groups(p, s))
  {
    hide Settled, GroupIs, Conversation;
    SettledGroups(p, s);
    var groups := Groups(p, s);
    forall i | 0 <= i < |groups|
      ensures Conversation(p, groups[i])
    {
      IsConversation(p, s, groups[i]);
    }
  }

  /** Conversations added change nothing but titles, and rewrite no file. */
  lemma {:induction false} AddingStays(p: Rules, r: Regrouped, groups: seq<Group>, from: Files, merge: Merge)
    requires Peopled(groups) && Conversations(p, groups)
    ensures
      var to := AddGroups(p, r, groups, from, merge);
      && to.changed == r.changed && to.rewritten == r.rewritten && to.stale == r.stale && to.kept.callers == r.kept.callers
      && multiset(AllUntitled(to.kept.infos)) == multiset(AllUntitled(r.kept.infos)) + multiset(AllUntitled(Flat(groups)))
    decreases |groups|
  {
    hide Conversation, LaneFor, StaysInPlace, ConversationOf, StaleFiles;
    if groups == [] {
      assert AllUntitled([]) == [];
    } else {
      var n := |groups| - 1;
      AddingStays(p, r, groups[..n], from, merge);
      var before, g := AddGroups(p, r, groups[..n], from, merge), groups[n];
      StaysWhole(p, g);
      ConversationStays(p, g, before.kept.callers);
      var call, sms := LaneFor(p, g, Call, before.kept.callers).infos, LaneFor(p, g, Sms, before.kept.callers).infos;
      AddedUntitled(before.kept.infos, call, sms);
      UntitledJoin(Flat(groups[..n]), g.lanes);
    }
  }

  lemma AddedUntitled(a: seq<Info>, b: seq<Info>, c: seq<Info>)
    ensures multiset(AllUntitled(a + b + c)) == multiset(AllUntitled(a)) + multiset(AllUntitled(b + c))
  {
    assert a + b + c == a + (b + c);
    UntitledJoin(a, b + c);
  }

  // ---- Its files ------------------------------------------------------------------------------------------

  predicate AllMarked(turns: seq<Turn>) {
    forall i :: 0 <= i < |turns| ==> turns[i].via.Some?
  }

  lemma MarkedAlready(turns: seq<Turn>, kind: Kind)
    requires AllMarked(turns)
    ensures MarkAll(turns, kind) == turns
  {
  }

  /** The conversations of these groups whose files need no marks. */
  ghost predicate FilesMarked(groups: seq<Group>, from: Files) {
    forall i :: 0 <= i < |groups| && |groups[i].threads| == 1 && |groups[i].lanes| == 1 ==> AllMarked(TurnsOf(from, groups[i].threads[0]))
  }

  function ThreadsOf(p: Rules, groups: seq<Group>): set<string>
    requires forall i :: 0 <= i < |groups| ==> groups[i].lanes != []
  {
    set i | 0 <= i < |groups| :: ThreadOf(p, groups[i])
  }

  ghost predicate AsIn(files: Files, from: Files) {
    forall k :: k in files ==> files[k] == TurnsOf(from, k)
  }

  lemma {:induction false} FilesStay(p: Rules, r: Regrouped, groups: seq<Group>, from: Files, merge: Merge)
    requires Peopled(groups) && Conversations(p, groups) && FilesMarked(groups, from) && AsIn(r.kept.files, from)
    ensures
      var to := AddGroups(p, r, groups, from, merge).kept.files;
      AsIn(to, from) && to.Keys == r.kept.files.Keys + ThreadsOf(p, groups)
    decreases |groups|
  {
    hide Conversation, LaneFor, StaysInPlace, StaleFiles, ConversationOf, ThreadOf, ThreadsOf, TurnsOf;
    if groups == [] {
      NoThreads(p);
    } else {
      var n := |groups| - 1;
      MarkedPrefix(groups, from);
      FilesStay(p, r, groups[..n], from, merge);
      KindsDiffer(p, groups[n]);
      SameConversation(p, groups[n], from, merge);
      ThreadsMore(p, groups);
    }
  }

  lemma NoThreads(p: Rules)
    ensures ThreadsOf(p, []) == {}
  {
  }

  lemma MarkedPrefix(groups: seq<Group>, from: Files)
    requires groups != [] && FilesMarked(groups, from)
    ensures FilesMarked(groups[..|groups| - 1], from)
  {
    hide AllMarked;
  }

  lemma ThreadsMore(p: Rules, groups: seq<Group>)
    requires groups != [] && forall i :: 0 <= i < |groups| ==> groups[i].lanes != []
    ensures ThreadsOf(p, groups) == ThreadsOf(p, groups[..|groups| - 1]) + {ThreadOf(p, groups[|groups| - 1])}
  {
    hide ThreadOf;
    var n := |groups| - 1;
    forall t | t in ThreadsOf(p, groups)
      ensures t in ThreadsOf(p, groups[..n]) + {ThreadOf(p, groups[n])}
    {
      var i :| 0 <= i < |groups| && ThreadOf(p, groups[i]) == t;
      assert i < n ==> groups[..n][i] == groups[i];
    }
    forall t | t in ThreadsOf(p, groups[..n])
      ensures t in ThreadsOf(p, groups)
    {
      var i :| 0 <= i < n && ThreadOf(p, groups[..n][i]) == t;
      assert groups[i] == groups[..n][i];
    }
  }

  lemma SameConversation(p: Rules, g: Group, from: Files, merge: Merge)
    requires Conversation(p, g) && (|g.lanes| == 1 ==> AllMarked(TurnsOf(from, g.threads[0])))
    ensures ConversationOf(p, g, from, merge) == TurnsOf(from, ThreadOf(p, g))
  {
    StaysWhole(p, g);
    hide Conversation;
    if |g.lanes| == 1 {
      MarkedAlready(TurnsOf(from, g.threads[0]), g.lanes[0].kind);
    }
  }

  ghost predicate TasksThreaded(tasks: seq<Info>) {
    forall i :: 0 <= i < |tasks| ==> tasks[i].thread.Some?
  }

  function TaskThreads(tasks: seq<Info>): set<string> {
    set i | 0 <= i < |tasks| :: TaskThread(tasks[i])
  }

  lemma {:induction false} TasksStay(tasks: seq<Info>, from: Files)
    ensures TasksThreaded(tasks) ==> WithTasks(tasks, from).0 == tasks
    ensures AsIn(WithTasks(tasks, from).1, from) && WithTasks(tasks, from).1.Keys == TaskThreads(tasks)
  {
    if tasks != [] {
      var n := |tasks| - 1;
      TasksStay(tasks[..n], from);
      assert tasks == tasks[..n] + [tasks[n]];
      MoreTasks(tasks);
    }
  }

  lemma MoreTasks(tasks: seq<Info>)
    requires tasks != []
    ensures TaskThreads(tasks) == TaskThreads(tasks[..|tasks| - 1]) + {TaskThread(tasks[|tasks| - 1])}
  {
    var n := |tasks| - 1;
    hide TaskThread;
    forall t | t in TaskThreads(tasks)
      ensures t in TaskThreads(tasks[..n]) + {TaskThread(tasks[n])}
    {
      var i :| 0 <= i < |tasks| && TaskThread(tasks[i]) == t;
      assert i < n ==> tasks[..n][i] == tasks[i];
    }
    forall t | t in TaskThreads(tasks[..n])
      ensures t in TaskThreads(tasks)
    {
      var i :| 0 <= i < n && TaskThread(tasks[..n][i]) == t;
      assert tasks[i] == tasks[..n][i];
    }
  }

  lemma {:induction false} PlacedUntitled(x: Info, s: seq<Info>, rank: Info -> int)
    ensures multiset(AllUntitled(Placed(x, s, rank))) == multiset{Untitled(x)} + multiset(AllUntitled(s))
  {
    if s == [] || rank(x) <= rank(s[0]) {
      UntitledJoin([x], s);
      assert AllUntitled([x]) == [Untitled(x)];
    } else {
      PlacedUntitled(x, s[1..], rank);
      UntitledJoin([s[0]], Placed(x, s[1..], rank));
      UntitledJoin([s[0]], s[1..]);
      assert s == [s[0]] + s[1..];
      assert AllUntitled([s[0]]) == [Untitled(s[0])];
    }
  }

  lemma {:induction false} SortedUntitled(s: seq<Info>, rank: Info -> int)
    ensures multiset(AllUntitled(Sorted(s, rank))) == multiset(AllUntitled(s))
  {
    hide Placed;
    if s != [] {
      SortedUntitled(s[1..], rank);
      PlacedUntitled(s[0], Sorted(s[1..], rank), rank);
      UntitledJoin([s[0]], s[1..]);
      assert s == [s[0]] + s[1..];
      assert AllUntitled([s[0]]) == [Untitled(s[0])];
    } else {
      assert AllUntitled(s) == [];
    }
  }

  lemma FirstUntitled(x: Info, s: seq<Info>)
    ensures multiset(AllUntitled([x] + s)) == multiset{Untitled(x)} + multiset(AllUntitled(s))
  {
    UntitledJoin([x], s);
    assert AllUntitled([x]) == [Untitled(x)];
  }

  lemma {:induction false} TasksAndOthers(s: seq<Info>)
    ensures multiset(AllUntitled(OfKind(s, Task))) + multiset(AllUntitled(NotTasks(s))) == multiset(AllUntitled(s))
  {
    if s == [] {
      assert AllUntitled(s) == [];
    } else {
      hide AllUntitled, Untitled;
      TasksAndOthers(s[1..]);
      assert s == [s[0]] + s[1..];
      FirstUntitled(s[0], s[1..]);
      FirstIs(s);
      if s[0].kind == Task {
        FirstUntitled(s[0], OfKind(s[1..], Task));
      } else {
        FirstUntitled(s[0], NotTasks(s[1..]));
      }
    }
  }

  lemma FirstIs(s: seq<Info>)
    requires s != []
    ensures OfKind(s, Task) == if s[0].kind == Task then [s[0]] + OfKind(s[1..], Task) else OfKind(s[1..], Task)
    ensures NotTasks(s) == if s[0].kind == Task then NotTasks(s[1..]) else [s[0]] + NotTasks(s[1..])
  {
  }

  /** What is kept, settled: its lanes, its files, and who is noted. */
  ghost predicate StoredSettled(p: Rules, stored: Stored) {
    var others := NotTasks(stored.infos);
    var tasks := OfKind(stored.infos, Task);
    GroupsPeopled(p, others);
    && Settled(p, others) && TasksThreaded(tasks)
    && FilesMarked(Groups(p, others), stored.files) && stored.files.Keys == TaskThreads(tasks) + ThreadsOf(p, Groups(p, others))
    && OneEach(p, stored.callers) && KeysKept(p, stored.callers)
  }

  /** Nothing changed: no file to write, none gone, the same turns, and the same lanes and notes, in whatever order. */
  ghost predicate NothingChanged(before: Stored, r: Regrouped) {
    && !r.changed && r.rewritten == [] && r.stale == {}
    && r.kept.files == before.files
    && multiset(AllUntitled(r.kept.infos)) == multiset(AllUntitled(before.infos))
    && multiset(r.kept.callers) == multiset(before.callers)
  }

  lemma CallersStay(p: Rules, notes: seq<Note>)
    requires OneEach(p, notes) && KeysKept(p, notes)
    ensures !MergeCallers(p, notes).changed && multiset(MergeCallers(p, notes).notes) == multiset(notes)
  {
    hide OneEach, KeysKept, AddNotes, Sorted;
    SortedHas(notes, ByUpdate());
    OneEachAnyOrder(p, notes, Sorted(notes, ByUpdate()));
    KeysKeptAnyOrder(p, notes, Sorted(notes, ByUpdate()));
    AddingAgain(p, Sorted(notes, ByUpdate()));
  }

  /** What is settled stays as it is. */
  lemma SettledStays(p: Rules, stored: Stored, merge: Merge)
    requires StoredSettled(p, stored)
    ensures NothingChanged(stored, RegroupAll(p, stored, merge))
  {
    hide Settled, OneEach, KeysKept, MergeCallers, WithTasks, AddGroups, Groups, Sorted, ThreadsOf, FilesMarked, TasksThreaded, Conversations, GroupsAre, AllUntitled, Flat;
    var others, tasks := NotTasks(stored.infos), OfKind(stored.infos, Task);
    var groups := Groups(p, others);
    GroupsPeopled(p, others);
    CallersStay(p, stored.callers);
    TasksStay(tasks, stored.files);
    SettledConversations(p, others);
    var callers := MergeCallers(p, stored.callers);
    var first := Regrouped(Stored(tasks, WithTasks(tasks, stored.files).1, callers.notes), callers.changed, [], {});
    AddingStays(p, first, groups, stored.files, merge);
    FilesStay(p, first, groups, stored.files, merge);
    SameFiles(AddGroups(p, first, groups, stored.files, merge).kept.files, stored.files);
    SortedUntitled(AddGroups(p, first, groups, stored.files, merge).kept.infos, Newest());
    TasksAndOthers(stored.infos);
    FlatUntitled(p, others);
  }

  lemma SameFiles(files: Files, from: Files)
    requires AsIn(files, from) && files.Keys == from.Keys
    ensures files == from
  {
  }

  lemma FlatUntitled(p: Rules, s: seq<Info>)
    ensures multiset(AllUntitled(Flat(Groups(p, s)))) == multiset(AllUntitled(s))
  {
    hide Groups, Flat;
    GroupsHaveAll(p, s);
    UntitledAnyOrder(Flat(Groups(p, s)), s);
  }

  lemma {:induction false} UntitledAnyOrder(a: seq<Info>, b: seq<Info>)
    requires multiset(a) == multiset(b)
    ensures multiset(AllUntitled(a)) == multiset(AllUntitled(b))
    decreases |a|
  {
    if a == [] {
      assert b == [];
    } else {
      var x := a[0];
      assert x in multiset(b);
      var i :| 0 <= i < |b| && b[i] == x;
      var rest := b[..i] + b[i + 1..];
      OneOut(a, b, i);
      UntitledAnyOrder(a[1..], rest);
      UntitledParts(a, b, i);
    }
  }

  lemma OneOut(a: seq<Info>, b: seq<Info>, i: nat)
    requires multiset(a) == multiset(b) && a != [] && i < |b| && b[i] == a[0]
    ensures multiset(a[1..]) == multiset(b[..i] + b[i + 1..])
  {
    assert a == [a[0]] + a[1..];
    assert b == b[..i] + [b[i]] + b[i + 1..];
    assert multiset(a) == multiset{a[0]} + multiset(a[1..]);
    assert multiset(b) == multiset(b[..i]) + multiset{b[i]} + multiset(b[i + 1..]);
    assert multiset(b[..i] + b[i + 1..]) == multiset(b[..i]) + multiset(b[i + 1..]);
    assert multiset(a[1..]) == multiset(a) - multiset{a[0]};
    assert multiset(b[..i] + b[i + 1..]) == multiset(b) - multiset{b[i]};
  }

  lemma UntitledParts(a: seq<Info>, b: seq<Info>, i: nat)
    requires a != [] && i < |b| && b[i] == a[0]
    ensures multiset(AllUntitled(a)) == multiset{Untitled(a[0])} + multiset(AllUntitled(a[1..]))
    ensures multiset(AllUntitled(b)) == multiset{Untitled(a[0])} + multiset(AllUntitled(b[..i] + b[i + 1..]))
  {
    assert a == [a[0]] + a[1..];
    UntitledJoin([a[0]], a[1..]);
    assert AllUntitled([a[0]]) == [Untitled(a[0])];
    assert b == b[..i] + ([b[i]] + b[i + 1..]);
    UntitledJoin(b[..i], [b[i]] + b[i + 1..]);
    UntitledJoin([b[i]], b[i + 1..]);
    UntitledJoin(b[..i], b[i + 1..]);
  }
}
