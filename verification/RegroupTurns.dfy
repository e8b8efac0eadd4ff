/**
 * Where the turns kept are after regrouping (app/src/threads.ts:258-290): which
 * of them each conversation has, and that a lane's with a file of its own are
 * in one conversation, each once, and no other.
 */
module RegroupTurns {
  import opened Options
  import opened Subsequences
  import opened Sorting
  import opened People
  import opened Regroup
  import opened RegroupAgain
  import opened RegroupSettles

  // ---- Turns by what they are, and not how they are marked -----------------------------------

  function Ids(turns: seq<Turn>): (r: seq<nat>)
    ensures |r| == |turns| && forall i :: 0 <= i < |turns| ==> r[i] == turns[i].id
  {
    seq(|turns|, i requires 0 <= i < |turns| => turns[i].id)
  }

  /** How often a turn is in a file: those marked with `kind` alone, and, if `unmarked`, those not marked. */
  function Marked(turns: seq<Turn>, kind: Kind, unmarked: bool, n: nat): nat {
    if turns == [] then 0
    else
      (if turns[0].id == n && (turns[0].via == Some(kind) || (unmarked && turns[0].via.None?)) then 1 else 0)
      + Marked(turns[1..], kind, unmarked, n)
  }

  function InAll(parts: seq<Part>, n: nat): nat {
    if parts == [] then 0 else multiset(Ids(parts[0].turns))[n] + InAll(parts[1..], n)
  }

  /** Merging loses and doubles no turn of its parts, however it marks them (LaneMerge.MergedHasAll). */
  ghost predicate KeepsTurns(merge: Merge) {
    forall parts, n: nat :: multiset(Ids(merge(parts)))[n] == InAll(parts, n)
  }

  lemma {:induction false} IdsJoin(a: seq<Turn>, b: seq<Turn>)
    ensures Ids(a + b) == Ids(a) + Ids(b)
  {
  }

  lemma {:induction false} InJoined(a: seq<Part>, b: seq<Part>, n: nat)
    ensures InAll(a + b, n) == InAll(a, n) + InAll(b, n)
  {
    if a == [] {
      assert a + b == b;
    } else {
      assert (a + b)[1..] == a[1..] + b;
      InJoined(a[1..], b, n);
    }
  }

  // ---- What a lane brings ----------------------------------------------------------------------

  /** No other lane of these is kept in its file. */
  ghost predicate AloneIn(lanes: seq<Info>, k: nat)
    requires k < |lanes|
  {
    forall j :: 0 <= j < |lanes| && j != k ==> lanes[j].thread != lanes[k].thread
  }

  function FileTurns(files: Files, file: string): seq<Turn> {
    if file in files then files[file] else []
  }

  /** How often a turn is brought by lane `k`: of a file of its own all of it; of a conversation's what is marked as its kind, and, of one it is alone in, what is not marked. */
  ghost function Brings(lanes: seq<Info>, k: nat, files: Files, n: nat): nat
    requires k < |lanes|
  {
    match lanes[k].thread
    case None => multiset(Ids(FileTurns(files, lanes[k].id)))[n]
    case Some(file) => Marked(FileTurns(files, file), lanes[k].kind, AloneIn(lanes, k), n)
  }

  /** And by the first `k` of them. */
  ghost function BringAll(lanes: seq<Info>, k: nat, files: Files, n: nat): nat
    requires k <= |lanes|
  {
    if k == 0 then 0 else BringAll(lanes, k - 1, files, n) + Brings(lanes, k - 1, files, n)
  }

  lemma {:induction false} PartIsMarked(turns: seq<Turn>, kind: Kind, only: bool, n: nat)
    ensures multiset(Ids(PartTurns(turns, kind, only)))[n] == Marked(turns, kind, only, n)
  {
    if turns != [] {
      PartIsMarked(turns[1..], kind, only, n);
      var first := if turns[0].via == Some(kind) || (only && turns[0].via.None?) then [turns[0]] else [];
      IdsJoin(first, PartTurns(turns[1..], kind, only));
      assert Ids(first) == if first == [] then [] else [turns[0].id];
    }
  }

  lemma {:induction false} SharingIs(lanes: seq<Info>, k: nat)
    requires k < |lanes|
    ensures Sharing(lanes, lanes[k].thread) >= 1
    ensures Sharing(lanes, lanes[k].thread) == 1 <==> AloneIn(lanes, k)
  {
    var rest := lanes[1..];
    assert forall j :: 0 <= j < |rest| ==> rest[j] == lanes[j + 1];
    NoneShare(rest, lanes[k].thread);
    if k == 0 {
      if AloneIn(lanes, 0) {
        assert forall j :: 0 <= j < |rest| ==> rest[j].thread != lanes[0].thread;
      } else {
        var j :| 0 <= j < |lanes| && j != 0 && lanes[j].thread == lanes[0].thread;
        assert rest[j - 1].thread == lanes[0].thread;
      }
    } else {
      SharingIs(rest, k - 1);
      assert rest[k - 1] == lanes[k];
      if AloneIn(lanes, k) {
        forall j | 0 <= j < |rest| && j != k - 1
          ensures rest[j].thread != rest[k - 1].thread
        {
          assert lanes[j + 1] == rest[j];
        }
      } else if lanes[0].thread != lanes[k].thread {
        var j :| 0 <= j < |lanes| && j != k && lanes[j].thread == lanes[k].thread;
        assert rest[j - 1].thread == rest[k - 1].thread;
      }
    }
  }

  lemma {:induction false} NoneShare(lanes: seq<Info>, thread: Option<string>)
    ensures Sharing(lanes, thread) == 0 <==> forall j :: 0 <= j < |lanes| ==> lanes[j].thread != thread
  {
    if lanes != [] {
      NoneShare(lanes[1..], thread);
      assert forall j :: 0 <= j < |lanes[1..]| ==> lanes[1..][j] == lanes[j + 1];
    }
  }

  lemma PartBrings(g: Group, k: nat, files: Files, n: nat)
    requires k < |g.lanes|
    ensures multiset(Ids(PartOf(g, g.lanes[k], files).turns))[n] == Brings(g.lanes, k, files, n)
  {
    hide Marked, PartTurns, Sharing, AloneIn;
    SharingIs(g.lanes, k);
    if g.lanes[k].thread.Some? {
      PartIsMarked(TurnsOf(files, g.lanes[k].thread.value), g.lanes[k].kind, AloneIn(g.lanes, k), n);
    }
  }

  /** The parts of the call lanes, and of the text lanes, among the first `k`: together all of theirs. */
  lemma {:induction false} PartsBring(g: Group, k: nat, files: Files, n: nat)
    requires k <= |g.lanes| && forall j :: 0 <= j < |g.lanes| ==> g.lanes[j].kind != Task
    ensures InAll(PartsOf(g, OfKind(g.lanes[..k], Call), files), n) + InAll(PartsOf(g, OfKind(g.lanes[..k], Sms), files), n) == BringAll(g.lanes, k, files, n)
  {
    hide PartOf, Brings, OfKind, PartsOf, InAll;
    if k == 0 {
      NoParts(g, files, n);
    } else {
      PartsBring(g, k - 1, files, n);
      var before, x := g.lanes[..k - 1], g.lanes[k - 1];
      assert g.lanes[..k] == before + [x];
      PartBrings(g, k - 1, files, n);
      KindBrings(g, before, x, Call, files, n);
      KindBrings(g, before, x, Sms, files, n);
    }
  }

  lemma KindBrings(g: Group, lanes: seq<Info>, x: Info, kind: Kind, files: Files, n: nat)
    ensures InAll(PartsOf(g, OfKind(lanes + [x], kind), files), n)
         == InAll(PartsOf(g, OfKind(lanes, kind), files), n) + if x.kind == kind then multiset(Ids(PartOf(g, x, files).turns))[n] else 0
  {
    hide PartOf, OfKind, PartsOf, InAll;
    KindLast(lanes, x, kind);
    PartsLast(g, OfKind(lanes, kind), x, files, n);
  }

  lemma NoParts(g: Group, files: Files, n: nat)
    ensures InAll(PartsOf(g, OfKind(g.lanes[..0], Call), files), n) + InAll(PartsOf(g, OfKind(g.lanes[..0], Sms), files), n) == 0
  {
    assert g.lanes[..0] == [] && OfKind([], Call) == [] && OfKind([], Sms) == [] && PartsOf(g, [], files) == [];
  }

  lemma {:induction false} KindLast(infos: seq<Info>, x: Info, kind: Kind)
    ensures OfKind(infos + [x], kind) == OfKind(infos, kind) + if x.kind == kind then [x] else []
  {
    if infos == [] {
      assert [] + [x] == [x] && [x][1..] == [];
    } else {
      assert (infos + [x])[1..] == infos[1..] + [x];
      KindLast(infos[1..], x, kind);
      JoinAgain(if infos[0].kind == kind then [infos[0]] else [], OfKind(infos[1..], kind), if x.kind == kind then [x] else []);
    }
  }

  lemma {:induction false} PartsLast(g: Group, lanes: seq<Info>, x: Info, files: Files, n: nat)
    ensures InAll(PartsOf(g, lanes + [x], files), n) == InAll(PartsOf(g, lanes, files), n) + multiset(Ids(PartOf(g, x, files).turns))[n]
    ensures PartsOf(g, lanes + [], files) == PartsOf(g, lanes, files)
  {
    hide PartOf;
    assert lanes + [] == lanes;
    if lanes == [] {
      assert lanes + [x] == [x] && [x][1..] == [];
      assert PartsOf(g, [x], files) == [PartOf(g, x, files)] + PartsOf(g, [], files);
      assert [PartOf(g, x, files)] + [] == [PartOf(g, x, files)];
      assert [PartOf(g, x, files)][1..] == [];
    } else {
      assert (lanes + [x])[1..] == lanes[1..] + [x];
      PartsLast(g, lanes[1..], x, files, n);
      InJoined([PartOf(g, lanes[0], files)], PartsOf(g, lanes[1..] + [x], files), n);
      InJoined([PartOf(g, lanes[0], files)], PartsOf(g, lanes[1..], files), n);
    }
  }

  // ---- A conversation's turns -----------------------------------------------------------------------

  /** All its lanes are kept in this conversation already, a call lane and a text lane at most. */
  ghost predicate AsKept(g: Group, thread: string) {
    && (forall k :: 0 <= k < |g.lanes| ==> g.lanes[k].thread == Some(thread))
    && (forall j, k :: 0 <= j < k < |g.lanes| ==> g.lanes[j].kind != g.lanes[k].kind)
  }

  /** Its threads are its lanes', each once. */
  ghost predicate ThreadsAre(g: Group) {
    && NoRepeats(g.threads) && g.lanes != [] && (forall k :: 0 <= k < |g.lanes| ==> g.lanes[k].kind != Task)
    && (forall t :: t in g.threads <==> exists k :: 0 <= k < |g.lanes| && g.lanes[k].thread == Some(t))
  }

  lemma {:induction false} GroupThreads(p: Rules, s: seq<Info>)
    requires forall i :: 0 <= i < |s| ==> s[i].kind != Task
    ensures forall i :: 0 <= i < |Groups(p, s)| ==> ThreadsAre(Groups(p, s)[i])
  {
    hide Belongs, PersonOf, ThreadsAre;
    if s != [] {
      var n := |s| - 1;
      GroupThreads(p, s[..n]);
      var before := Groups(p, s[..n]);
      var g := FindGroup(p, before, s[n], 0);
      if g.Some? {
        LaneJoins(before[g.value], s[n]);
      } else {
        LaneBegins(PersonOf(p, s[n]), s[n]);
      }
    }
  }

  lemma LaneJoins(g: Group, x: Info)
    requires ThreadsAre(g) && x.kind != Task
    ensures ThreadsAre(g.(lanes := g.lanes + [x], threads := WithThread(g.threads, x.thread)))
  {
    var h := g.(lanes := g.lanes + [x], threads := WithThread(g.threads, x.thread));
    forall t
      ensures t in h.threads <==> exists k :: 0 <= k < |h.lanes| && h.lanes[k].thread == Some(t)
    {
      assert h.lanes[|g.lanes|] == x;
      if exists k :: 0 <= k < |g.lanes| && g.lanes[k].thread == Some(t) {
        var k :| 0 <= k < |g.lanes| && g.lanes[k].thread == Some(t);
        assert h.lanes[k] == g.lanes[k];
      }
    }
  }

  lemma LaneBegins(who: Person, x: Info)
    requires x.kind != Task
    ensures ThreadsAre(Group(who, [x], WithThread([], x.thread)))
  {
    var g := Group(who, [x], WithThread([], x.thread));
    assert g.lanes[0] == x;
  }

  /** A kind once at most: no two lanes of it. */
  lemma {:induction false} OneOrNone(lanes: seq<Info>, kind: Kind)
    ensures |OfKind(lanes, kind)| == 0 <==> forall k :: 0 <= k < |lanes| ==> lanes[k].kind != kind
    ensures |OfKind(lanes, kind)| <= 1 <==> forall j, k :: 0 <= j < k < |lanes| && lanes[j].kind == kind ==> lanes[k].kind != kind
  {
    if lanes != [] {
      var rest := lanes[1..];
      OneOrNone(rest, kind);
      assert forall k :: 0 <= k < |rest| ==> rest[k] == lanes[k + 1];
      if lanes[0].kind == kind {
        if |OfKind(rest, kind)| != 0 {
          var k :| 0 <= k < |rest| && rest[k].kind == kind;
          assert lanes[k + 1].kind == kind;
        }
      } else {
        if !(forall j, k :: 0 <= j < k < |rest| && rest[j].kind == kind ==> rest[k].kind != kind) {
          var j, k :| 0 <= j < k < |rest| && rest[j].kind == kind && rest[k].kind == kind;
          assert lanes[j + 1].kind == kind && lanes[k + 1].kind == kind;
        }
      }
    }
  }

  lemma AllTheSame<T>(s: seq<T>, t: T)
    requires NoRepeats(s) && s != [] && forall i :: 0 <= i < |s| ==> s[i] == t
    ensures s == [t]
  {
    TwoDiffer(s);
  }

  lemma TwoDiffer<T>(s: seq<T>)
    requires NoRepeats(s)
    ensures |s| > 1 ==> s[0] != s[1]
  {
  }

  lemma InPlaceIs(p: Rules, g: Group)
    requires ThreadsAre(g)
    ensures StaysInPlace(g) <==> exists t :: AsKept(g, t)
    ensures forall t :: AsKept(g, t) ==> g.threads == [t] && ThreadOf(p, g) == t
  {
    OneOrNone(g.lanes, Call);
    OneOrNone(g.lanes, Sms);
    forall t | AsKept(g, t)
      ensures g.threads == [t] && ThreadOf(p, g) == t && StaysInPlace(g)
    {
      assert g.lanes[0].thread == Some(t);
      assert t in g.threads;
      forall i | 0 <= i < |g.threads|
        ensures g.threads[i] == t
      {
        assert g.threads[i] in g.threads;
        var k :| 0 <= k < |g.lanes| && g.lanes[k].thread == Some(g.threads[i]);
      }
      AllTheSame(g.threads, t);
    }
    if StaysInPlace(g) {
      forall k | 0 <= k < |g.lanes|
        ensures g.lanes[k].thread == Some(g.threads[0])
      {
        assert g.lanes[k].thread.value in g.threads;
      }
      assert AsKept(g, g.threads[0]);
    }
  }

  /** What a conversation's file is. */
  lemma FileOfGroup(p: Rules, stored: Stored, merge: Merge, i: nat)
    requires
      var groups := Groups(p, NotTasks(stored.infos));
      i < |groups| && Peopled(groups) && NoCollision(p, groups)
    ensures
      var g, files := Groups(p, NotTasks(stored.infos))[i], RegroupAll(p, stored, merge).kept.files;
      ThreadsAre(g) && ThreadOf(p, g) in files && files[ThreadOf(p, g)] == ConversationOf(p, g, stored.files, merge)
  {
    hide LaneFor, StaysInPlace, ConversationOf, StaleFiles, ThreadOf, WithTasks, MergeCallers, NoCollision, ThreadsAre, Groups, NotTasks, Sorted;
    var others := NotTasks(stored.infos);
    var groups := Groups(p, others);
    GroupsPeopled(p, others);
    GroupThreads(p, others);
    var callers := MergeCallers(p, stored.callers);
    var tasks := WithTasks(OfKind(stored.infos, Task), stored.files);
    FilesAre(p, Regrouped(Stored(tasks.0, tasks.1, callers.notes), callers.changed, [], {}), groups, stored.files, merge);
  }

  /**
   * A conversation merged has each turn as often as its lanes bring it: all of
   * every file that was a lane's own, and of every conversation's the turns
   * marked with the kind of a lane of it, and those not marked when it has one.
   */
  lemma MergedTurns(p: Rules, stored: Stored, merge: Merge, i: nat, n: nat)
    requires
      var groups := Groups(p, NotTasks(stored.infos));
      i < |groups| && Peopled(groups) && NoCollision(p, groups) && forall t :: !AsKept(groups[i], t)
    requires KeepsTurns(merge)
    ensures
      var g, files := Groups(p, NotTasks(stored.infos))[i], RegroupAll(p, stored, merge).kept.files;
      && ThreadOf(p, g) in files
      && multiset(Ids(files[ThreadOf(p, g)]))[n] == BringAll(g.lanes, |g.lanes|, stored.files, n)
  {
    hide AsKept, ThreadsAre, NoCollision, RegroupAll, PartsOf, BringAll, Brings, ThreadOf, Groups, StaysInPlace, OfKind, NotTasks;
    var g := Groups(p, NotTasks(stored.infos))[i];
    FileOfGroup(p, stored, merge, i);
    InPlaceIs(p, g);
    NoTaskLanes(g);
    PartsBring(g, |g.lanes|, stored.files, n);
    assert g.lanes[..|g.lanes|] == g.lanes;
    var calls, texts := PartsOf(g, OfKind(g.lanes, Call), stored.files), PartsOf(g, OfKind(g.lanes, Sms), stored.files);
    InJoined(calls, texts, n);
  }

  lemma NoTaskLanes(g: Group)
    requires ThreadsAre(g)
    ensures g.lanes != [] && forall j :: 0 <= j < |g.lanes| ==> g.lanes[j].kind != Task
  {
  }

  /** One kept as it was keeps its turns, in their order; and of its lone lane those not marked are marked as that. */
  lemma KeptTurns(p: Rules, stored: Stored, merge: Merge, i: nat, thread: string)
    requires
      var groups := Groups(p, NotTasks(stored.infos));
      i < |groups| && Peopled(groups) && NoCollision(p, groups) && AsKept(groups[i], thread)
    ensures
      var g, files := Groups(p, NotTasks(stored.infos))[i], RegroupAll(p, stored, merge).kept.files;
      && ThreadOf(p, g) == thread && thread in files
      && var was, now := FileTurns(stored.files, thread), files[thread];
         |now| == |was| && g.lanes != [] && forall k :: 0 <= k < |was| ==>
           now[k] == if |g.lanes| == 1 && was[k].via.None? then was[k].(via := Some(g.lanes[0].kind)) else was[k]
  {
    hide AsKept, ThreadsAre, NoCollision, RegroupAll, PartsOf, ThreadOf, Groups, StaysInPlace, OfKind, NotTasks;
    var g := Groups(p, NotTasks(stored.infos))[i];
    FileOfGroup(p, stored, merge, i);
    InPlaceIs(p, g);
    NoTaskLanes(g);
  }

  // ---- A lane's own file -----------------------------------------------------------------------------

  /** No turn is in two places of the files. */
  ghost predicate TurnsOnce(files: Files) {
    forall f, g, i, j :: f in files && g in files && 0 <= i < |files[f]| && 0 <= j < |files[g]| && files[f][i].id == files[g][j].id ==> f == g && i == j
  }

  /** A file of a lane's own is no other lane's. */
  ghost predicate OwnFiles(s: seq<Info>) {
    forall i, j :: 0 <= i < |s| && 0 <= j < |s| && i != j && s[i].thread.None? ==> FileOf(s[j]) != s[i].id
  }

  ghost predicate HasTurn(turns: seq<Turn>, n: nat) {
    exists i :: 0 <= i < |turns| && turns[i].id == n
  }

  lemma {:induction false} NoneMarked(turns: seq<Turn>, kind: Kind, unmarked: bool, n: nat)
    requires !HasTurn(turns, n)
    ensures Marked(turns, kind, unmarked, n) == 0 && multiset(Ids(turns))[n] == 0
  {
    forall i | 0 <= i < |Ids(turns)|
      ensures Ids(turns)[i] != n
    {
      assert turns[i].id != n;
    }
    assert n !in Ids(turns);
    if turns != [] {
      assert forall i :: 0 <= i < |turns[1..]| ==> turns[1..][i] == turns[i + 1];
      NoneMarked(turns[1..], kind, unmarked, n);
    }
  }

  lemma {:induction false} OneOf(ids: seq<nat>, i: nat)
    requires i < |ids| && forall j :: 0 <= j < |ids| && j != i ==> ids[j] != ids[i]
    ensures multiset(ids)[ids[i]] == 1
  {
    assert ids == ids[..i] + [ids[i]] + ids[i + 1..];
    assert ids[i] !in ids[..i] && ids[i] !in ids[i + 1..];
  }

  /** A turn of one file is in no other. */
  lemma InNoOther(files: Files, f: string, i: nat, g: string)
    requires TurnsOnce(files) && i < |FileTurns(files, f)| && f != g
    ensures !HasTurn(FileTurns(files, g), FileTurns(files, f)[i].id)
  {
  }

  lemma InItsFile(files: Files, f: string, i: nat)
    requires TurnsOnce(files) && i < |FileTurns(files, f)|
    ensures multiset(Ids(FileTurns(files, f)))[FileTurns(files, f)[i].id] == 1
  {
    OneOf(Ids(FileTurns(files, f)), i);
  }

  /** The first `k` lanes bring a turn of that file once when the lane whose it is is among them. */
  lemma {:induction false} BroughtOnce(lanes: seq<Info>, k: nat, files: Files, file: string, m: nat, at: nat)
    requires k <= |lanes| && TurnsOnce(files) && m < |FileTurns(files, file)|
    requires at < |lanes| ==> lanes[at].thread == None && lanes[at].id == file
    requires forall j :: 0 <= j < |lanes| && j != at ==> FileOf(lanes[j]) != file
    ensures BringAll(lanes, k, files, FileTurns(files, file)[m].id) == if at < k then 1 else 0
  {
    hide Brings, TurnsOnce;
    if k > 0 {
      BroughtOnce(lanes, k - 1, files, file, m, at);
      BroughtByOne(lanes, k - 1, files, file, m, k - 1 == at);
    }
  }

  lemma BroughtByOne(lanes: seq<Info>, k: nat, files: Files, file: string, m: nat, its: bool)
    requires k < |lanes| && TurnsOnce(files) && m < |FileTurns(files, file)|
    requires if its then lanes[k].thread == None && lanes[k].id == file else FileOf(lanes[k]) != file
    ensures Brings(lanes, k, files, FileTurns(files, file)[m].id) == if its then 1 else 0
  {
    hide TurnsOnce, AloneIn, Marked, HasTurn;
    if its {
      InItsFile(files, file, m);
    } else {
      var other := FileOf(lanes[k]);
      InNoOther(files, file, m, other);
      NoneMarked(FileTurns(files, other), lanes[k].kind, AloneIn(lanes, k), FileTurns(files, file)[m].id);
    }
  }

  /** What is once in all groups is in one, once. */
  lemma {:induction false} OnceInGroups(groups: seq<Group>, x: Info) returns (i: nat)
    requires multiset(Flat(groups))[x] == 1
    ensures i < |groups| && multiset(groups[i].lanes)[x] == 1
    ensures forall j :: 0 <= j < |groups| && j != i ==> x !in groups[j].lanes
    decreases |groups|
  {
    var n := |groups| - 1;
    assert multiset(Flat(groups)) == multiset(Flat(groups[..n])) + multiset(groups[n].lanes);
    if x in groups[n].lanes {
      i := n;
      NotBefore(groups[..n], x);
      forall j | 0 <= j < n
        ensures x !in groups[j].lanes
      {
        assert groups[..n][j] == groups[j];
      }
    } else {
      assert multiset(groups[n].lanes)[x] == 0;
      i := OnceInGroups(groups[..n], x);
      forall j | 0 <= j < |groups| && j != i
        ensures x !in groups[j].lanes
      {
        if j < n {
          assert groups[..n][j] == groups[j];
        }
      }
    }
  }

  lemma {:induction false} NotBefore(groups: seq<Group>, x: Info)
    requires multiset(Flat(groups))[x] == 0
    ensures forall j :: 0 <= j < |groups| ==> x !in groups[j].lanes
    decreases |groups|
  {
    if groups != [] {
      var n := |groups| - 1;
      assert multiset(Flat(groups)) == multiset(Flat(groups[..n])) + multiset(groups[n].lanes);
      assert x !in multiset(groups[n].lanes);
      NotBefore(groups[..n], x);
      forall j | 0 <= j < |groups|
        ensures x !in groups[j].lanes
      {
        if j < n {
          assert groups[..n][j] == groups[j];
        }
      }
    }
  }

  lemma {:induction false} GroupLanesAre(p: Rules, s: seq<Info>, i: nat, y: Info)
    requires i < |Groups(p, s)| && y in Groups(p, s)[i].lanes
    ensures y in s
  {
    GroupsHaveAll(p, s);
    var groups := Groups(p, s);
    if y !in s {
      assert y !in multiset(s);
      NotBefore(groups, y);
      assert false;
    }
  }

  /** A conversation's file, after regrouping. */
  ghost function FileAfter(p: Rules, stored: Stored, merge: Merge, i: nat): seq<Turn>
    requires
      var groups := Groups(p, NotTasks(stored.infos));
      i < |groups| && Peopled(groups)
  {
    FileTurns(RegroupAll(p, stored, merge).kept.files, ThreadOf(p, Groups(p, NotTasks(stored.infos))[i]))
  }

  /**
   * Every turn of every call or text lane with a file of its own is in one
   * conversation after regrouping, once, that of the group its lane is in, and
   * in no other.
   */
  lemma OwnTurnsKept(p: Rules, stored: Stored, merge: Merge, k: nat, m: nat) returns (i: nat)
    requires
      var others := NotTasks(stored.infos);
      && k < |others| && others[k].thread == None && m < |FileTurns(stored.files, others[k].id)|
      && OwnFiles(others) && TurnsOnce(stored.files) && Peopled(Groups(p, others)) && NoCollision(p, Groups(p, others)) && KeepsTurns(merge)
    ensures
      var others := NotTasks(stored.infos);
      var n := FileTurns(stored.files, others[k].id)[m].id;
      && i < |Groups(p, others)| && others[k] in Groups(p, others)[i].lanes
      && multiset(Ids(FileAfter(p, stored, merge, i)))[n] == 1
      && forall j :: 0 <= j < |Groups(p, others)| && j != i ==> multiset(Ids(FileAfter(p, stored, merge, j)))[n] == 0
  {
    hide RegroupAll, NoCollision, KeepsTurns, Groups, NotTasks, ThreadOf, TurnsOnce, Brings, BringAll, AsKept;
    var others := NotTasks(stored.infos);
    var groups, x := Groups(p, others), others[k];
    GroupsHaveAll(p, others);
    OnceOfOthers(others, k);
    i := OnceInGroups(groups, x);
    forall j | 0 <= j < |groups|
      ensures multiset(Ids(FileAfter(p, stored, merge, j)))[FileTurns(stored.files, x.id)[m].id] == if j == i then 1 else 0
    {
      InGroup(p, stored, merge, k, m, j);
    }
  }

  lemma OnceOfOthers(s: seq<Info>, k: nat)
    requires k < |s| && s[k].thread == None && OwnFiles(s)
    ensures multiset(s)[s[k]] == 1
  {
    assert s == s[..k] + [s[k]] + s[k + 1..];
    assert forall j :: 0 <= j < |s| && j != k ==> FileOf(s[j]) != s[k].id;
    assert s[k] !in s[..k] && s[k] !in s[k + 1..];
  }

  /** In each conversation, as often as its group has the lane. */
  lemma InGroup(p: Rules, stored: Stored, merge: Merge, k: nat, m: nat, j: nat)
    requires
      var others := NotTasks(stored.infos);
      && k < |others| && others[k].thread == None && m < |FileTurns(stored.files, others[k].id)|
      && OwnFiles(others) && TurnsOnce(stored.files) && Peopled(Groups(p, others)) && NoCollision(p, Groups(p, others)) && KeepsTurns(merge)
      && j < |Groups(p, others)| && multiset(Groups(p, others)[j].lanes)[others[k]] <= 1
    ensures
      var others := NotTasks(stored.infos);
      multiset(Ids(FileAfter(p, stored, merge, j)))[FileTurns(stored.files, others[k].id)[m].id] == multiset(Groups(p, others)[j].lanes)[others[k]]
  {
    hide RegroupAll, NoCollision, KeepsTurns, Groups, NotTasks, ThreadOf, TurnsOnce, Brings, BringAll;
    var others := NotTasks(stored.infos);
    var g, x := Groups(p, others)[j], others[k];
    var n := FileTurns(stored.files, x.id)[m].id;
    var at := LaneAt(g.lanes, x);
    forall l | 0 <= l < |g.lanes| && l != at
      ensures FileOf(g.lanes[l]) != x.id
    {
      assert g.lanes[l] in g.lanes;
      GroupLanesAre(p, others, j, g.lanes[l]);
      var q :| 0 <= q < |others| && others[q] == g.lanes[l];
      assert q != k;
    }
    if t :| AsKept(g, t) {
      KeptTurns(p, stored, merge, j, t);
      KeptHasNot(g, t, x, at, stored.files, FileAfter(p, stored, merge, j), m);
    } else {
      hide AsKept;
      MergedTurns(p, stored, merge, j, n);
      BroughtOnce(g.lanes, |g.lanes|, stored.files, x.id, m, at);
    }
  }

  lemma KeptHasNot(g: Group, t: string, x: Info, at: nat, files: Files, after: seq<Turn>, m: nat)
    requires AsKept(g, t) && g.lanes != [] && x.thread == None && TurnsOnce(files) && m < |FileTurns(files, x.id)|
    requires at < |g.lanes| ==> g.lanes[at] == x
    requires forall l :: 0 <= l < |g.lanes| && l != at ==> FileOf(g.lanes[l]) != x.id
    requires at == |g.lanes| ==> x !in g.lanes
    requires at <= |g.lanes|
    requires |after| == |FileTurns(files, t)| && forall k :: 0 <= k < |after| ==> after[k].id == FileTurns(files, t)[k].id
    ensures multiset(Ids(after))[FileTurns(files, x.id)[m].id] == 0 == multiset(g.lanes)[x]
  {
    assert g.lanes[0].thread == Some(t) && at != 0;
    assert at == |g.lanes|;
    InNoOther(files, x.id, m, t);
    assert Ids(after) == Ids(FileTurns(files, t));
    NoneMarked(FileTurns(files, t), Call, false, FileTurns(files, x.id)[m].id);
  }

  /** Where the lane is among these (at their end: nowhere), it being there once at most. */
  lemma {:induction false} LaneAt(lanes: seq<Info>, x: Info) returns (at: nat)
    requires multiset(lanes)[x] <= 1
    ensures at <= |lanes| && (at < |lanes| ==> lanes[at] == x) && (at == |lanes| ==> x !in lanes)
    ensures multiset(lanes)[x] == if at < |lanes| then 1 else 0
    ensures forall l :: 0 <= l < |lanes| && l != at ==> lanes[l] != x
  {
    if x in lanes {
      at :| 0 <= at < |lanes| && lanes[at] == x;
      assert lanes == lanes[..at] + [x] + lanes[at + 1..];
      assert multiset(lanes)[x] == multiset(lanes[..at])[x] + 1 + multiset(lanes[at + 1..])[x];
      assert x !in multiset(lanes[..at]) && x !in multiset(lanes[at + 1..]);
      assert x !in lanes[..at] && x !in lanes[at + 1..];
      forall l | 0 <= l < |lanes| && l != at
        ensures lanes[l] != x
      {
        assert if l < at then lanes[l] == lanes[..at][l] else lanes[l] == lanes[at + 1..][l - at - 1];
      }
    } else {
      at := |lanes|;
      assert x !in multiset(lanes);
    }
  }
}
