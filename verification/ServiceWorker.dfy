/**
 * The service worker's caches as one build takes over from another
 * (app/public/sw.js:36-100).
 */
module ServiceWorker {
  import opened Options
  import opened Subsequences

  type Name = string

  /** A cache: whether it holds anything, and when its worker took over (0: it did not, or wrote no record). */
  datatype Cache = Cache(name: Name, full: bool, at: nat)

  predicate HasCache(s: seq<Cache>, name: Name) {
    exists i :: 0 <= i < |s| && s[i].name == name
  }

  function NamesOf(s: seq<Cache>): (r: seq<Name>)
    ensures |r| == |s| && forall i :: 0 <= i < |s| ==> r[i] == s[i].name
  {
    seq(|s|, i requires 0 <= i < |s| => s[i].name)
  }

  /** Opened: made when there is none of the name. */
  function Opened(s: seq<Cache>, name: Name): seq<Cache> {
    if HasCache(s, name) then s else s + [Cache(name, false, 0)]
  }

  function Updated(s: seq<Cache>, name: Name, full: bool, at: Option<nat>): (r: seq<Cache>)
    ensures |r| == |s|
    ensures forall i :: 0 <= i < |s| ==> r[i] == Updated1(s[i], name, full, at)
  {
    seq(|s|, i requires 0 <= i < |s| => Updated1(s[i], name, full, at))
  }

  function Updated1(c: Cache, name: Name, full: bool, at: Option<nat>): Cache {
    if c.name == name then c.(full := c.full || full, at := if at.Some? then at.value else c.at) else c
  }

  function Without(s: seq<Cache>, drop: Name -> bool): (r: seq<Cache>)
    ensures forall i :: 0 <= i < |r| ==> !drop(r[i].name)
  {
    if s == [] then [] else (if drop(s[0].name) then [] else [s[0]]) + Without(s[1..], drop)
  }

  // ---- Installing and taking over -------------------------------------------------------------------

  /** `active` is the build running (none before the first). */
  datatype Site = Site(caches: seq<Cache>, active: Option<Name>)

  /** Whether an install fails: its files were not all fetched, and there is a build to keep running. */
  predicate Fails(s: Site, fetched: bool) {
    !fetched && s.active.Some?
  }

  function Install(s: Site, build: Name, fetched: bool): Site {
    var made := Opened(s.caches, build);
    if fetched then s.(caches := Updated(made, build, true, None))
    else if s.active.None? then s.(caches := made)
    else if !HasCache(s.caches, build) then s.(caches := Without(made, name => name == build))
    else s.(caches := made)
  }

  /** The caches of other builds of the app, the oldest first. */
  function OtherBuilds(s: seq<Cache>, build: Name, owned: Name -> bool): (r: seq<Cache>)
    ensures forall i :: 0 <= i < |r| ==> r[i].name != build && owned(r[i].name)
  {
    if s == [] then [] else (if s[0].name != build && owned(s[0].name) then [s[0]] else []) + OtherBuilds(s[1..], build, owned)
  }

  /** The last to take over of the first `n` (none: none of them did). */
  function LastToTakeOver(others: seq<Cache>, n: nat): (r: Option<nat>)
    requires n <= |others|
    ensures r.Some? ==> r.value < n && others[r.value].at > 0 && forall i :: 0 <= i < n ==> others[i].at <= others[r.value].at
    ensures r.Some? ==> forall i :: 0 <= i < r.value ==> others[i].at < others[r.value].at
    ensures r.None? ==> forall i :: 0 <= i < n ==> others[i].at == 0
  {
    if n == 0 then None
    else
      var before := LastToTakeOver(others, n - 1);
      if others[n - 1].at > (if before.Some? then others[before.value].at else 0) then Some(n - 1) else before
  }

  function NewestFull(others: seq<Cache>): Option<Name> {
    if others == [] then None
    else if others[|others| - 1].full || others[|others| - 1].at > 0 then Some(others[|others| - 1].name)
    else NewestFull(others[..|others| - 1])
  }

  /** The build that ran before: the last to take over; with no record of any, the newest whose cache holds anything. */
  function PreviousBuild(others: seq<Cache>): Option<Name> {
    var last := LastToTakeOver(others, |others|);
    if last.Some? then Some(others[last.value].name) else NewestFull(others)
  }

  /** The other builds' caches but the previous one's go. */
  function Goes(build: Name, previous: Option<Name>, owned: Name -> bool): Name -> bool {
    name => name != build && owned(name) && Some(name) != previous
  }

  function Activate(s: Site, build: Name, now: nat, owned: Name -> bool): Site {
    var previous := PreviousBuild(OtherBuilds(s.caches, build, owned));
    Site(Updated(Opened(Without(s.caches, Goes(build, previous, owned)), build), build, false, Some(now)), Some(build))
  }

  // ---- What is kept --------------------------------------------------------------------------------------

  /** The build running has its cache, which took over last: later than any other of the app's. */
  ghost predicate Kept(s: Site, last: nat, owned: Name -> bool) {
    && NoRepeats(NamesOf(s.caches))
    && (forall i :: 0 <= i < |s.caches| && owned(s.caches[i].name) ==> s.caches[i].at <= last)
    && (s.active.Some? ==>
      && owned(s.active.value) && last > 0
      && exists i :: 0 <= i < |s.caches| && s.caches[i].name == s.active.value && s.caches[i].at == last
           && forall j :: 0 <= j < |s.caches| && j != i && owned(s.caches[j].name) ==> s.caches[j].at < last)
  }

  lemma {:induction false} OthersAre(s: seq<Cache>, build: Name, owned: Name -> bool)
    ensures forall c :: c in OtherBuilds(s, build, owned) <==> c in s && c.name != build && owned(c.name)
  {
    if s != [] {
      OthersAre(s[1..], build, owned);
      assert s == [s[0]] + s[1..];
    }
  }

  /** While a build runs and another takes over, the previous build is the one running. */
  lemma PreviousIsActive(s: Site, last: nat, build: Name, owned: Name -> bool)
    requires Kept(s, last, owned) && s.active.Some? && s.active.value != build
    ensures PreviousBuild(OtherBuilds(s.caches, build, owned)) == s.active
  {
    var others := OtherBuilds(s.caches, build, owned);
    OthersAre(s.caches, build, owned);
    var i :| 0 <= i < |s.caches| && s.caches[i].name == s.active.value && s.caches[i].at == last
      && forall j :: 0 <= j < |s.caches| && j != i && owned(s.caches[j].name) ==> s.caches[j].at < last;
    var mine := s.caches[i];
    assert mine in others;
    var newest := LastToTakeOver(others, |others|);
    var k :| 0 <= k < |others| && others[k] == mine;
    assert newest.Some? && others[newest.value].at >= last;
    assert others[newest.value] in others;
    var j :| 0 <= j < |s.caches| && s.caches[j] == others[newest.value];
    assert j == i;
  }

  // ---- Which build ran before ------------------------------------------------------------------------------

  /** With any record, the first of the latest; with none, the last whose cache holds anything. */
  ghost predicate RanBefore(others: seq<Cache>, i: nat)
    requires i < |others|
  {
    if exists j :: 0 <= j < |others| && others[j].at > 0 then
      others[i].at > 0 && forall j :: 0 <= j < |others| ==> others[j].at <= others[i].at && (j < i ==> others[j].at < others[i].at)
    else others[i].full && forall j :: i < j < |others| ==> !others[j].full
  }

  /** The build of this name ran before. */
  ghost predicate IsPrevious(others: seq<Cache>, n: Name) {
    exists i: nat :: i < |others| && others[i].name == n && RanBefore(others, i)
  }

  lemma {:induction false} NewestIs(others: seq<Cache>) returns (i: nat)
    requires forall j :: 0 <= j < |others| ==> others[j].at == 0
    ensures NewestFull(others).None? ==> forall j :: 0 <= j < |others| ==> !others[j].full
    ensures NewestFull(others).Some? ==>
      i < |others| && NewestFull(others) == Some(others[i].name) && others[i].full && forall j :: i < j < |others| ==> !others[j].full
    decreases |others|
  {
    i := 0;
    if others != [] {
      var n := |others| - 1;
      if others[n].full {
        i := n;
      } else {
        i := NewestIs(others[..n]);
      }
    }
  }

  /** The previous build found is the one that ran before; none is exactly when no cache has a record or anything in it. */
  lemma PreviousIs(others: seq<Cache>)
    ensures forall n :: PreviousBuild(others) == Some(n) <==> IsPrevious(others, n)
    ensures PreviousBuild(others).None? <==> forall j :: 0 <= j < |others| ==> others[j].at == 0 && !others[j].full
  {
    var last := LastToTakeOver(others, |others|);
    if last.Some? {
      TheOneBefore(others, last.value);
    } else {
      var i := NewestIs(others);
      if NewestFull(others).Some? {
        TheOneBefore(others, i);
      }
    }
  }

  /** No two ran before. */
  lemma TheOneBefore(others: seq<Cache>, i: nat)
    requires i < |others| && RanBefore(others, i)
    ensures forall n :: IsPrevious(others, n) <==> n == others[i].name
  {
    forall j: nat | j < |others| && RanBefore(others, j)
      ensures j == i
    {
    }
  }

  lemma {:induction false} WithoutHas(s: seq<Cache>, drop: Name -> bool)
    ensures forall c :: c in Without(s, drop) <==> c in s && !drop(c.name)
    ensures NoRepeats(NamesOf(s)) ==> NoRepeats(NamesOf(Without(s, drop)))
  {
    if s != [] {
      var rest := s[1..];
      WithoutHas(rest, drop);
      assert s == [s[0]] + rest;
      if NoRepeats(NamesOf(s)) {
        RestOnce(s);
        var left := Without(rest, drop);
        forall i | 0 <= i < |left|
          ensures left[i].name != s[0].name
        {
          assert left[i] in rest;
          var k :| 0 <= k < |rest| && rest[k] == left[i];
          assert NamesOf(s)[k + 1] == left[i].name && NamesOf(s)[0] == s[0].name;
        }
        FirstOnce(s[0], left);
      }
    }
  }

  lemma RestOnce(s: seq<Cache>)
    requires s != [] && NoRepeats(NamesOf(s))
    ensures NoRepeats(NamesOf(s[1..]))
  {
    assert forall i :: 0 <= i < |s| - 1 ==> NamesOf(s[1..])[i] == NamesOf(s)[i + 1];
  }

  lemma FirstOnce(c: Cache, s: seq<Cache>)
    requires NoRepeats(NamesOf(s)) && forall i :: 0 <= i < |s| ==> s[i].name != c.name
    ensures NoRepeats(NamesOf([c] + s))
  {
    assert forall i :: 0 < i <= |s| ==> NamesOf([c] + s)[i] == NamesOf(s)[i - 1];
  }

  lemma OpenedOnce(s: seq<Cache>, name: Name)
    requires NoRepeats(NamesOf(s))
    ensures NoRepeats(NamesOf(Opened(s, name)))
    ensures HasCache(Opened(s, name), name)
    ensures forall c :: c in Opened(s, name) <==> c in s || (!HasCache(s, name) && c == Cache(name, false, 0))
  {
    var r := Opened(s, name);
    if !HasCache(s, name) {
      assert forall i :: 0 <= i < |s| ==> NamesOf(r)[i] == NamesOf(s)[i];
      assert r[|s|].name == name;
    }
  }

  ghost function OthersOf(s: seq<Cache>, owned: Name -> bool): set<Cache> {
    set i | 0 <= i < |s| && !owned(s[i].name) :: s[i]
  }

  /** A failed upgrade leaves the caches as they were. */
  lemma FailedInstallKeeps(s: Site, build: Name)
    requires s.active.Some? && NoRepeats(NamesOf(s.caches))
    ensures Install(s, build, false) == s
  {
    if !HasCache(s.caches, build) {
      DroppedAgain(s.caches, build);
    }
  }

  lemma {:induction false} DroppedAgain(s: seq<Cache>, build: Name)
    requires !HasCache(s, build)
    ensures Without(s + [Cache(build, false, 0)], name => name == build) == s
  {
    if s == [] {
      assert s + [Cache(build, false, 0)] == [Cache(build, false, 0)];
    } else {
      assert (s + [Cache(build, false, 0)])[1..] == s[1..] + [Cache(build, false, 0)];
      forall i | 0 <= i < |s[1..]|
        ensures s[1..][i].name != build
      {
        assert s[i + 1].name != build;
      }
      assert s[0].name != build;
      DroppedAgain(s[1..], build);
    }
  }

  /** An install that fetched its files fills the build's cache, with the record it had, and leaves the others. */
  lemma FetchedInstallIs(s: Site, build: Name, c: Cache)
    requires NoRepeats(NamesOf(s.caches))
    ensures Install(s, build, true).active == s.active
    ensures c.name != build ==> (c in Install(s, build, true).caches <==> c in s.caches)
    ensures c in s.caches && c.name == build ==> c.(full := true) in Install(s, build, true).caches
    ensures HasCache(Install(s, build, true).caches, build)
    ensures c in Install(s, build, true).caches && c.name == build ==> c.full && (c.at == 0 || exists was :: was in s.caches && was.name == build && was.at == c.at)
  {
    var made := Opened(s.caches, build);
    var r := Updated(made, build, true, None);
    OpenedOnce(s.caches, build);
    var k :| 0 <= k < |made| && made[k].name == build;
    assert r[k].name == build;
    if c in made {
      var i :| 0 <= i < |made| && made[i] == c;
      assert r[i] in r;
    }
    if c in r {
      var i :| 0 <= i < |r| && r[i] == c;
      assert made[i] in made;
    }
  }

  /** The first build's install goes on without them, with a cache that holds nothing more than it did. */
  lemma UnfetchedFirstInstallIs(s: Site, build: Name, c: Cache)
    requires NoRepeats(NamesOf(s.caches)) && s.active.None?
    ensures Install(s, build, false).active == None
    ensures c in Install(s, build, false).caches <==> c in s.caches || (!HasCache(s.caches, build) && c == Cache(build, false, 0))
  {
    OpenedOnce(s.caches, build);
  }

  /** A build that takes over is the one running, its cache stamped; the caches left are as they were. */
  lemma TakenOverIs(s: Site, build: Name, now: nat, owned: Name -> bool, c: Cache)
    requires NoRepeats(NamesOf(s.caches)) && c in Activate(s, build, now, owned).caches
    ensures Activate(s, build, now, owned).active == Some(build)
    ensures c.name != build ==> c in s.caches
    ensures c.name == build ==> c.at == now && (c.full ==> exists was :: was in s.caches && was.name == build && was.full)
  {
    hide PreviousBuild, OtherBuilds, Without;
    var drop := Goes(build, PreviousBuild(OtherBuilds(s.caches, build, owned)), owned);
    var left := Without(s.caches, drop);
    var made := Opened(left, build);
    var r := Updated(made, build, false, Some(now));
    WithoutHas(s.caches, drop);
    OpenedOnce(left, build);
    var i :| 0 <= i < |r| && r[i] == c;
    assert made[i] in made;
  }

  lemma InstallKeeps(s: Site, last: nat, build: Name, fetched: bool, owned: Name -> bool)
    requires Kept(s, last, owned)
    ensures Kept(Install(s, build, fetched), last, owned)
    ensures OthersOf(Install(s, build, fetched).caches, owned) == OthersOf(s.caches, owned) || !owned(build)
  {
    if Fails(s, fetched) {
      FailedInstallKeeps(s, build);
    } else {
      OpenedKeeps(s, last, build, owned);
      if fetched {
        FilledKeeps(s.(caches := Opened(s.caches, build)), last, build, owned);
      }
    }
  }

  lemma OpenedKeeps(s: Site, last: nat, build: Name, owned: Name -> bool)
    requires Kept(s, last, owned)
    ensures Kept(s.(caches := Opened(s.caches, build)), last, owned)
    ensures OthersOf(Opened(s.caches, build), owned) == OthersOf(s.caches, owned) || !owned(build)
  {
    OpenedOnce(s.caches, build);
    var r := Opened(s.caches, build);
    assert forall i :: 0 <= i < |s.caches| ==> r[i] == s.caches[i];
    if s.active.Some? {
      var i :| 0 <= i < |s.caches| && s.caches[i].name == s.active.value && s.caches[i].at == last
        && forall j :: 0 <= j < |s.caches| && j != i && owned(s.caches[j].name) ==> s.caches[j].at < last;
      assert r[i].name == s.active.value && r[i].at == last;
    }
  }

  lemma FilledKeeps(s: Site, last: nat, build: Name, owned: Name -> bool)
    requires Kept(s, last, owned)
    ensures Kept(s.(caches := Updated(s.caches, build, true, None)), last, owned)
    ensures OthersOf(Updated(s.caches, build, true, None), owned) == OthersOf(s.caches, owned) || !owned(build)
  {
    var r := Updated(s.caches, build, true, None);
    assert NamesOf(r) == NamesOf(s.caches);
    if s.active.Some? {
      var i :| 0 <= i < |s.caches| && s.caches[i].name == s.active.value && s.caches[i].at == last
        && forall j :: 0 <= j < |s.caches| && j != i && owned(s.caches[j].name) ==> s.caches[j].at < last;
      assert r[i].name == s.active.value && r[i].at == last;
    }
    if owned(build) {
      forall c
        ensures c in OthersOf(r, owned) <==> c in OthersOf(s.caches, owned)
      {
        if c in OthersOf(r, owned) {
          var i :| 0 <= i < |r| && !owned(r[i].name) && r[i] == c;
          assert s.caches[i] == c;
        }
        if c in OthersOf(s.caches, owned) {
          var i :| 0 <= i < |s.caches| && !owned(s.caches[i].name) && s.caches[i] == c;
          assert r[i] == c;
        }
      }
    }
  }

  /** Who is left of the app's once others go: the build taking over, and the previous one. */
  lemma LeftAre(s: seq<Cache>, build: Name, previous: Option<Name>, owned: Name -> bool)
    requires NoRepeats(NamesOf(s))
    ensures
      var left := Without(s, Goes(build, previous, owned));
      && NoRepeats(NamesOf(left))
      && (forall c :: c in left <==> c in s && (c.name == build || !owned(c.name) || Some(c.name) == previous))
  {
    WithoutHas(s, Goes(build, previous, owned));
  }

  lemma TakenOver(s: Site, last: nat, build: Name, now: nat, owned: Name -> bool)
    requires Kept(s, last, owned) && owned(build) && now > last
    ensures Kept(Activate(s, build, now, owned), now, owned)
    ensures forall c: Cache :: !owned(c.name) ==> (c in Activate(s, build, now, owned).caches <==> c in s.caches)
    ensures forall n :: owned(n) ==> (HasCache(Activate(s, build, now, owned).caches, n) <==>
      n == build || (HasCache(s.caches, n) && Some(n) == PreviousBuild(OtherBuilds(s.caches, build, owned))))
  {
    var previous := PreviousBuild(OtherBuilds(s.caches, build, owned));
    var left := Without(s.caches, Goes(build, previous, owned));
    var made := Opened(left, build);
    var to := Updated(made, build, false, Some(now));
    hide PreviousBuild, OtherBuilds, Goes, Without;
    LeftAre(s.caches, build, previous, owned);
    OpenedOnce(left, build);
    assert NamesOf(to) == NamesOf(made);
    StampedLast(s, last, left, build, now, owned);
    forall c: Cache | !owned(c.name)
      ensures c in to <==> c in s.caches
    {
      UpdatedHas(made, build, now, c);
    }
    forall n | owned(n)
      ensures HasCache(to, n) <==> n == build || (HasCache(s.caches, n) && Some(n) == previous)
    {
      NamesLeft(s.caches, left, build, previous, now, owned, n);
    }
  }

  lemma UpdatedHas(s: seq<Cache>, build: Name, now: nat, c: Cache)
    requires c.name != build
    ensures c in Updated(s, build, false, Some(now)) <==> c in s
  {
    var r := Updated(s, build, false, Some(now));
    if c in r {
      var i :| 0 <= i < |r| && r[i] == c;
      assert s[i] == c;
    }
    if c in s {
      var i :| 0 <= i < |s| && s[i] == c;
      assert r[i] == c;
    }
  }

  lemma StampedLast(s: Site, last: nat, left: seq<Cache>, build: Name, now: nat, owned: Name -> bool)
    requires Kept(s, last, owned) && owned(build) && now > last && NoRepeats(NamesOf(Opened(left, build)))
    requires forall c :: c in left ==> c in s.caches
    ensures Kept(Site(Updated(Opened(left, build), build, false, Some(now)), Some(build)), now, owned)
  {
    var made := Opened(left, build);
    var to := Updated(made, build, false, Some(now));
    assert NamesOf(to) == NamesOf(made);
    assert HasCache(made, build) by {
      if !HasCache(left, build) {
        assert made[|left|].name == build;
      }
    }
    var i :| 0 <= i < |made| && made[i].name == build;
    forall j | 0 <= j < |to| && j != i && owned(to[j].name)
      ensures to[j].at < now
    {
      assert NamesOf(made)[j] != NamesOf(made)[i];
      assert to[j] == made[j] && made[j] in left;
      assert made[j] in s.caches;
    }
    assert to[i].name == build && to[i].at == now;
  }

  lemma NamesLeft(s: seq<Cache>, left: seq<Cache>, build: Name, previous: Option<Name>, now: nat, owned: Name -> bool, n: Name)
    requires owned(n) && forall c :: c in left <==> c in s && (c.name == build || !owned(c.name) || Some(c.name) == previous)
    ensures HasCache(Updated(Opened(left, build), build, false, Some(now)), n) <==> n == build || (HasCache(s, n) && Some(n) == previous)
  {
    var made := Opened(left, build);
    var to := Updated(made, build, false, Some(now));
    SameNames(made, build, now, n);
    OpenedNames(left, build, n);
    HasIn(left, n);
    HasIn(s, n);
  }

  lemma SameNames(s: seq<Cache>, build: Name, now: nat, n: Name)
    ensures HasCache(Updated(s, build, false, Some(now)), n) <==> HasCache(s, n)
  {
    var r := Updated(s, build, false, Some(now));
    if HasCache(s, n) {
      var i :| 0 <= i < |s| && s[i].name == n;
      assert r[i].name == n;
    }
    if HasCache(r, n) {
      var i :| 0 <= i < |r| && r[i].name == n;
      assert s[i].name == n;
    }
  }

  lemma OpenedNames(s: seq<Cache>, build: Name, n: Name)
    ensures HasCache(Opened(s, build), n) <==> HasCache(s, n) || n == build
  {
    var r := Opened(s, build);
    if HasCache(s, n) {
      var i :| 0 <= i < |s| && s[i].name == n;
      assert r[i].name == n;
    }
    if !HasCache(s, build) {
      assert r[|s|].name == build;
    }
  }

  lemma HasIn(s: seq<Cache>, n: Name)
    ensures HasCache(s, n) <==> exists c :: c in s && c.name == n
  {
    if HasCache(s, n) {
      var i :| 0 <= i < |s| && s[i].name == n;
      assert s[i] in s;
    }
  }

  // ---- Every run ---------------------------------------------------------------------------------------------

  datatype Step = Installs(build: Name, fetched: bool) | TakesOver(build: Name, at: nat)

  function Next(s: Site, step: Step, owned: Name -> bool): Site {
    match step
    case Installs(build, fetched) => Install(s, build, fetched)
    case TakesOver(build, at) => Activate(s, build, at, owned)
  }

  function LastAfter(last: nat, step: Step): nat {
    if step.TakesOver? then step.at else last
  }

  datatype Run = Run(sites: seq<Site>, lasts: seq<nat>, steps: seq<Step>)

  /** From caches of no build of the app's that has run: builds' own caches, each taking over later than the one before. */
  ghost predicate IsRun(r: Run, owned: Name -> bool) {
    && |r.sites| == |r.steps| + 1 == |r.lasts| && r.lasts[0] == 0
    && r.sites[0].active.None? && NoRepeats(NamesOf(r.sites[0].caches))
    && (forall i :: 0 <= i < |r.sites[0].caches| && owned(r.sites[0].caches[i].name) ==> r.sites[0].caches[i].at == 0)
    && forall i :: 0 <= i < |r.steps| ==>
      && r.sites[i + 1] == Next(r.sites[i], r.steps[i], owned) && r.lasts[i + 1] == LastAfter(r.lasts[i], r.steps[i])
      && owned(r.steps[i].build) && (r.steps[i].TakesOver? ==> r.steps[i].at > r.lasts[i])
  }

  lemma {:induction false} RunKeeps(r: Run, owned: Name -> bool, i: nat)
    requires IsRun(r, owned) && i < |r.sites|
    ensures Kept(r.sites[i], r.lasts[i], owned)
  {
    hide Kept, Install, Activate;
    if i == 0 {
      FirstKept(r.sites[0], owned);
    } else {
      RunKeeps(r, owned, i - 1);
      match r.steps[i - 1]
      case Installs(build, fetched) => InstallKeeps(r.sites[i - 1], r.lasts[i - 1], build, fetched, owned);
      case TakesOver(build, at) => TakenOver(r.sites[i - 1], r.lasts[i - 1], build, at, owned);
    }
  }

  lemma FirstKept(s: Site, owned: Name -> bool)
    requires s.active.None? && NoRepeats(NamesOf(s.caches))
    requires forall i :: 0 <= i < |s.caches| && owned(s.caches[i].name) ==> s.caches[i].at == 0
    ensures Kept(s, 0, owned)
  {
  }

  /** The running build's cache was stamped after every other of the app's. */
  ghost predicate LastStamped(s: Site, owned: Name -> bool)
    requires s.active.Some?
  {
    exists k :: 0 <= k < |s.caches| && s.caches[k].name == s.active.value
      && forall j :: 0 <= j < |s.caches| && j != k && owned(s.caches[j].name) ==> s.caches[j].at < s.caches[k].at
  }

  lemma KeptIsStamped(s: Site, last: nat, owned: Name -> bool)
    requires Kept(s, last, owned) && s.active.Some?
    ensures HasCache(s.caches, s.active.value) && LastStamped(s, owned)
  {
  }

  /**
   * In every run of installs, failing or not, and of builds taking over: the
   * build running has its cache, the last stamped; once another takes over the
   * app's caches are the new one's and that of the build that ran just before
   * (the first time: the last by its record, or the newest that holds anything);
   * a failed upgrade leaves every cache as it was; and no one else's is touched.
   */
  lemma HandedOver(r: Run, owned: Name -> bool, i: nat)
    requires IsRun(r, owned) && i < |r.steps|
    ensures r.sites[i].active.Some? ==> HasCache(r.sites[i].caches, r.sites[i].active.value) && LastStamped(r.sites[i], owned)
    ensures r.steps[i].Installs? && !r.steps[i].fetched && r.sites[i].active.Some? ==> r.sites[i + 1] == r.sites[i]
    ensures r.steps[i].TakesOver? ==>
      forall n :: owned(n) ==> (HasCache(r.sites[i + 1].caches, n) <==>
        n == r.steps[i].build || IsPrevious(OtherBuilds(r.sites[i].caches, r.steps[i].build, owned), n))
    ensures r.steps[i].TakesOver? && r.sites[i].active.Some? && r.sites[i].active.value != r.steps[i].build ==>
      forall n :: owned(n) ==> (HasCache(r.sites[i + 1].caches, n) <==> n == r.steps[i].build || Some(n) == r.sites[i].active)
    ensures r.steps[i].TakesOver? ==> forall c: Cache :: !owned(c.name) ==> (c in r.sites[i + 1].caches <==> c in r.sites[i].caches)
    ensures r.steps[i].Installs? ==> OthersOf(r.sites[i + 1].caches, owned) == OthersOf(r.sites[i].caches, owned)
  {
    hide IsRun, Install, Activate, PreviousBuild, OtherBuilds, OthersOf;
    StepIs(r, owned, i);
    RunKeeps(r, owned, i);
    var s := r.sites[i];
    if s.active.Some? {
      KeptIsStamped(s, r.lasts[i], owned);
    }
    match r.steps[i]
    case Installs(build, fetched) =>
      InstallKeeps(s, r.lasts[i], build, fetched, owned);
      if !fetched && s.active.Some? {
        FailedInstallKeeps(s, build);
      }
    case TakesOver(build, at) =>
      TakenOver(s, r.lasts[i], build, at, owned);
      PreviousLeft(s.caches, build, owned);
      if s.active.Some? && s.active.value != build {
        PreviousIsActive(s, r.lasts[i], build, owned);
      }
  }

  lemma PreviousLeft(s: seq<Cache>, build: Name, owned: Name -> bool)
    ensures forall n :: HasCache(s, n) && PreviousBuild(OtherBuilds(s, build, owned)) == Some(n) <==> IsPrevious(OtherBuilds(s, build, owned), n)
  {
    hide PreviousBuild, OtherBuilds, HasCache, RanBefore;
    var others := OtherBuilds(s, build, owned);
    PreviousIs(others);
    OthersAre(s, build, owned);
    forall n | IsPrevious(others, n)
      ensures HasCache(s, n)
    {
      var i: nat :| i < |others| && others[i].name == n && RanBefore(others, i);
      assert others[i] in others;
      HasIn(s, n);
    }
  }

  lemma StepIs(r: Run, owned: Name -> bool, i: nat)
    requires IsRun(r, owned) && i < |r.steps|
    ensures |r.sites| == |r.steps| + 1 == |r.lasts| && r.sites[i + 1] == Next(r.sites[i], r.steps[i], owned)
    ensures owned(r.steps[i].build) && (r.steps[i].TakesOver? ==> r.steps[i].at > r.lasts[i])
  {
  }

  /** The loop over the builds' records. */
  method FindPrevious(others: seq<Cache>) returns (previous: Option<Name>)
    ensures previous == PreviousBuild(others)
    ensures previous.Some? ==> IsPrevious(others, previous.value)
  {
    PreviousIs(others);
    hide RanBefore, IsPrevious;
    previous := None;
    var latest: nat := 0;
    for i := 0 to |others|
      invariant
        var last := LastToTakeOver(others, i);
        previous == (if last.Some? then Some(others[last.value].name) else None) && latest == (if last.Some? then others[last.value].at else 0)
    {
      if others[i].at > latest {
        previous, latest := Some(others[i].name), others[i].at;
      }
    }
    if previous.Some? {
      return;
    }
    var n := |others|;
    assert others[..n] == others;
    while n > 0
      invariant 0 <= n <= |others| && NewestFull(others) == NewestFull(others[..n])
    {
      assert others[..n][..n - 1] == others[..n - 1];
      if others[n - 1].full || others[n - 1].at > 0 {
        return Some(others[n - 1].name);
      }
      n := n - 1;
    }
    assert others[..0] == [];
  }
}
