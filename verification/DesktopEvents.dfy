/**
 * Following the desktop's events (class DesktopEvents,
 * app/src/sessions.ts:2977-3078). The desktop numbers its events from 1, keeps
 * the last 500 of them, and gives at most 200 at a time.
 *
 * A look is one step: `asks` is what the desktop says to each of its requests,
 * in order (that it does not answer, or how many events it has numbered; no
 * answer once they run out). A handler that throws changes nothing of it.
 */
module DesktopEvents {
  import opened Options
  import opened Subsequences

  const KEPT: nat := 500
  const PAGE: nat := 200
  const PAGES: nat := 10

  datatype Answer = Fails | Holds(total: nat)

  // ---- What the desktop gives ------------------------------------------------------------

  /** The numbers after `from`, up to `to`. */
  function Range(from: nat, to: nat): (r: seq<nat>)
    ensures |r| == if from <= to then to - from else 0
    ensures forall i :: 0 <= i < |r| ==> r[i] == from + 1 + i
  {
    if from <= to then seq(to - from, i => from + 1 + i) else []
  }

  /** Where a page starts after: at `since`, or later if those after it are no longer kept. */
  function PageFrom(total: nat, since: nat): nat {
    if total > KEPT && since < total - KEPT then total - KEPT else since
  }

  /** Where it ends: `since` itself when there is nothing after it. */
  function PageTo(total: nat, since: nat): nat {
    var from := PageFrom(total, since);
    if total <= from then since else if total <= from + PAGE then total else from + PAGE
  }

  /** The page of events after `since`. */
  function PageOf(total: nat, since: nat): seq<nat> {
    Range(PageFrom(total, since), PageTo(total, since))
  }

  // ---- A look ---------------------------------------------------------------------------------

  /** Where the stream is (none: it is not known yet), what was passed over, and what was handled. */
  datatype Follow = Follow(since: Option<nat>, lapsed: bool, passed: seq<nat>, handled: seq<nat>)

  const NEW := Follow(None, false, [], [])

  /** Paging to the stream's end (none: the desktop did not answer), and what was passed. */
  function FirstPages(since: nat, asks: seq<Answer>): (r: (Option<nat>, seq<nat>))
    decreases |asks|
  {
    if asks == [] || asks[0].Fails? then (None, [])
    else if PageTo(asks[0].total, since) <= since then (Some(since), [])
    else
      var rest := FirstPages(PageTo(asks[0].total, since), asks[1..]);
      (rest.0, PageOf(asks[0].total, since) + rest.1)
  }

  /** The latest number found in at most `pages` pages (none: no answer), and what is left to ask. */
  function Latest(latest: nat, pages: nat, asks: seq<Answer>): (r: (Option<nat>, seq<Answer>))
    ensures |r.1| <= |asks| && r.1 == asks[|asks| - |r.1|..]
    decreases |asks|
  {
    if pages == 0 then (Some(latest), asks)
    else if asks == [] || asks[0].Fails? then (None, asks)
    else if PageTo(asks[0].total, latest) <= latest then (Some(latest), asks[1..])
    else Latest(PageTo(asks[0].total, latest), pages - 1, asks[1..])
  }

  /** The events after `since` are handled. */
  function Handle(f: Follow, since: nat, asks: seq<Answer>): Follow {
    if asks == [] || asks[0].Fails? then f.(since := Some(since), lapsed := true)
    else f.(since := Some(PageTo(asks[0].total, since)), lapsed := false, handled := f.handled + PageOf(asks[0].total, since))
  }

  function Look(f: Follow, asks: seq<Answer>): Follow {
    if f.since.None? then
      var found := FirstPages(0, asks);
      f.(since := found.0, lapsed := f.lapsed || found.0.None?, passed := f.passed + found.1)
    else if f.lapsed then
      var found := Latest(0, PAGES, asks);
      if found.0.None? then f
      else Handle(f, if found.0.value < f.since.value then 0 else f.since.value, found.1)
    else Handle(f, f.since.value, asks)
  }

  // ---- The desktop does not restart ---------------------------------------------------------------

  /** What the desktop says in a look, its numbers growing between `from` and `to`. */
  ghost predicate Within(from: nat, asks: seq<Answer>, to: nat) {
    && from <= to
    && (forall i :: 0 <= i < |asks| && asks[i].Holds? ==> from <= asks[i].total <= to)
    && (forall i, j :: 0 <= i < j < |asks| && asks[i].Holds? && asks[j].Holds? ==> asks[i].total <= asks[j].total)
  }

  /** Enough pages are asked for that all there was at first is behind them. */
  lemma {:induction false} LatestReaches(latest: nat, pages: nat, asks: seq<Answer>, from: nat, to: nat)
    requires Within(from, asks, to) && latest <= to && Latest(latest, pages, asks).0.Some?
    requires from <= latest + pages * PAGE || (pages == PAGES && latest == 0)
    ensures from <= Latest(latest, pages, asks).0.value <= to
    decreases |asks|
  {
    if pages > 0 {
      var total := asks[0].total;
      if PageTo(total, latest) > latest {
        LatestReaches(PageTo(total, latest), pages - 1, asks[1..], from, to);
      }
    }
  }

  /** After the first look, where the stream was: everything numbered at its start is behind it. */
  lemma {:induction false} FirstReaches(since: nat, asks: seq<Answer>, from: nat, to: nat)
    requires Within(from, asks, to) && since <= to && FirstPages(since, asks).0.Some?
    ensures from <= FirstPages(since, asks).0.value <= to && since <= FirstPages(since, asks).0.value
    decreases |asks|
  {
    if PageTo(asks[0].total, since) > since {
      FirstReaches(PageTo(asks[0].total, since), asks[1..], from, to);
    }
  }

  /** Looks, one after another, of a desktop that does not restart: what it had numbered between them. */
  datatype Run = Run(follows: seq<Follow>, asks: seq<seq<Answer>>, totals: seq<nat>)

  ghost predicate IsRun(r: Run) {
    && |r.follows| == |r.asks| + 1 == |r.totals|
    && forall k :: 0 <= k < |r.asks| ==> Within(r.totals[k], r.asks[k], r.totals[k + 1]) && r.follows[k + 1] == Look(r.follows[k], r.asks[k])
  }

  ghost predicate Rising(s: seq<nat>, from: nat, to: nat) {
    && (forall i :: 0 <= i < |s| ==> from < s[i] <= to)
    && (forall i, j :: 0 <= i < j < |s| ==> s[i] < s[j])
  }

  /** How many events there were when the look asked for those after the stream's end (none: it got no answer). */
  function Asked(f: Follow, asks: seq<Answer>): Option<nat>
    requires f.since.Some?
  {
    var rest := if f.lapsed then Latest(0, PAGES, asks) else (Some(0), asks);
    if rest.0.None? || rest.1 == [] || rest.1[0].Fails? then None else Some(rest.1[0].total)
  }

  /** A look that gets its answer handles what comes after the stream's end; one that does not handles nothing. */
  lemma LookHandles(f: Follow, asks: seq<Answer>, from: nat, to: nat)
    requires f.since.Some? && Within(from, asks, to) && f.since.value <= from
    ensures
      var g, total := Look(f, asks), Asked(f, asks);
      && g.passed == f.passed
      && (total.None? ==> g.handled == f.handled && g.since == f.since)
      && (total.Some? ==> from <= total.value <= to && !g.lapsed)
      && (total.Some? ==> g.handled == f.handled + PageOf(total.value, f.since.value) && g.since == Some(PageTo(total.value, f.since.value)))
  {
    if f.lapsed && Latest(0, PAGES, asks).0.Some? {
      LatestReaches(0, PAGES, asks, from, to);
    }
  }

  /**
   * The desktop not restarting, however many requests fail: once the stream's
   * end was found, every event handled comes after it, each at most once, in
   * the order of their numbers; and nothing more is passed over.
   */
  lemma {:induction false} HandledOnceInOrder(r: Run, first: nat, k: nat)
    requires IsRun(r) && first <= k < |r.follows| && r.follows[first].since.Some?
    requires r.follows[first].since.value <= r.totals[first]
    ensures
      var start, f := r.follows[first], r.follows[k];
      && f.since.Some? && start.since.value <= f.since.value <= r.totals[k]
      && start.handled <= f.handled && Rising(f.handled[|start.handled|..], start.since.value, f.since.value)
      && f.passed == start.passed
    decreases k
  {
    if k > first {
      HandledOnceInOrder(r, first, k - 1);
      var before, h := r.follows[k - 1], r.follows[first].handled;
      var total := Asked(before, r.asks[k - 1]);
      LookHandles(before, r.asks[k - 1], r.totals[k - 1], r.totals[k]);
      if total.Some? {
        var page := PageOf(total.value, before.since.value);
        assert (before.handled + page)[|h|..] == before.handled[|h|..] + page;
      }
    }
  }

  /** What a look asked for was all still kept. */
  ghost predicate NoneGone(f: Follow, asks: seq<Answer>) {
    f.since.Some? && Asked(f, asks).Some? ==> Asked(f, asks).value <= f.since.value + KEPT
  }

  /** No look came after the desktop let go of an event it asked for. */
  ghost predicate NeverLate(r: Run, first: nat, k: nat)
    requires IsRun(r) && first <= k < |r.follows|
  {
    forall j :: first <= j < k ==> NoneGone(r.follows[j], r.asks[j])
  }

  /**
   * Over any run, whatever fails: the events handled are every one after where
   * the stream was, each once and in order, exactly when no look came too late.
   */
  lemma {:induction false} AllHandledIff(r: Run, first: nat, k: nat)
    requires IsRun(r) && first <= k < |r.follows| && r.follows[first].since.Some?
    requires r.follows[first].since.value <= r.totals[first]
    ensures
      var start, f := r.follows[first], r.follows[k];
      && f.since.Some? && start.since.value <= f.since.value <= r.totals[k]
      && (f.handled == start.handled + Range(start.since.value, f.since.value) <==> NeverLate(r, first, k))
      && (!NeverLate(r, first, k) ==> |f.handled| < |start.handled| + (f.since.value - start.since.value))
    decreases k
  {
    hide Look, Asked;
    HandledOnceInOrder(r, first, k);
    if k > first {
      AllHandledIff(r, first, k - 1);
      LookHandlesIff(r.follows[first], r.follows[k - 1], r.asks[k - 1], r.totals[k - 1], r.totals[k]);
      assert NeverLate(r, first, k) <==> NeverLate(r, first, k - 1) && NoneGone(r.follows[k - 1], r.asks[k - 1]);
    }
  }

  /** One look more: it handles all it passes, or fewer. */
  lemma LookHandlesIff(start: Follow, f: Follow, asks: seq<Answer>, from: nat, to: nat)
    requires start.since.Some? && f.since.Some? && start.since.value <= f.since.value <= from && Within(from, asks, to)
    ensures
      var g := Look(f, asks);
      && g.since.Some? && f.since.value <= g.since.value
      && |g.handled| <= |f.handled| + (g.since.value - f.since.value)
      && (!NoneGone(f, asks) ==> |g.handled| < |f.handled| + (g.since.value - f.since.value))
      && (NoneGone(f, asks) && f.handled == start.handled + Range(start.since.value, f.since.value) ==>
            g.handled == start.handled + Range(start.since.value, g.since.value))
  {
    hide Look;
    LookHandles(f, asks, from, to);
    var total := Asked(f, asks);
    hide Asked;
    if total.Some? && NoneGone(f, asks) {
      var next := PageTo(total.value, f.since.value);
      assert PageOf(total.value, f.since.value) == Range(f.since.value, next);
      RangeOn(start.since.value, f.since.value, next);
      JoinAgain(start.handled, Range(start.since.value, f.since.value), Range(f.since.value, next));
    }
  }

  /** Every event is handled when all there was by the end of each look was still kept. */
  lemma AllHandled(r: Run, first: nat, k: nat)
    requires IsRun(r) && first <= k < |r.follows| && r.follows[first].since.Some?
    requires r.follows[first].since.value <= r.totals[first]
    requires forall j :: first <= j < k && r.follows[j].since.Some? ==> r.totals[j + 1] <= r.follows[j].since.value + KEPT
    ensures r.follows[k].since.Some? && r.follows[k].since.value <= r.totals[k]
    ensures r.follows[k].handled == r.follows[first].handled + Range(r.follows[first].since.value, r.follows[k].since.value)
  {
    hide Look, Asked;
    AllHandledIff(r, first, k);
    forall j | first <= j < k
      ensures NoneGone(r.follows[j], r.asks[j])
    {
      HandledOnceInOrder(r, first, j);
      LookHandles(r.follows[j], r.asks[j], r.totals[j], r.totals[j + 1]);
    }
  }

  lemma RangeOn(from: nat, at: nat, to: nat)
    requires from <= at <= to
    ensures Range(from, at) + Range(at, to) == Range(from, to)
  {
  }

  /** The event after the last one seen is handled by a look that gets its answer exactly when the desktop has not let go of it. */
  lemma NextHandledIff(f: Follow, asks: seq<Answer>, from: nat, to: nat)
    requires f.since.Some? && Within(from, asks, to) && f.since.value <= from
    requires Asked(f, asks).Some? && f.since.value < Asked(f, asks).value
    ensures
      var new_ := Look(f, asks).handled[|f.handled|..];
      && (f.since.value + 1 in new_ <==> NoneGone(f, asks))
      && (!NoneGone(f, asks) ==> forall n :: n in new_ ==> n > f.since.value + 1)
  {
    hide Look;
    LookHandles(f, asks, from, to);
    var page := PageOf(Asked(f, asks).value, f.since.value);
    assert (f.handled + page)[|f.handled|..] == page;
    if NoneGone(f, asks) {
      assert page[0] == f.since.value + 1;
    }
  }

  /** Five hundred and one events between two looks: the first of them is handled by neither, nor after. */
  lemma OneIsGone()
    ensures
      var f := Look(NEW, [Holds(0)]);
      var g := Look(f, [Holds(501)]);
      f == Follow(Some(0), false, [], []) && g == Follow(Some(201), false, [], Range(1, 201)) && 1 !in g.handled
  {
    var f := Look(NEW, [Holds(0)]);
    assert FirstPages(0, [Holds(0)]) == (Some(0), []);
    assert PageOf(501, 0) == Range(1, 201) && [] + Range(1, 201) == Range(1, 201);
  }

  /** The first look passes over, in order, everything still kept, up to where the stream is then. */
  lemma {:induction false} FirstLookPasses(since: nat, asks: seq<Answer>, from: nat, to: nat)
    requires Within(from, asks, to) && since <= to
    ensures
      var found := FirstPages(since, asks);
      && Rising(found.1, since, if found.0.Some? then found.0.value else to)
      && (found.0.Some? ==> since <= found.0.value <= to && found.0.value >= from)
      && (found.0.Some? && to <= since + KEPT ==> found.1 == Range(since, found.0.value))
    decreases |asks|
  {
    if asks != [] && asks[0].Holds? {
      var next := PageTo(asks[0].total, since);
      if next > since {
        FirstLookPasses(next, asks[1..], from, to);
      }
    }
  }

  /** Each page but the last gets further: with one more than there are events, none failing, the stream's end is found. */
  lemma {:induction false} EndIsFound(since: nat, asks: seq<Answer>, to: nat)
    requires forall i :: 0 <= i < |asks| ==> asks[i].Holds? && asks[i].total <= to
    requires since <= to && |asks| > to - since
    ensures FirstPages(since, asks).0.Some?
    decreases |asks|
  {
    var next := PageTo(asks[0].total, since);
    if next > since {
      EndIsFound(next, asks[1..], to);
    }
  }

  /**
   * The first look that gets to the stream's end handles nothing and passes
   * over, once and in order, what is kept, up to it: all there was as the look
   * began, and every event so far when none was let go. One with an answer
   * missing says so, and looks from the start again.
   */
  lemma FirstLookIs(f: Follow, asks: seq<Answer>, from: nat, to: nat)
    requires f.since.None? && Within(from, asks, to)
    ensures
      var g := Look(f, asks);
      && g.handled == f.handled && f.passed <= g.passed
      && Rising(g.passed[|f.passed|..], 0, if g.since.Some? then g.since.value else to)
      && (g.since.Some? ==> from <= g.since.value <= to && g.lapsed == f.lapsed)
      && (g.since.None? ==> g.lapsed)
      && (g.since.Some? && to <= KEPT ==> g.passed == f.passed + Range(0, g.since.value))
      && ((forall i :: 0 <= i < |asks| ==> asks[i].Holds?) && |asks| > to ==> g.since.Some?)
  {
    hide FirstPages;
    FirstLookPasses(0, asks, from, to);
    var found := FirstPages(0, asks).1;
    assert (f.passed + found)[|f.passed|..] == found;
    if (forall i :: 0 <= i < |asks| ==> asks[i].Holds?) && |asks| > to {
      EndIsFound(0, asks, to);
    }
  }

  /** A look after a lapse that finds fewer events than were seen, and then gets no answer, begins the new numbering from its start. */
  lemma LapsedAgain(f: Follow, asks: seq<Answer>, total: nat)
    requires f.since.Some? && f.lapsed && total < f.since.value && total <= PAGE
    requires |asks| == 3 && asks[0] == asks[1] == Holds(total) && asks[2] == Fails
    ensures Look(f, asks) == if total == 0 then f.(since := Some(0), lapsed := false) else f.(since := Some(0), lapsed := true)
  {
    assert f.handled + [] == f.handled;
    if total > 0 {
      assert PageTo(total, 0) == total && PageTo(total, total) == total;
      assert asks[1..][1..] == [Fails];
      assert Latest(total, PAGES - 1, asks[1..]) == (Some(total), asks[1..][1..]);
    }
  }

  // ---- The desktop restarts: its numbers begin again ---------------------------------------------------

  /** A look after a lapse finds how many events the new numbering has, when none comes meanwhile. */
  lemma LatestIs(total: nat, asks: seq<Answer>)
    requires |asks| >= 5 && forall i :: 0 <= i < |asks| ==> asks[i] == Holds(total)
    ensures Latest(0, PAGES, asks).0 == Some(total) && |Latest(0, PAGES, asks).1| >= |asks| - 4
  {
    var next := PageTo(total, 0);
    if next > 0 {
      LatestEnds(total, next, PAGES - 1, asks[1..], 2);
    }
  }

  lemma {:induction false} LatestEnds(total: nat, latest: nat, pages: nat, asks: seq<Answer>, n: nat)
    requires latest <= total <= latest + n * PAGE && pages > n && |asks| > n
    requires forall i :: 0 <= i < |asks| ==> asks[i] == Holds(total)
    ensures Latest(latest, pages, asks).0 == Some(total) && |Latest(latest, pages, asks).1| >= |asks| - n - 1
    decreases n
  {
    if latest < total {
      LatestEnds(total, PageTo(total, latest), pages - 1, asks[1..], n - 1);
    }
  }

  /**
   * The desktop having begun its numbers again, the events of the new numbering
   * are followed from its first exactly when it did not answer at the look
   * before and they are fewer than were seen of the old one; else those up to
   * that number are never handled.
   */
  lemma AfterARestart(f: Follow, total: nat, asks: seq<Answer>)
    requires f.since.Some? && |asks| >= 5 && forall i :: 0 <= i < |asks| ==> asks[i] == Holds(total)
    ensures
      var g := Look(f, asks);
      && g.handled == f.handled + PageOf(total, if f.lapsed && total < f.since.value then 0 else f.since.value) && !g.lapsed
      && (!f.lapsed && total <= f.since.value ==> g == f)
    ensures 0 < total <= KEPT && f.since.value > 0 ==>
      (Look(f, asks).handled[|f.handled|..] == Range(0, if total <= PAGE then total else PAGE) <==> f.lapsed && total < f.since.value)
  {
    LatestIs(total, asks);
    var page := PageOf(total, if f.lapsed && total < f.since.value then 0 else f.since.value);
    assert (f.handled + page)[|f.handled|..] == page;
    assert f.handled + [] == f.handled;
    if 0 < total <= KEPT && f.since.value > 0 {
      assert Range(0, if total <= PAGE then total else PAGE)[0] == 1;
      if !(f.lapsed && total < f.since.value) {
        assert page == [] || page[0] > 1;
      }
    }
  }

  /** A restart between two looks that were answered is not seen, though its numbers are below the last one seen. */
  lemma ARestartBetweenAnswers()
    ensures
      var f := Look(NEW, [Holds(5), Holds(5)]);
      f.since == Some(5) && !f.lapsed && f.handled == [] && Look(f, seq(5, _ => Holds(3))) == f
  {
    FiveSeen();
    AfterARestart(Look(NEW, [Holds(5), Holds(5)]), 3, seq(5, _ => Holds(3)));
  }

  lemma FiveSeen()
    ensures Look(NEW, [Holds(5), Holds(5)]) == Follow(Some(5), false, Range(0, 5), [])
  {
    var page := PageOf(5, 0);
    assert [Holds(5), Holds(5)][1..] == [Holds(5)];
    assert FirstPages(5, [Holds(5)]) == (Some(5), []);
    assert FirstPages(0, [Holds(5), Holds(5)]) == (Some(5), page + []);
    assert [] + (page + []) == Range(0, 5);
  }

  /** A restart that has numbered past where the stream was: its first five events are never handled. */
  lemma ARestartNotSeen()
    ensures
      var f := Look(Look(NEW, [Holds(5), Holds(5)]), [Fails]);
      var g := Look(f, seq(5, _ => Holds(7)));
      f.since == Some(5) && f.lapsed && f.handled == [] && g.since == Some(7) && g.handled == [6, 7]
  {
    FiveSeen();
    var f := Look(Look(NEW, [Holds(5), Holds(5)]), [Fails]);
    var asks := seq(5, _ => Holds(7));
    AfterARestart(f, 7, asks);
    var found := Latest(0, PAGES, asks);
    LatestIs(7, asks);
    assert PageOf(7, 5) == [6, 7] && [] + [6, 7] == [6, 7];
  }

  /** As it was, or following the new numbering from its first: all of it handled, once each and in order, up to where it is. */
  ghost predicate Restarted(start: Follow, f: Follow, total: nat) {
    f == start || (f.since.Some? && f.since.value <= total && f.handled == start.handled + Range(0, f.since.value))
  }

  /**
   * After a lapse, while the new numbering is below the last number seen and
   * its first event is still kept: whatever fails and whatever comes meanwhile,
   * nothing has happened yet, or every event of it up to where the stream is
   * was handled, each once and in order.
   */
  lemma {:induction false} FollowedAnew(r: Run, first: nat, k: nat)
    requires IsRun(r) && first <= k < |r.follows| && r.follows[first].since.Some? && r.follows[first].lapsed
    requires r.totals[k] < r.follows[first].since.value && r.totals[k] <= KEPT
    ensures Restarted(r.follows[first], r.follows[k], r.totals[k])
    decreases k
  {
    hide Look;
    if k > first {
      var start, f := r.follows[first], r.follows[k - 1];
      assert Within(r.totals[k - 1], r.asks[k - 1], r.totals[k]);
      FollowedAnew(r, first, k - 1);
      if f == start {
        NoticedOrNot(f, r.asks[k - 1], r.totals[k - 1], r.totals[k]);
      } else {
        var from := Follow(Some(0), false, [], start.handled);
        LookHandlesIff(from, f, r.asks[k - 1], r.totals[k - 1], r.totals[k]);
        LookHandles(f, r.asks[k - 1], r.totals[k - 1], r.totals[k]);
      }
    }
  }

  /** The look that may find the restart: it gets its answers, or the numbers are taken from 0 and no event yet, or nothing happens. */
  lemma NoticedOrNot(f: Follow, asks: seq<Answer>, from: nat, to: nat)
    requires f.since.Some? && f.lapsed && Within(from, asks, to) && to < f.since.value && to <= KEPT
    ensures Restarted(f, Look(f, asks), to)
  {
    var found := Latest(0, PAGES, asks);
    if found.0.Some? {
      LatestReaches(0, PAGES, asks, from, to);
      assert f.handled + [] == f.handled;
      if found.1 != [] && found.1[0].Holds? {
        var total := found.1[0].total;
        assert PageOf(total, 0) == Range(0, PageTo(total, 0));
      }
    }
  }

  /**
   * From then on, however many events come, each event of the new numbering is
   * handled exactly once, in order, exactly when no look comes too late.
   */
  lemma RestartedAllHandled(r: Run, first: nat, n: nat, k: nat)
    requires IsRun(r) && first <= n <= k < |r.follows| && r.follows[first].since.Some? && r.follows[first].lapsed
    requires r.totals[n] < r.follows[first].since.value && r.totals[n] <= KEPT && r.follows[n] != r.follows[first]
    ensures r.follows[k].since.Some?
    ensures r.follows[k].handled == r.follows[first].handled + Range(0, r.follows[k].since.value) <==> NeverLate(r, n, k)
  {
    hide Look;
    FollowedAnew(r, first, n);
    AllHandledIff(r, n, k);
    var start, f, g := r.follows[first], r.follows[n], r.follows[k];
    RangeOn(0, f.since.value, g.since.value);
    JoinAgain(start.handled, Range(0, f.since.value), Range(f.since.value, g.since.value));
  }

  // ---- The class ------------------------------------------------------------------------------------------

  class Follower {
    var since: Option<nat>
    var lapsed: bool
    var passed: seq<nat>
    var handled: seq<nat>

    constructor ()
      ensures Following() == NEW
    {
      since, lapsed, passed, handled := None, false, [], [];
    }

    function Following(): Follow
      reads this
    {
      Follow(since, lapsed, passed, handled)
    }

    /** The cursor dropped, so that the next look is a first one. */
    method Forget()
      modifies this
      ensures Following() == old(Following()).(since := None, lapsed := false)
    {
      since, lapsed := None, false;
    }

    method Tick(asks: seq<Answer>)
      modifies this
      ensures Following() == Look(old(Following()), asks)
    {
      if since.None? {
        FindEnd(asks);
        return;
      }
      var rest := asks;
      if lapsed {
        lapsed := false;
        var latest;
        latest, rest := FindLatest(asks);
        if latest.None? {
          lapsed := true;
          return;
        }
        if latest.value < since.value {
          since := Some(0);
        }
      }
      HandleAfter(rest);
    }

    /** The latest number the desktop gives, in ten pages at most. */
    method FindLatest(asks: seq<Answer>) returns (latest: Option<nat>, rest: seq<Answer>)
      ensures (latest, rest) == Latest(0, PAGES, asks)
    {
      var at: nat, pages: nat := 0, 0;
      rest := asks;
      while pages < PAGES
        invariant pages <= PAGES && Latest(at, PAGES - pages, rest) == Latest(0, PAGES, asks)
      {
        if rest == [] || rest[0].Fails? {
          return None, rest;
        }
        var next := PageTo(rest[0].total, at);
        rest := rest[1..];
        if next <= at {
          return Some(at), rest;
        }
        at, pages := next, pages + 1;
      }
      latest := Some(at);
    }

    method HandleAfter(asks: seq<Answer>)
      requires since.Some?
      modifies this
      ensures Following() == Handle(old(Following()), old(since.value), asks).(lapsed := lapsed)
      ensures lapsed == (old(lapsed) || asks == [] || asks[0].Fails?)
    {
      if asks == [] || asks[0].Fails? {
        lapsed := true;
        return;
      }
      var page, to := PageOf(asks[0].total, since.value), PageTo(asks[0].total, since.value);
      assert page == [] ==> to == since.value;
      assert page != [] ==> page[|page| - 1] == to && to > since.value;
      HandleAll(page);
    }

    method FindEnd(asks: seq<Answer>)
      requires since.None?
      modifies this
      ensures Following() == Look(old(Following()), asks)
    {
      var at: nat, i := 0, 0;
      while true
        invariant 0 <= i <= |asks| && Following() == old(Following()).(passed := passed)
        invariant FirstPages(0, asks).0 == FirstPages(at, asks[i..]).0
        invariant old(passed) + FirstPages(0, asks).1 == passed + FirstPages(at, asks[i..]).1
        decreases |asks| - i
      {
        if i == |asks| || asks[i].Fails? {
          assert passed + [] == passed;
          lapsed := true;
          return;
        }
        assert asks[i..][0] == asks[i] && asks[i..][1..] == asks[i + 1..];
        var next := PageTo(asks[i].total, at);
        if next <= at {
          assert passed + [] == passed;
          break;
        }
        passed := passed + PageOf(asks[i].total, at);
        at, i := next, i + 1;
      }
      since := Some(at);
    }

    /** Each event on its own, the cursor after it. */
    method HandleAll(page: seq<nat>)
      requires since.Some?
      modifies this
      ensures Following() == old(Following()).(handled := old(handled) + page, since := since) && since.Some?
      ensures forall j :: 0 <= j < |page| ==> page[j] <= since.value
      ensures since == old(since) || (exists j :: 0 <= j < |page| && since.value == page[j])
    {
      var i := 0;
      while i < |page|
        invariant 0 <= i <= |page| && since.Some? && lapsed == old(lapsed) && passed == old(passed)
        invariant handled == old(handled) + page[..i]
        invariant forall j :: 0 <= j < i ==> page[j] <= since.value
        invariant since.value >= old(since.value)
        invariant since == old(since) || (exists j :: 0 <= j < i && since.value == page[j])
      {
        assert page[..i + 1] == page[..i] + [page[i]];
        handled := handled + [page[i]];
        since := Some(if page[i] > since.value then page[i] else since.value);
        i := i + 1;
      }
      assert page[..i] == page;
    }
  }
}
