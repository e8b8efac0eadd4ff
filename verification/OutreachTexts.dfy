/**
 * The texts the outreach engine sends (app/src/outreach.ts:1122-1211): at most
 * two to a person, the second after the first failed; 20 seconds apart; and no
 * more than 40 people in an hour, or 200 in a day.
 */
module OutreachTexts {
  import opened Options
  import opened Subsequences
  import opened Outreach
  import opened OutreachKept
  import opened OutreachContacts

  // ---- What is kept of the texts sent ---------------------------------------------------------

  /** A text sent: its person's attempt is it, or a later one. */
  ghost predicate SentOk(w: World, clock: int, e: Entry)
    requires e.Texted?
  {
    && IsAt(w, e.c, e.p) && w.campaigns[e.c].kind == Texts && w.campaigns[e.c].people[e.p].attempt.Some?
    && w.campaigns[e.c].people[e.p].number == e.number
    && 1 <= e.n <= w.campaigns[e.c].people[e.p].tries
    && 0 < e.at <= w.campaigns[e.c].people[e.p].attempt.value.at
    && e.at <= clock
  }

  ghost predicate AllSentOk(w: World, clock: int) {
    forall i :: 0 <= i < |w.trace| && w.trace[i].Texted? ==> SentOk(w, clock, w.trace[i])
  }

  /** The second text to a person comes after the first was said not to have gone. */
  ghost predicate SecondsAfterFailure(trace: seq<Entry>) {
    forall i :: 0 <= i < |trace| && trace[i].Texted? && trace[i].n >= 2 ==>
      trace[i].n == 2 && TextFailed(trace[i].c, trace[i].p, 1) in trace[..i]
  }

  /** No text is sent twice to a person under one id. */
  ghost predicate IdsOnce(trace: seq<Entry>) {
    forall i, j :: 0 <= i < j < |trace| && trace[i].Texted? && trace[j].Texted? && trace[i].c == trace[j].c && trace[i].p == trace[j].p ==>
      trace[i].n < trace[j].n
  }

  ghost predicate GapsKept(trace: seq<Entry>) {
    forall i, j :: 0 <= i < j < |trace| && trace[i].Texted? && trace[j].Texted? ==> trace[j].at - trace[i].at >= TEXT_GAP
  }

  /** The people texted within `span` up to `t`. */
  ghost function TextedIn(trace: seq<Entry>, t: int, span: int): set<(nat, nat)> {
    set i | 0 <= i < |trace| && trace[i].Texted? && t - span < trace[i].at <= t :: (trace[i].c, trace[i].p)
  }

  ghost predicate PaceKept(trace: seq<Entry>, span: int, most: nat) {
    forall t: int :: |TextedIn(trace, t, span)| <= most
  }

  ghost predicate AttemptOk(w: World, clock: int, c: nat, p: nat)
    requires IsAt(w, c, p)
  {
    w.campaigns[c].kind == Texts && w.campaigns[c].people[p].attempt.Some? ==>
      var who := w.campaigns[c].people[p];
      who.attempt.value.at <= clock && (who.attempt.value.failedOnce && who.tries == 1 ==> TextFailed(c, p, 1) in w.trace)
  }

  ghost predicate AttemptsOk(w: World, clock: int) {
    forall c: nat, p: nat :: c < |w.campaigns| && p < |w.campaigns[c].people| ==> AttemptOk(w, clock, c, p)
  }

  ghost predicate TraceOk(trace: seq<Entry>) {
    && SecondsAfterFailure(trace) && IdsOnce(trace) && GapsKept(trace)
    && PaceKept(trace, HOUR, TEXTS_PER_HOUR) && PaceKept(trace, DAY, TEXTS_PER_DAY)
  }

  ghost predicate TextsOk(w: World, clock: int) {
    TraceOk(w.trace) && AllSentOk(w, clock) && AttemptsOk(w, clock)
  }

  // ---- No text is sent ---------------------------------------------------------------------------

  /** The entries added are not texts. */
  ghost predicate OnlyOthers(trace: seq<Entry>, trace': seq<Entry>) {
    trace <= trace' && forall i :: |trace| <= i < |trace'| ==> !trace'[i].Texted?
  }

  lemma OthersKeep(trace: seq<Entry>, trace': seq<Entry>)
    requires TraceOk(trace) && OnlyOthers(trace, trace')
    ensures TraceOk(trace')
  {
    OthersKeepPace(trace, trace', HOUR, TEXTS_PER_HOUR);
    OthersKeepPace(trace, trace', DAY, TEXTS_PER_DAY);
    forall i | 0 <= i < |trace'| && trace'[i].Texted? && trace'[i].n >= 2
      ensures trace'[i].n == 2 && TextFailed(trace'[i].c, trace'[i].p, 1) in trace'[..i]
    {
      assert trace'[i] == trace[i];
      assert trace'[..i] == trace[..i];
    }
  }

  lemma OthersKeepPace(trace: seq<Entry>, trace': seq<Entry>, span: int, most: nat)
    requires PaceKept(trace, span, most) && OnlyOthers(trace, trace')
    ensures PaceKept(trace', span, most)
  {
    forall t: int
      ensures |TextedIn(trace', t, span)| <= most
    {
      assert TextedIn(trace', t, span) == TextedIn(trace, t, span);
    }
  }

  lemma QuietKeeps(w: World, w': World, clock: int, clock': int)
    requires TextsOk(w, clock) && CampaignsGoOn(w, w') && OnlyOthers(w.trace, w'.trace) && clock <= clock'
    requires AttemptsOk(w', clock')
    ensures TextsOk(w', clock')
  {
    hide TraceOk;
    OthersKeep(w.trace, w'.trace);
    forall i | 0 <= i < |w'.trace| && w'.trace[i].Texted?
      ensures SentOk(w', clock', w'.trace[i])
    {
      var e := w.trace[i];
      assert SentOk(w, clock, e);
      assert CampaignGoesOn(w.campaigns[e.c], w'.campaigns[e.c]);
      assert PersonGoesOn(Texts, w.campaigns[e.c].people[e.p], w'.campaigns[e.c].people[e.p]);
    }
  }

  /** A step that rings and texts no one. */
  lemma MovesKeepTexts(w: World, w': World, clock: int, clock': int)
    requires TextsOk(w, clock) && WorldMoves(w, w') && OnlyOthers(w.trace, w'.trace) && clock <= clock'
    ensures TextsOk(w', clock')
  {
    hide TraceOk, AllSentOk, OnlyOthers;
    MovesGoOn(w, w');
    forall c: nat, p: nat | c < |w'.campaigns| && p < |w'.campaigns[c].people|
      ensures AttemptOk(w', clock', c, p)
    {
      assert AttemptOk(w, clock, c, p);
      assert CampaignMoves(w.campaigns[c], w'.campaigns[c]);
      assert PersonMoves(w.campaigns[c].kind, w.campaigns[c].people[p], w'.campaigns[c].people[p]);
      PrefixHas(w.trace, w'.trace);
    }
    QuietKeeps(w, w', clock, clock');
  }

  lemma PrefixHas(trace: seq<Entry>, trace': seq<Entry>)
    requires OnlyOthers(trace, trace')
    ensures forall e :: e in trace ==> e in trace'
  {
  }

  /** A step that leaves every person of a text campaign as they were. */
  lemma SameTexts(w: World, w': World, clock: int, clock': int)
    requires TextsOk(w, clock) && CampaignsGoOn(w, w') && OnlyOthers(w.trace, w'.trace) && clock <= clock'
    requires forall c: nat, p: nat :: c < |w'.campaigns| && p < |w'.campaigns[c].people| && w'.campaigns[c].kind == Texts ==>
      w'.campaigns[c].people[p].attempt.None? ||
      (c < |w.campaigns| && p < |w.campaigns[c].people| && w'.campaigns[c].people[p] == w.campaigns[c].people[p])
    ensures TextsOk(w', clock')
  {
    hide TraceOk, AllSentOk, CampaignsGoOn, OnlyOthers;
    forall c: nat, p: nat | c < |w'.campaigns| && p < |w'.campaigns[c].people|
      ensures AttemptOk(w', clock', c, p)
    {
      PrefixHas(w.trace, w'.trace);
      if w'.campaigns[c].kind == Texts && w'.campaigns[c].people[p].attempt.Some? {
        SameKind(w, w', c);
        assert AttemptOk(w, clock, c, p);
      }
    }
    QuietKeeps(w, w', clock, clock');
  }

  lemma SameKind(w: World, w': World, c: nat)
    requires CampaignsGoOn(w, w') && c < |w.campaigns|
    ensures w'.campaigns[c].kind == w.campaigns[c].kind
  {
    assert CampaignGoesOn(w.campaigns[c], w'.campaigns[c]);
  }

  // ---- A text is sent ------------------------------------------------------------------------------

  lemma SendKeepsPace(w: World, clock: int, c: nat, p: nat, n: nat, number: Number, now: int, span: int, most: nat)
    requires AllSentOk(w, clock) && PaceKept(w.trace, span, most) && clock <= now && span > 0
    requires |Recent(w, now, span)| < most
    ensures PaceKept(w.trace + [Texted(c, p, n, number, now)], span, most)
  {
    var trace' := w.trace + [Texted(c, p, n, number, now)];
    forall t: int
      ensures |TextedIn(trace', t, span)| <= most
    {
      if t < now {
        assert TextedIn(trace', t, span) <= TextedIn(w.trace, t, span);
        NoMore(TextedIn(trace', t, span), TextedIn(w.trace, t, span));
      } else {
        forall x | x in TextedIn(trace', t, span)
          ensures x in Recent(w, now, span) + {(c, p)}
        {
          var i :| 0 <= i < |trace'| && trace'[i].Texted? && t - span < trace'[i].at <= t && x == (trace'[i].c, trace'[i].p);
          if i < |w.trace| {
            assert SentOk(w, clock, w.trace[i]);
          }
        }
        NoMore(TextedIn(trace', t, span), Recent(w, now, span) + {(c, p)});
      }
    }
  }

  lemma NoMore<T>(a: set<T>, b: set<T>)
    requires a <= b
    ensures |a| <= |b|
  {
    assert b == a + (b - a);
  }

  /** The person texted: due, and texted once before at most, which failed. */
  ghost predicate NextText(w: World, clock: int, c: nat, p: nat, n: nat, number: Number, now: int) {
    && IsAt(w, c, p) && w.campaigns[c].kind == Texts && w.campaigns[c].people[p].number == number
    && n == w.campaigns[c].people[p].tries + 1
    && (n >= 2 ==> n == 2 && TextFailed(c, p, 1) in w.trace)
    && clock <= now && now > 0 && MayText(w, now)
  }

  lemma SendKeepsTrace(w: World, clock: int, c: nat, p: nat, n: nat, number: Number, now: int)
    requires TextsOk(w, clock) && NextText(w, clock, c, p, n, number, now)
    ensures TraceOk(w.trace + [Texted(c, p, n, number, now)])
  {
    SendKeepsPace(w, clock, c, p, n, number, now, HOUR, TEXTS_PER_HOUR);
    SendKeepsPace(w, clock, c, p, n, number, now, DAY, TEXTS_PER_DAY);
    hide PaceKept;
    SendKeepsOrder(w, clock, c, p, n, number, now);
    SendAfterFailure(w, clock, c, p, n, number, now);
  }

  lemma SendKeepsOrder(w: World, clock: int, c: nat, p: nat, n: nat, number: Number, now: int)
    requires IdsOnce(w.trace) && GapsKept(w.trace) && AllSentOk(w, clock) && NextText(w, clock, c, p, n, number, now)
    ensures IdsOnce(w.trace + [Texted(c, p, n, number, now)]) && GapsKept(w.trace + [Texted(c, p, n, number, now)])
  {
    forall i | 0 <= i < |w.trace| && w.trace[i].Texted?
      ensures now - w.trace[i].at >= TEXT_GAP
      ensures w.trace[i].c == c && w.trace[i].p == p ==> w.trace[i].n < n
    {
      var e := w.trace[i];
      assert SentOk(w, clock, e);
      assert TextedWithin(w.campaigns[e.c], e.p, now, DAY) || now - e.at >= DAY;
    }
  }

  lemma SendAfterFailure(w: World, clock: int, c: nat, p: nat, n: nat, number: Number, now: int)
    requires SecondsAfterFailure(w.trace) && NextText(w, clock, c, p, n, number, now)
    ensures SecondsAfterFailure(w.trace + [Texted(c, p, n, number, now)])
  {
    var trace' := w.trace + [Texted(c, p, n, number, now)];
    forall i | 0 <= i < |trace'| && trace'[i].Texted? && trace'[i].n >= 2
      ensures trace'[i].n == 2 && TextFailed(trace'[i].c, trace'[i].p, 1) in trace'[..i]
    {
      if i < |w.trace| {
        assert trace'[..i] == w.trace[..i];
      } else {
        assert trace'[..i] == w.trace;
      }
    }
  }

  /** What a text sent makes of its person. */
  ghost predicate BecomesTexted(c: nat, p: nat, who: Person, q: Person, now: int, failed: bool) {
    && q.number == who.number && q.tries == who.tries + 1 && q.attempt.Some? && q.attempt.value.at == now
    && TextPersonOk(c, p, q)
    && (q.attempt.value.failedOnce && q.tries == 1 ==> failed)
  }

  lemma SendIs(w: World, c: nat, p: nat, look: TextLook)
    requires IsAt(w, c, p) && TextPersonOk(c, p, w.campaigns[c].people[p]) && w.campaigns[c].people[p].state == Queued && look.now > 0
    ensures
      var w', who := Send(w, c, p, look), w.campaigns[c].people[p];
      var failed := who.number != TEST && look.reply == OtherError;
      && IsAt(w', c, p)
      && w' == SetPerson(w, c, p, w'.campaigns[c].people[p]).(trace := w.trace + SentEntries(c, p, who.tries + 1, who.number, look.now, failed))
      && BecomesTexted(c, p, who, w'.campaigns[c].people[p], look.now, failed)
  {
    SendSets(w, c, p, look);
    SendBecomes(w, c, p, look);
  }

  lemma SendSets(w: World, c: nat, p: nat, look: TextLook)
    requires IsAt(w, c, p)
    ensures
      var w', who := Send(w, c, p, look), w.campaigns[c].people[p];
      var failed := who.number != TEST && look.reply == OtherError;
      && IsAt(w', c, p)
      && w' == SetPerson(w, c, p, w'.campaigns[c].people[p]).(trace := w.trace + SentEntries(c, p, who.tries + 1, who.number, look.now, failed))
  {
    hide Settle, MayHaveGone;
    var w', who := Send(w, c, p, look), w.campaigns[c].people[p];
    var failed := who.number != TEST && look.reply == OtherError;
    assert w'.trace == w.trace + SentEntries(c, p, who.tries + 1, who.number, look.now, failed);
    assert w'.campaigns[c].people == w.campaigns[c].people[p := w'.campaigns[c].people[p]];
    assert w'.campaigns == w.campaigns[c := SetIn(w.campaigns[c], p, w'.campaigns[c].people[p])];
  }

  lemma SendBecomes(w: World, c: nat, p: nat, look: TextLook)
    requires IsAt(w, c, p) && TextPersonOk(c, p, w.campaigns[c].people[p]) && w.campaigns[c].people[p].state == Queued && look.now > 0
    requires IsAt(Send(w, c, p, look), c, p)
    ensures
      var who := w.campaigns[c].people[p];
      BecomesTexted(c, p, who, Send(w, c, p, look).campaigns[c].people[p], look.now, who.number != TEST && look.reply == OtherError)
  {
    hide BecomesTexted, TextPersonOk, MayHaveGone, Settle;
    var who := w.campaigns[c].people[p];
    var n, failedOnce := who.tries + 1, who.attempt.Some? && who.attempt.value.failedOnce;
    var a := Attempt(n, look.now, None, None, None, Some(MessageId(c, p, n)), None, false, false, false, None, None, failedOnce);
    var q := who.(state := Sending, tries := n, attempt := Some(a));
    SendingIsOk(c, p, who, q, look.now);
    AnsweredTextIsOk(c, p, who, q, look.now);
  }

  lemma SendingIsOk(c: nat, p: nat, who: Person, q: Person, now: int)
    requires TextPersonOk(c, p, who) && who.state == Queued && now > 0
    requires
      var failedOnce := who.attempt.Some? && who.attempt.value.failedOnce;
      q == who.(state := Sending, tries := who.tries + 1, attempt := Some(Attempt(who.tries + 1, now, None, None, None,
        Some(MessageId(c, p, who.tries + 1)), None, false, false, false, None, None, failedOnce)))
    ensures BecomesTexted(c, p, who, q, now, false)
  {
  }

  lemma AnsweredTextIsOk(c: nat, p: nat, who: Person, q: Person, now: int)
    requires BecomesTexted(c, p, who, q, now, false) && q.state == Sending
    ensures
      var a := q.attempt.value;
      && BecomesTexted(c, p, who, q.(state := AwaitingReply, attempt := Some(a.(sentAt := Some(now)))), now, false)
      && BecomesTexted(c, p, who, MayHaveGone(q), now, false)
      && BecomesTexted(c, p, who, Settle(q, InvalidNumber, now), now, false)
      && BecomesTexted(c, p, who, Settle(q, Unreachable, now), now, true)
      && (!a.failedOnce ==> BecomesTexted(c, p, who, q.(state := Queued, nextAt := now + Minutes(5), attempt := Some(a.(failedOnce := true))), now, true))
  {
  }

  lemma SentKeeps(w: World, clock: int, c: nat, p: nat, q: Person, number: Number, now: int, failed: bool)
    requires TextsOk(w, clock) && IsAt(w, c, p)
    requires NextText(w, clock, c, p, w.campaigns[c].people[p].tries + 1, number, now)
    requires BecomesTexted(c, p, w.campaigns[c].people[p], q, now, failed)
    ensures
      var w' := SetPerson(w, c, p, q).(trace := w.trace + SentEntries(c, p, w.campaigns[c].people[p].tries + 1, number, now, failed));
      TextsOk(w', now)
  {
    var who := w.campaigns[c].people[p];
    var w' := SetPerson(w, c, p, q).(trace := w.trace + SentEntries(c, p, who.tries + 1, number, now, failed));
    SentEntriesKeep(w, clock, c, p, number, now, failed);
    hide TraceOk, MayText, AllSentOk, AttemptsOk;
    AttemptsAfter(w, clock, c, p, q, w', now, failed);
    SentAfter(w, clock, c, p, q, w', number, now, failed);
  }

  lemma SentEntriesKeep(w: World, clock: int, c: nat, p: nat, number: Number, now: int, failed: bool)
    requires TextsOk(w, clock) && IsAt(w, c, p)
    requires NextText(w, clock, c, p, w.campaigns[c].people[p].tries + 1, number, now)
    ensures TraceOk(w.trace + SentEntries(c, p, w.campaigns[c].people[p].tries + 1, number, now, failed))
  {
    var n := w.campaigns[c].people[p].tries + 1;
    SendKeepsTrace(w, clock, c, p, n, number, now);
    hide TraceOk, TextsOk, NextText;
    var sent, all := w.trace + [Texted(c, p, n, number, now)], w.trace + SentEntries(c, p, n, number, now, failed);
    assert all == sent + if failed then [TextFailed(c, p, n)] else [];
    OthersKeep(sent, all);
  }

  lemma AttemptsAfter(w: World, clock: int, c: nat, p: nat, q: Person, w': World, now: int, failed: bool)
    requires AttemptsOk(w, clock) && IsAt(w, c, p) && clock <= now
    requires BecomesTexted(c, p, w.campaigns[c].people[p], q, now, failed)
    requires w' == SetPerson(w, c, p, q).(trace := w'.trace) && w.trace <= w'.trace
    requires failed ==> TextFailed(c, p, q.tries) in w'.trace
    ensures AttemptsOk(w', now)
  {
    forall d: nat, j: nat | d < |w'.campaigns| && j < |w'.campaigns[d].people|
      ensures AttemptOk(w', now, d, j)
    {
      assert AttemptOk(w, clock, d, j);
      assert forall e :: e in w.trace ==> e in w'.trace;
    }
  }

  lemma SentAfter(w: World, clock: int, c: nat, p: nat, q: Person, w': World, number: Number, now: int, failed: bool)
    requires AllSentOk(w, clock) && AttemptsOk(w, clock) && IsAt(w, c, p) && w.campaigns[c].kind == Texts && clock <= now && now > 0
    requires w.campaigns[c].people[p].number == number
    requires BecomesTexted(c, p, w.campaigns[c].people[p], q, now, failed)
    requires w' == SetPerson(w, c, p, q).(trace := w.trace + SentEntries(c, p, w.campaigns[c].people[p].tries + 1, number, now, failed))
    ensures AllSentOk(w', now)
  {
    forall i | 0 <= i < |w'.trace| && w'.trace[i].Texted?
      ensures SentOk(w', now, w'.trace[i])
    {
      if i < |w.trace| {
        assert SentOk(w, clock, w.trace[i]);
        assert AttemptOk(w, clock, c, p);
      }
    }
  }

  // ---- The look for the next text -------------------------------------------------------------------

  /** What a look for a text asked of the phone: nothing, or one text to one who may be texted. */
  ghost predicate TextedFairly(w: World, w': World, now: int, same: (Number, Number) -> bool) {
    || w'.trace == w.trace
    || exists c: nat, p: nat, n: nat, number: Number, failed: bool ::
         w'.trace == w.trace + SentEntries(c, p, n, number, now, failed) && MayContact(w, Texts, c, p, number, same)
  }

  lemma SendKeeps(w: World, clock: int, c: nat, p: nat, look: TextLook, same: (Number, Number) -> bool)
    requires Kept(w) && TextsOk(w, clock) && MayText(w, look.now) && clock <= look.now && look.now > 0
    requires IsAt(w, c, p) && w.campaigns[c].people[p].state == Queued
    requires MayContact(w, Texts, c, p, w.campaigns[c].people[p].number, same)
    ensures
      var w' := Send(w, c, p, look);
      Kept(w') && TextsOk(w', look.now) && GoesOn(w, w') && TextedFairly(w, w', look.now, same)
  {
    hide Kept, TextsOk, MayText, Send, TextPersonOk, MayContact;
    var w', who := Send(w, c, p, look), w.campaigns[c].people[p];
    MayBeTexted(w, clock, c, p, look, same);
    SendIs(w, c, p, look);
    var q := w'.campaigns[c].people[p];
    var failed := who.number != TEST && look.reply == OtherError;
    SentKeeps(w, clock, c, p, q, who.number, look.now, failed);
    SentGoesOn(w, c, p, q, look.now, failed);
    var w1 := SetPerson(w, c, p, q);
    SameKept(w1, w');
    SameGoesOn(w1, w');
    CampaignsGoOnJoin(w, w1, w');
  }

  lemma MayBeTexted(w: World, clock: int, c: nat, p: nat, look: TextLook, same: (Number, Number) -> bool)
    requires Kept(w) && TextsOk(w, clock) && MayText(w, look.now) && clock <= look.now && look.now > 0
    requires IsAt(w, c, p) && w.campaigns[c].people[p].state == Queued
    requires MayContact(w, Texts, c, p, w.campaigns[c].people[p].number, same)
    ensures IsAt(w, c, p) && TextPersonOk(c, p, w.campaigns[c].people[p]) && w.campaigns[c].kind == Texts
    ensures !Final(w.campaigns[c].people[p].state)
    ensures NextText(w, clock, c, p, w.campaigns[c].people[p].tries + 1, w.campaigns[c].people[p].number, look.now)
    ensures w.campaigns[c].people[p].attempt.Some? ==> w.campaigns[c].people[p].attempt.value.at <= look.now
  {
    hide MayText, TraceOk, AllSentOk;
    PersonIsOk(w, c, p);
    assert AttemptOk(w, clock, c, p);
  }

  lemma SentGoesOn(w: World, c: nat, p: nat, q: Person, now: int, failed: bool)
    requires Kept(w) && IsAt(w, c, p) && w.campaigns[c].kind == Texts && !Final(w.campaigns[c].people[p].state)
    requires w.campaigns[c].people[p].attempt.Some? ==> w.campaigns[c].people[p].attempt.value.at <= now
    requires BecomesTexted(c, p, w.campaigns[c].people[p], q, now, failed)
    ensures Kept(SetPerson(w, c, p, q)) && CampaignsGoOn(w, SetPerson(w, c, p, q))
  {
    hide Kept;
    ChangeKeeps(w, c, p, q);
    ChangeGoesOn(w, c, p, q);
  }

  /** One left out of a text campaign. */
  lemma LeavingOutTexts(w: World, clock: int, c: nat, p: nat, now: int)
    requires TextsOk(w, clock) && IsAt(w, c, p) && clock <= now && IsDue(Texts, w.campaigns[c].people[p], now)
    ensures TextsOk(LeaveOut(w, c, p, now), now)
    ensures MayText(w, now) ==> MayText(LeaveOut(w, c, p, now), now)
  {
    var w' := LeaveOut(w, c, p, now);
    forall d | 0 <= d < |w.campaigns|
      ensures CampaignMoves(w.campaigns[d], w'.campaigns[d])
    {
    }
    MovesKeepTexts(w, w', clock, now);
    hide TextsOk;
    SameRecent(w, c, p, now);
  }

  lemma SameRecent(w: World, c: nat, p: nat, now: int)
    requires IsAt(w, c, p)
    ensures MayText(w, now) ==> MayText(LeaveOut(w, c, p, now), now)
  {
    var w' := LeaveOut(w, c, p, now);
    forall d: nat, j: nat, span: int | d < |w'.campaigns| && j < |w'.campaigns[d].people|
      ensures TextedWithin(w'.campaigns[d], j, now, span) == TextedWithin(w.campaigns[d], j, now, span)
      ensures w'.campaigns[d].people[j].attempt == w.campaigns[d].people[j].attempt
    {
    }
    assert Recent(w', now, HOUR) == Recent(w, now, HOUR);
    assert Recent(w', now, DAY) == Recent(w, now, DAY);
  }

  lemma {:induction false} TextDueKeeps(w: World, clock: int, due: seq<(nat, nat)>, look: TextLook, same: (Number, Number) -> bool)
    requires Kept(w) && TextsOk(w, clock) && MayText(w, look.now) && clock <= look.now && look.now > 0
    requires DueThere(w, due) && DueFit(w, Texts, due, look.now) && NoRepeats(due)
    ensures
      var w' := TextDue(w, due, look, same);
      Kept(w') && TextsOk(w', look.now) && GoesOn(w, w') && TextedFairly(w, w', look.now, same)
    decreases |due|
  {
    hide Kept, TextsOk, MayText, CampaignsGoOn, Send, Settle, NoRepeats, TextedFairly, GoesOn;
    if due == [] {
      StillTextsOk(w, clock, look.now, same);
    } else {
      var (c, p) := due[0];
      var who := w.campaigns[c].people[p];
      if !look.inHours(c) {
        OneLess(w, due);
        TextDueKeeps(w, clock, due[1..], look, same);
      } else if who.number != TEST && (look.barred(who.number) || Listed(w.doNotContact, who.number, same)) {
        var w1 := LeaveOut(w, c, p, look.now);
        LeavingOutKeeps(w, c, p, look.now);
        LeavingOutTexts(w, clock, c, p, look.now);
        StillDue(w, Texts, due, look.now);
        TextDueKeeps(w1, look.now, due[1..], look, same);
        LeftOutThenTexted(w, c, p, TextDue(w1, due[1..], look, same), look.now, same);
      } else {
        SendKeeps(w, clock, c, p, look, same);
      }
    }
  }

  lemma StillTextsOk(w: World, clock: int, now: int, same: (Number, Number) -> bool)
    requires TextsOk(w, clock) && clock <= now
    ensures TextsOk(w, now) && GoesOn(w, w) && TextedFairly(w, w, now, same)
  {
    NoMove(w);
    MovesKeepTexts(w, w, clock, now);
    SameGoesOn(w, w);
  }

  lemma LeftOutThenTexted(w: World, c: nat, p: nat, w': World, now: int, same: (Number, Number) -> bool)
    requires IsAt(w, c, p) && GoesOn(w, LeaveOut(w, c, p, now)) && GoesOn(LeaveOut(w, c, p, now), w')
    requires TextedFairly(LeaveOut(w, c, p, now), w', now, same)
    ensures GoesOn(w, w') && TextedFairly(w, w', now, same)
  {
    hide CampaignsGoOn, MayContact, Settle, SentEntries;
    var w1 := LeaveOut(w, c, p, now);
    GoesOnJoin(w, w1, w');
    if w'.trace != w1.trace {
      var d: nat, q: nat, n: nat, number: Number, failed: bool :|
        w'.trace == w1.trace + SentEntries(d, q, n, number, now, failed) && MayContact(w1, Texts, d, q, number, same);
      ContactBefore(w, c, p, now, Texts, d, q, number, same);
    }
  }

  lemma TextKeeps(w: World, clock: int, look: TextLook, same: (Number, Number) -> bool)
    requires Kept(w) && TextsOk(w, clock) && clock <= look.now && look.now > 0
    ensures
      var w' := Text(w, look, same);
      Kept(w') && TextsOk(w', look.now) && GoesOn(w, w') && TextedFairly(w, w', look.now, same)
  {
    hide Kept, TextsOk, MayText, GoesOn, TextedFairly, TextDue, DueOf, RunningByAge;
    StillTextsOk(w, clock, look.now, same);
    var running := RunningByAge(w, Texts);
    RunningAreThere(w, Texts);
    RunningAreOnce(w, Texts);
    var due := DueOf(w, running, look.now);
    DueAreThere(w, Texts, running, look.now);
    DueAreOnce(w, running, look.now);
    if MayText(w, look.now) {
      TextDueKeeps(w, clock, due, look, same);
    }
  }

  // ---- A text failed -----------------------------------------------------------------------------------

  lemma DidFailKeeps(w: World, clock: int, c: nat, p: nat, now: int)
    requires Kept(w) && TextsOk(w, clock) && clock <= now && IsAt(w, c, p) && w.campaigns[c].kind == Texts
    requires w.campaigns[c].people[p].attempt.Some? && !Final(w.campaigns[c].people[p].state)
    ensures
      var w' := TextDidFail(w, c, p, now);
      Kept(w') && TextsOk(w', now) && GoesOn(w, w')
  {
    hide Kept, TraceOk, AllSentOk;
    var w' := TextDidFail(w, c, p, now);
    var q := w'.campaigns[c].people[p];
    PersonIsOk(w, c, p);
    FailedIsOk(c, p, w.campaigns[c].people[p], q, now);
    ChangeKeeps(w, c, p, q);
    SameKept(SetPerson(w, c, p, q), w');
    ChangeGoesOn(w, c, p, q);
    SameGoesOn(SetPerson(w, c, p, q), w');
    CampaignsGoOnJoin(w, SetPerson(w, c, p, q), w');
    AttemptsAfterFailure(w, clock, c, p, now);
    QuietKeeps(w, w', clock, now);
  }

  lemma FailedIsOk(c: nat, p: nat, who: Person, q: Person, now: int)
    requires TextPersonOk(c, p, who) && who.attempt.Some? && !Final(who.state)
    requires
      q == if !who.attempt.value.failedOnce then who.(state := Queued, nextAt := now + Minutes(5), attempt := Some(who.attempt.value.(failedOnce := true)))
           else Settle(who, Unreachable, now)
    ensures TextPersonOk(c, p, q) && PersonGoesOn(Texts, who, q) && q.state != Ended && !Live(q.state)
  {
  }

  lemma AttemptsAfterFailure(w: World, clock: int, c: nat, p: nat, now: int)
    requires AttemptsOk(w, clock) && clock <= now && IsAt(w, c, p)
    requires w.campaigns[c].people[p].attempt.Some? && w.campaigns[c].people[p].attempt.value.n == w.campaigns[c].people[p].tries
    ensures AttemptsOk(TextDidFail(w, c, p, now), now)
  {
    var w' := TextDidFail(w, c, p, now);
    forall d: nat, j: nat | d < |w'.campaigns| && j < |w'.campaigns[d].people|
      ensures AttemptOk(w', now, d, j)
    {
      assert AttemptOk(w, clock, d, j);
    }
  }

  lemma TextLostKeeps(w: World, clock: int, m: MessageId, unknown: bool, now: int)
    requires Kept(w) && TextsOk(w, clock) && clock <= now
    ensures
      var w' := OnTextLost(w, m, unknown, now);
      Kept(w') && TextsOk(w', now) && GoesOn(w, w') && OnlyOthers(w.trace, w'.trace)
  {
    hide Kept, TextsOk, CampaignsGoOn, TextDidFail;
    NoMove(w);
    MovesGoOn(w, w);
    MovesKeepTexts(w, w, clock, now);
    var hit := ByAttempt(w, ByMessage(m));
    if hit.Some? {
      var (c, p) := hit.value;
      MessageIsText(w, m, c, p);
      if unknown {
        TextInDoubtKeeps(w, m, now);
        MovesGoOn(w, OnTextLost(w, m, true, now));
        MovesKeepTexts(w, OnTextLost(w, m, true, now), clock, now);
      } else if !Final(w.campaigns[c].people[p].state) {
        DidFailKeeps(w, clock, c, p, now);
        FailureIsOther(w, c, p, now);
      }
    }
  }

  lemma FailureIsOther(w: World, c: nat, p: nat, now: int)
    requires IsAt(w, c, p) && w.campaigns[c].people[p].attempt.Some?
    ensures OnlyOthers(w.trace, TextDidFail(w, c, p, now).trace)
  {
  }

  lemma MessageIsText(w: World, m: MessageId, c: nat, p: nat)
    requires Kept(w) && IsHit(w, c, p, ByMessage(m))
    ensures w.campaigns[c].kind == Texts
  {
    PersonIsOk(w, c, p);
  }

  // ---- How many texts ------------------------------------------------------------------------------------

  /** The texts sent within `span` up to `t`. */
  ghost function SentIn(trace: seq<Entry>, t: int, span: int): set<nat> {
    set i: nat | i < |trace| && trace[i].Texted? && t - span < trace[i].at <= t
  }

  /** Forty people are at most eighty texts: no one is sent more than two. */
  lemma AtMostTwiceAsMany(w: World, clock: int, t: int, span: int)
    requires TextsOk(w, clock)
    ensures |SentIn(w.trace, t, span)| <= 2 * |TextedIn(w.trace, t, span)|
  {
    var sent := SentIn(w.trace, t, span);
    var firsts := set i: nat | i in sent && w.trace[i].n == 1;
    assert firsts + (sent - firsts) == sent;
    forall i | i in sent
      ensures w.trace[i].n == 1 || w.trace[i].n == 2
    {
      assert SentOk(w, clock, w.trace[i]);
    }
    OnePerPerson(w.trace, firsts, TextedIn(w.trace, t, span));
    OnePerPerson(w.trace, sent - firsts, TextedIn(w.trace, t, span));
  }

  lemma {:induction false} OnePerPerson(trace: seq<Entry>, some: set<nat>, people: set<(nat, nat)>)
    requires forall i :: i in some ==> i < |trace| && trace[i].Texted? && (trace[i].c, trace[i].p) in people
    requires forall i, j :: i in some && j in some ==> trace[i].n == trace[j].n
    requires IdsOnce(trace)
    ensures |some| <= |people|
    decreases some
  {
    if some != {} {
      var i :| i in some;
      var who := (trace[i].c, trace[i].p);
      forall j | j in some - {i}
        ensures (trace[j].c, trace[j].p) in people - {who}
      {
        assert i < j || j < i;
      }
      OnePerPerson(trace, some - {i}, people - {who});
    }
  }
}
