/**
 * A call's agent speaks its reply as it comes (class Speech,
 * app/src/sessions.ts:362-514): what each call to it makes of its state, what
 * every run keeps, and the class, proved against those.
 *
 * What is said next is a queue: a line waits for the one before it to be said,
 * and is dropped when the caller has spoken over the reply by then.
 */
module Speech {
  import opened Sentences

  /** What a line is as spoken, whether it is a filler word, what it is compared by, and whether that has four words. */
  datatype Words = Words(clean: string -> string, filler: string -> bool, key: string -> string, long: string -> bool)

  datatype Why = OfReply | Again | Hold | Now

  /** What came to pass, for what is kept of it. */
  datatype Mark = Uttered(line: string, why: Why) | Forgot(lines: seq<string>) | CallBegan | TurnBegan

  datatype Line = Line(text: string, hold: bool)

  /** A line's turn to be said: said, or dropped. */
  datatype Played = Said(line: Line) | Dropped(line: Line)

  datatype Talk = Talk(
    buffer: string, hushed: bool, said: set<string>, spoke: bool, repeated: seq<string>, reply: seq<string>,
    fillerOk: bool, acknowledged: bool, queue: seq<Line>, played: seq<Played>, log: seq<Mark>)

  const SILENT := Talk("", false, {}, false, [], [], true, false, [], [], [])

  // ---- What each call makes of it -----------------------------------------------------------

  function Enqueue(t: Talk, line: string, why: Why): Talk {
    t.(spoke := t.spoke || why != Hold, reply := if why != Hold then t.reply + [line] else t.reply,
       queue := t.queue + [Line(line, why == Hold)], log := t.log + [Uttered(line, why)])
  }

  /** The line is not said: nothing to say, or a filler that does not open the reply. */
  predicate Passes(t: Talk, clean: string, w: Words) {
    clean == "" || (w.filler(clean) && !t.fillerOk)
  }

  function Speak(t: Talk, text: string, w: Words): Talk {
    var clean := w.clean(text);
    if clean == "" then t
    else
      var u := t.(fillerOk := false);
      if Passes(t, clean, w) then u
      else if w.long(w.key(clean)) && w.key(clean) in t.said then u.(repeated := t.repeated + [clean])
      else Enqueue(u.(said := if w.long(w.key(clean)) then t.said + {w.key(clean)} else t.said), clean, OfReply)
  }

  function SpeakAll(t: Talk, pieces: seq<string>, w: Words): Talk
    decreases |pieces|
  {
    if pieces == [] then t else SpeakAll(Speak(t, pieces[0], w), pieces[1..], w)
  }

  function Begin(t: Talk, afterTool: bool): Talk {
    var u := t.(hushed := false, buffer := "", spoke := false, repeated := [], reply := [], fillerOk := !afterTool);
    if afterTool then u else u.(acknowledged := false, log := t.log + [TurnBegan])
  }

  function HoldLine(t: Talk, line: string, w: Words): Talk {
    if t.hushed || t.spoke then t else Speak(t, line, w)
  }

  function HoldWord(t: Talk, word: string, w: Words): Talk {
    if w.clean(word) == "" || t.hushed || t.spoke || t.acknowledged then t
    else Enqueue(t.(acknowledged := true, fillerOk := false), w.clean(word), Hold)
  }

  function NewCall(t: Talk): Talk {
    t.(said := {}, log := t.log + [CallBegan])
  }

  function Push(t: Talk, delta: string, w: Words): Talk {
    if t.hushed then t
    else
      var cut := Pieces(t.buffer + delta);
      SpeakAll(t, cut.0, w).(buffer := cut.1)
  }

  function Take(t: Talk, w: Words): (Talk, string) {
    var rest := if t.hushed then "" else w.clean(t.buffer);
    (t.(buffer := "", repeated := [], spoke := t.spoke || rest != ""), rest)
  }

  function SayNow(t: Talk, text: string, w: Words): Talk {
    if w.clean(text) != "" && !t.hushed then Enqueue(t, w.clean(text), Now) else t
  }

  function SayAgain(t: Talk, lines: seq<string>): Talk
    decreases |lines|
  {
    if lines == [] then t else SayAgain(Enqueue(t, lines[0], Again), lines[1..])
  }

  function Flush(t: Talk, w: Words): Talk {
    var u := if t.hushed then t else Speak(t, t.buffer, w);
    var v := if !t.hushed && !u.spoke then SayAgain(u, u.repeated) else u;
    v.(buffer := "", repeated := [])
  }

  function Hush(t: Talk): Talk {
    t.(hushed := true, buffer := "")
  }

  function Keys(lines: seq<string>, w: Words): set<string> {
    set i | 0 <= i < |lines| :: w.key(lines[i])
  }

  function Unsay(t: Talk, lines: seq<string>, w: Words): Talk {
    t.(said := t.said - Keys(lines, w), log := t.log + [Forgot(lines)])
  }

  /** The next line's turn. */
  function Play(t: Talk): Talk {
    if t.queue == [] then t
    else t.(queue := t.queue[1..], played := t.played + [if t.hushed then Dropped(t.queue[0]) else Said(t.queue[0])])
  }

  datatype Step =
    | Begins(afterTool: bool) | Holds(line: string) | HoldsWord(word: string) | CallBegins | Pushes(delta: string) | Takes
    | SaysNow(text: string) | Flushes | Hushes | Unsays(lines: seq<string>) | Plays

  function Next(t: Talk, s: Step, w: Words): Talk {
    match s
    case Begins(afterTool) => Begin(t, afterTool)
    case Holds(line) => HoldLine(t, line, w)
    case HoldsWord(word) => HoldWord(t, word, w)
    case CallBegins => NewCall(t)
    case Pushes(delta) => Push(t, delta, w)
    case Takes => Take(t, w).0
    case SaysNow(text) => SayNow(t, text, w)
    case Flushes => Flush(t, w)
    case Hushes => Hush(t)
    case Unsays(lines) => Unsay(t, lines, w)
    case Plays => Play(t)
  }

  /** What was said, from the first line on, by the steps taken. */
  function After(steps: seq<Step>, w: Words): Talk {
    if steps == [] then SILENT else Next(After(steps[..|steps| - 1], w), steps[|steps| - 1], w)
  }

  // ---- What every run keeps ---------------------------------------------------------------------

  /** A sentence said is one of the reply's, long enough to be compared. */
  predicate Compared(m: Mark, w: Words) {
    m.Uttered? && m.why == OfReply && w.long(w.key(m.line))
  }

  predicate Forgets(m: Mark, key: string, w: Words) {
    m.CallBegan? || (m.Forgot? && key in Keys(m.lines, w))
  }

  /** The sentences said on this call and not taken back: what `said` holds. */
  function SaidOf(log: seq<Mark>, w: Words): set<string> {
    if log == [] then {}
    else
      var before, m := SaidOf(log[..|log| - 1], w), log[|log| - 1];
      match m
      case CallBegan => {}
      case Forgot(lines) => before - Keys(lines, w)
      case Uttered(_, _) => if Compared(m, w) then before + {w.key(m.line)} else before
      case TurnBegan => before
  }

  /** No sentence is said twice, but for a new call or its being taken back between. */
  ghost predicate NotTwice(log: seq<Mark>, w: Words) {
    forall i, j :: 0 <= i < j < |log| && Compared(log[i], w) && Compared(log[j], w) && w.key(log[i].line) == w.key(log[j].line) ==>
      exists m :: i < m < j && Forgets(log[m], w.key(log[j].line), w)
  }

  predicate FillerMark(m: Mark, w: Words) {
    m.Uttered? && m.why == OfReply && w.filler(m.line)
  }

  predicate HoldMark(m: Mark) {
    m.Uttered? && m.why == Hold
  }

  /** A turn began between two marks. */
  ghost predicate TurnBetween(log: seq<Mark>, i: nat, j: nat)
    requires j <= |log|
  {
    exists m :: i < m < j && log[m] == TurnBegan
  }

  /** A line of the reply, or a hold word (not words said now, or again). */
  predicate TurnMark(m: Mark) {
    m.Uttered? && (m.why == OfReply || m.why == Hold)
  }

  /** A filler comes first in its turn. */
  ghost predicate FillersFirst(log: seq<Mark>, w: Words) {
    forall i, j :: 0 <= i < j < |log| && TurnMark(log[i]) && FillerMark(log[j], w) ==> TurnBetween(log, i, j)
  }

  ghost predicate HoldsOnce(log: seq<Mark>) {
    forall i, j :: 0 <= i < j < |log| && HoldMark(log[i]) && HoldMark(log[j]) ==> TurnBetween(log, i, j)
  }

  /** Nothing of the turn is said yet. */
  ghost predicate Opening(log: seq<Mark>) {
    forall i :: 0 <= i < |log| && TurnMark(log[i]) ==> TurnBetween(log, i, |log|)
  }

  ghost predicate NotHeld(log: seq<Mark>) {
    forall i :: 0 <= i < |log| && HoldMark(log[i]) ==> TurnBetween(log, i, |log|)
  }

  function LinesOf(log: seq<Mark>): seq<Line> {
    if log == [] then []
    else
      var m := log[|log| - 1];
      LinesOf(log[..|log| - 1]) + if m.Uttered? then [Line(m.line, m.why == Hold)] else []
  }

  function PlayedLines(played: seq<Played>): (r: seq<Line>)
    ensures |r| == |played| && forall i :: 0 <= i < |played| ==> r[i] == played[i].line
  {
    seq(|played|, i requires 0 <= i < |played| => played[i].line)
  }

  ghost predicate Kept(t: Talk, w: Words) {
    && t.said == SaidOf(t.log, w) && NotTwice(t.log, w)
    && FillersFirst(t.log, w) && (t.fillerOk ==> Opening(t.log))
    && HoldsOnce(t.log) && (!t.acknowledged ==> NotHeld(t.log))
    && LinesOf(t.log) == PlayedLines(t.played) + t.queue
  }

  // ---- The log grows by a mark --------------------------------------------------------------------

  /** A sentence said since is in `said`, or it was taken back. */
  lemma {:induction false} SaidOrForgotten(log: seq<Mark>, i: nat, w: Words)
    requires i < |log| && Compared(log[i], w)
    ensures w.key(log[i].line) in SaidOf(log, w) || exists m :: i < m < |log| && Forgets(log[m], w.key(log[i].line), w)
  {
    var key, last := w.key(log[i].line), log[|log| - 1];
    if i < |log| - 1 {
      var before := log[..|log| - 1];
      SaidOrForgotten(before, i, w);
      if key !in SaidOf(before, w) {
        var m :| i < m < |before| && Forgets(before[m], key, w);
        assert Forgets(log[m], key, w);
      } else if key !in SaidOf(log, w) {
        assert Forgets(log[|log| - 1], key, w);
      }
    }
  }

  lemma UtteringKeeps(log: seq<Mark>, line: string, why: Why, w: Words)
    requires NotTwice(log, w) && (why == OfReply && w.long(w.key(line)) ==> w.key(line) !in SaidOf(log, w))
    ensures NotTwice(log + [Uttered(line, why)], w)
  {
    var log' := log + [Uttered(line, why)];
    forall i, j | 0 <= i < j < |log'| && Compared(log'[i], w) && Compared(log'[j], w) && w.key(log'[i].line) == w.key(log'[j].line)
      ensures exists m :: i < m < j && Forgets(log'[m], w.key(log'[j].line), w)
    {
      if j < |log| {
        var m :| i < m < j && Forgets(log[m], w.key(log[j].line), w);
        assert Forgets(log'[m], w.key(log'[j].line), w);
      } else {
        SaidOrForgotten(log, i, w);
        var m :| i < m < |log| && Forgets(log[m], w.key(log[i].line), w);
        assert Forgets(log'[m], w.key(log'[j].line), w);
      }
    }
  }

  /** A mark that is not a line said. */
  lemma OtherMarkKeeps(log: seq<Mark>, m: Mark, w: Words)
    requires NotTwice(log, w) && !m.Uttered?
    ensures NotTwice(log + [m], w)
  {
    var log' := log + [m];
    forall i, j | 0 <= i < j < |log'| && Compared(log'[i], w) && Compared(log'[j], w) && w.key(log'[i].line) == w.key(log'[j].line)
      ensures exists n :: i < n < j && Forgets(log'[n], w.key(log'[j].line), w)
    {
      var n :| i < n < j && Forgets(log[n], w.key(log[j].line), w);
      assert Forgets(log'[n], w.key(log'[j].line), w);
    }
  }

  lemma TurnStays(log: seq<Mark>, m: Mark, i: nat, j: nat)
    requires j <= |log|
    ensures TurnBetween(log, i, j) ==> TurnBetween(log + [m], i, j) && TurnBetween(log + [m], i, |log| + 1)
    ensures m == TurnBegan && i < |log| ==> TurnBetween(log + [m], i, |log| + 1)
  {
    if TurnBetween(log, i, j) {
      var n :| i < n < j && log[n] == TurnBegan;
      assert (log + [m])[n] == TurnBegan;
    }
    assert (log + [m])[|log|] == m;
  }

  lemma FillersKeep(log: seq<Mark>, m: Mark, w: Words)
    requires FillersFirst(log, w) && (FillerMark(m, w) ==> Opening(log))
    ensures FillersFirst(log + [m], w)
  {
    var log' := log + [m];
    forall i, j | 0 <= i < j < |log'| && TurnMark(log'[i]) && FillerMark(log'[j], w)
      ensures TurnBetween(log', i, j)
    {
      assert log'[i] == log[i];
      TurnStays(log, m, i, j);
      assert j < |log| ==> log'[j] == log[j];
    }
  }

  lemma OpeningStays(log: seq<Mark>, m: Mark)
    ensures m == TurnBegan ==> Opening(log + [m]) && NotHeld(log + [m])
    ensures Opening(log) && !TurnMark(m) ==> Opening(log + [m])
    ensures NotHeld(log) && !HoldMark(m) ==> NotHeld(log + [m])
  {
    var log' := log + [m];
    forall i | 0 <= i < |log|
      ensures log'[i] == log[i] && (TurnBetween(log, i, |log|) || m == TurnBegan ==> TurnBetween(log', i, |log'|))
    {
      TurnStays(log, m, i, |log|);
    }
  }

  lemma HoldsKeep(log: seq<Mark>, m: Mark)
    requires HoldsOnce(log) && (HoldMark(m) ==> NotHeld(log))
    ensures HoldsOnce(log + [m])
  {
    var log' := log + [m];
    forall i, j | 0 <= i < j < |log'| && HoldMark(log'[i]) && HoldMark(log'[j])
      ensures TurnBetween(log', i, j)
    {
      assert log'[i] == log[i];
      TurnStays(log, m, i, j);
      assert j < |log| ==> log'[j] == log[j];
    }
  }

  // ---- Each step keeps it ----------------------------------------------------------------------------

  /** What may be said next, so that what is kept stays so. */
  predicate MayUtter(t: Talk, line: string, why: Why, w: Words) {
    && (why == OfReply && w.long(w.key(line)) ==> w.key(line) !in t.said)
    && (why == OfReply && w.filler(line) ==> t.fillerOk)
    && (why == Hold ==> !t.acknowledged)
  }

  /** A line is said: what else changes goes with it. */
  lemma EnqueueKeeps(t: Talk, t': Talk, line: string, why: Why, w: Words)
    requires Kept(t, w) && MayUtter(t, line, why, w)
    requires t'.log == t.log + [Uttered(line, why)] && t'.queue == t.queue + [Line(line, why == Hold)] && t'.played == t.played
    requires t'.said == if why == OfReply && w.long(w.key(line)) then t.said + {w.key(line)} else t.said
    requires t'.fillerOk == if why == OfReply || why == Hold then false else t.fillerOk
    requires t'.acknowledged == (t.acknowledged || why == Hold)
    ensures Kept(t', w)
  {
    hide NotTwice, FillersFirst, HoldsOnce, Opening, NotHeld;
    UtteringKeeps(t.log, line, why, w);
    FillersKeep(t.log, Uttered(line, why), w);
    HoldsKeep(t.log, Uttered(line, why));
    OpeningStays(t.log, Uttered(line, why));
    assert t'.log[..|t.log|] == t.log;
  }

  lemma QuietKeeps(t: Talk, t': Talk, w: Words)
    requires Kept(t, w) && t'.log == t.log && t'.said == t.said && t'.queue == t.queue && t'.played == t.played
    requires (t'.fillerOk ==> t.fillerOk) && t'.acknowledged == t.acknowledged
    ensures Kept(t', w)
  {
  }

  lemma SpeakKeeps(t: Talk, text: string, w: Words)
    requires Kept(t, w)
    ensures Kept(Speak(t, text, w), w)
  {
    hide Kept;
    var clean, t' := w.clean(text), Speak(t, text, w);
    if t'.log == t.log {
      QuietKeeps(t, t', w);
    } else {
      EnqueueKeeps(t, t', clean, OfReply, w);
    }
  }

  lemma {:induction false} SpeakAllKeeps(t: Talk, pieces: seq<string>, w: Words)
    requires Kept(t, w)
    ensures Kept(SpeakAll(t, pieces, w), w)
    decreases |pieces|
  {
    hide Kept, Speak;
    if pieces != [] {
      SpeakKeeps(t, pieces[0], w);
      SpeakAllKeeps(Speak(t, pieces[0], w), pieces[1..], w);
    }
  }

  lemma {:induction false} SayAgainKeeps(t: Talk, lines: seq<string>, w: Words)
    requires Kept(t, w)
    ensures Kept(SayAgain(t, lines), w)
    decreases |lines|
  {
    hide Kept;
    if lines != [] {
      EnqueueKeeps(t, Enqueue(t, lines[0], Again), lines[0], Again, w);
      SayAgainKeeps(Enqueue(t, lines[0], Again), lines[1..], w);
    }
  }

  /** A new turn, or a call begun, or sentences taken back. */
  lemma MarkKeeps(t: Talk, t': Talk, m: Mark, w: Words)
    requires Kept(t, w) && !m.Uttered? && t'.log == t.log + [m] && t'.queue == t.queue && t'.played == t.played
    requires t'.said == (match m case CallBegan => {} case Forgot(lines) => t.said - Keys(lines, w) case _ => t.said)
    requires (t'.fillerOk ==> t.fillerOk || m == TurnBegan) && (!t'.acknowledged ==> !t.acknowledged || m == TurnBegan)
    ensures Kept(t', w)
  {
    hide NotTwice, FillersFirst, HoldsOnce, Opening, NotHeld;
    OtherMarkKeeps(t.log, m, w);
    FillersKeep(t.log, m, w);
    HoldsKeep(t.log, m);
    OpeningStays(t.log, m);
    assert t'.log[..|t.log|] == t.log;
  }

  lemma PlayKeeps(t: Talk, w: Words)
    requires Kept(t, w)
    ensures Kept(Play(t), w)
  {
    hide NotTwice, FillersFirst, HoldsOnce, Opening, NotHeld, SaidOf, LinesOf;
    if t.queue != [] {
      assert t.queue == [t.queue[0]] + t.queue[1..];
      assert PlayedLines(Play(t).played) == PlayedLines(t.played) + [t.queue[0]];
    }
  }

  lemma FlushKeeps(t: Talk, w: Words)
    requires Kept(t, w)
    ensures Kept(Flush(t, w), w)
  {
    hide Kept, Speak, SayAgain;
    var u := if t.hushed then t else Speak(t, t.buffer, w);
    SpeakKeeps(t, t.buffer, w);
    SayAgainKeeps(u, u.repeated, w);
    var v := if !t.hushed && !u.spoke then SayAgain(u, u.repeated) else u;
    QuietKeeps(v, Flush(t, w), w);
  }

  lemma NextKeeps(t: Talk, s: Step, w: Words)
    requires Kept(t, w)
    ensures Kept(Next(t, s, w), w)
  {
    hide Kept, Speak, SpeakAll, SayAgain, Pieces, Flush, Play;
    var t' := Next(t, s, w);
    match s
    case Begins(afterTool) => if afterTool { QuietKeeps(t, t', w); } else { MarkKeeps(t, t', TurnBegan, w); }
    case Holds(line) => SpeakKeeps(t, line, w);
    case HoldsWord(word) => if t' != t { EnqueueKeeps(t, t', w.clean(word), Hold, w); }
    case CallBegins => MarkKeeps(t, t', CallBegan, w);
    case Pushes(delta) =>
      var cut := Pieces(t.buffer + delta);
      SpeakAllKeeps(t, cut.0, w);
      if !t.hushed {
        QuietKeeps(SpeakAll(t, cut.0, w), t', w);
      }
    case Takes => QuietKeeps(t, t', w);
    case SaysNow(text) => if t' != t { EnqueueKeeps(t, t', w.clean(text), Now, w); }
    case Flushes => FlushKeeps(t, w);
    case Hushes => QuietKeeps(t, t', w);
    case Unsays(lines) => MarkKeeps(t, t', Forgot(lines), w);
    case Plays => PlayKeeps(t, w);
  }

  /**
   * Every run: no sentence of four words or more is said twice on a call but
   * when it was taken back (or by words said now, or a reply with nothing
   * new); a filler only opens a turn; a turn has one hold word at most; and
   * every line has its turn once, in order.
   */
  lemma {:induction false} EveryRunKeeps(steps: seq<Step>, w: Words)
    ensures Kept(After(steps, w), w)
  {
    hide Next, Kept;
    if steps == [] {
      NothingKept(w);
    } else {
      EveryRunKeeps(steps[..|steps| - 1], w);
      NextKeeps(After(steps[..|steps| - 1], w), steps[|steps| - 1], w);
    }
  }

  lemma NothingKept(w: Words)
    ensures Kept(SILENT, w)
  {
  }

  // ---- A reply heard whole ------------------------------------------------------------------------------

  function PushAll(t: Talk, deltas: seq<string>, w: Words): Talk
    decreases |deltas|
  {
    if deltas == [] then t else PushAll(Push(t, deltas[0], w), deltas[1..], w)
  }

  lemma {:induction false} SpeakingLeaves(t: Talk, pieces: seq<string>, w: Words)
    ensures SpeakAll(t, pieces, w).buffer == t.buffer && SpeakAll(t, pieces, w).hushed == t.hushed
    decreases |pieces|
  {
    if pieces != [] {
      SpeakingLeaves(Speak(t, pieces[0], w), pieces[1..], w);
    }
  }

  lemma {:induction false} SpeakingBoth(t: Talk, a: seq<string>, b: seq<string>, w: Words)
    ensures SpeakAll(t, a + b, w) == SpeakAll(SpeakAll(t, a, w), b, w)
    decreases |a|
  {
    hide Speak;
    if a == [] {
      assert a + b == b;
    } else {
      assert (a + b)[1..] == a[1..] + b;
      SpeakingBoth(Speak(t, a[0], w), a[1..], b, w);
    }
  }

  /** What is spoken does not look at the buffer. */
  lemma {:induction false} SpeakingOnly(t: Talk, buffer: string, pieces: seq<string>, w: Words)
    ensures SpeakAll(t.(buffer := buffer), pieces, w) == SpeakAll(t, pieces, w).(buffer := buffer)
    decreases |pieces|
  {
    if pieces != [] {
      SpeakingOnly(Speak(t, pieces[0], w), buffer, pieces[1..], w);
      assert Speak(t.(buffer := buffer), pieces[0], w) == Speak(t, pieces[0], w).(buffer := buffer);
    }
  }

  lemma NothingSpoken(t: Talk, w: Words)
    ensures SpeakAll(t, [], w) == t
  {
  }

  lemma NoPieces(buffer: string)
    requires PieceEnd(buffer) == 0
    ensures Pieces(buffer) == ([], buffer)
  {
  }

  /** One piece more is cut, and spoken. */
  lemma OnePieceMore(before: Talk, pieces: seq<string>, buffer: string, w: Words)
    requires PieceEnd(buffer) != 0
    ensures
      var at := PieceEnd(buffer);
      var piece, rest := buffer[..at], buffer[at..];
      && (pieces + Pieces(buffer).0, Pieces(buffer).1) == ((pieces + [piece]) + Pieces(rest).0, Pieces(rest).1)
      && Speak(SpeakAll(before, pieces, w).(buffer := buffer), piece, w).(buffer := rest) == SpeakAll(before, pieces + [piece], w).(buffer := rest)
      && Speak(SpeakAll(before, pieces, w).(buffer := buffer), piece, w).hushed == before.hushed
      && Speak(SpeakAll(before, pieces, w).(buffer := buffer), piece, w).buffer == buffer
  {
    hide Speak, PieceEnd;
    var at := PieceEnd(buffer);
    var piece, t := buffer[..at], SpeakAll(before, pieces, w);
    SpeakingBoth(before, pieces, [piece], w);
    SpeakingLeaves(before, pieces, w);
    OneSpoken(t, piece, w);
    OneSpoken(t.(buffer := buffer), piece, w);
    SpeakingOnly(t, buffer, [piece], w);
    SpeakingLeaves(t.(buffer := buffer), [piece], w);
    assert pieces + ([piece] + Pieces(buffer[at..]).0) == (pieces + [piece]) + Pieces(buffer[at..]).0;
  }

  lemma OneSpoken(t: Talk, piece: string, w: Words)
    ensures SpeakAll(t, [piece], w) == Speak(t, piece, w)
  {
    assert [piece][1..] == [];
    NothingSpoken(Speak(t, piece, w), w);
  }

  /** Pushing a reply piece by piece speaks what feeding it to the sentence cutter gives, in order. */
  lemma {:induction false} PushingIsFeeding(t: Talk, deltas: seq<string>, w: Words)
    requires !t.hushed
    ensures PushAll(t, deltas, w) == SpeakAll(t, Fed(t.buffer, deltas).0, w).(buffer := Fed(t.buffer, deltas).1)
    decreases |deltas|
  {
    hide Speak, Pieces;
    if deltas != [] {
      var cut := Pieces(t.buffer + deltas[0]);
      var u := Push(t, deltas[0], w);
      SpeakingLeaves(t, cut.0, w);
      PushingIsFeeding(u, deltas[1..], w);
      var rest := Fed(cut.1, deltas[1..]);
      SpeakingOnly(SpeakAll(t, cut.0, w), cut.1, rest.0, w);
      SpeakingBoth(t, cut.0, rest.0, w);
    }
  }

  /** Streaming loses nothing: the pieces spoken, and the buffer, are the buffer there was and all that was pushed. */
  lemma StreamingLosesNothing(t: Talk, deltas: seq<string>, w: Words)
    requires !t.hushed
    ensures exists pieces ::
      && Joined(pieces) + PushAll(t, deltas, w).buffer == t.buffer + Joined(deltas)
      && PushAll(t, deltas, w) == SpeakAll(t, pieces, w).(buffer := PushAll(t, deltas, w).buffer)
  {
    PushingIsFeeding(t, deltas, w);
    FedLosesNothing(t.buffer, deltas);
    var pieces := Fed(t.buffer, deltas).0;
    assert Joined(pieces) + PushAll(t, deltas, w).buffer == t.buffer + Joined(deltas);
  }

  /** Where no piece of the text can be cut two ways, nothing of what is said depends on how it came. */
  lemma HowItCameDoesNotMatter(t: Talk, a: seq<string>, b: seq<string>, w: Words)
    requires !t.hushed && t.buffer == "" && Joined(a) == Joined(b) && CutAlike(Joined(a))
    ensures PushAll(t, a, w) == PushAll(t, b, w)
  {
    hide CutAlike, Pieces, SpeakAll, PushAll, Fed;
    assert "" + Joined(a) == Joined(a) && "" + Joined(b) == Joined(b);
    assert PieceEnd("") == 0;
    PushingIsFeeding(t, a, w);
    PushingIsFeeding(t, b, w);
    ChunksDoNotMatter("", a);
    ChunksDoNotMatter("", b);
  }

  // ---- Never silence, and what a hush drops --------------------------------------------------------------

  /** Something of the reply was spoken, or is held back as said before. */
  predicate HasSomething(t: Talk) {
    t.spoke || t.repeated != []
  }

  lemma SpeakOffers(t: Talk, text: string, w: Words)
    ensures HasSomething(t) || !Passes(t, w.clean(text), w) <==> HasSomething(Speak(t, text, w))
  {
  }

  /** Flushing leaves a reply spoken exactly when a sentence of it was spoken, was held back, or is in the buffer. */
  lemma NeverSilent(t: Talk, w: Words)
    requires !t.hushed
    ensures Flush(t, w).spoke <==> HasSomething(t) || !Passes(t, w.clean(t.buffer), w)
  {
    hide Speak;
    var u := Speak(t, t.buffer, w);
    SpeakOffers(t, t.buffer, w);
    if !u.spoke {
      SayingAgainSpeaks(u, u.repeated);
    }
  }

  lemma {:induction false} SayingAgainSpeaks(t: Talk, lines: seq<string>)
    ensures SayAgain(t, lines).spoke <==> t.spoke || lines != []
    decreases |lines|
  {
    if lines != [] {
      SayingAgainSpeaks(Enqueue(t, lines[0], Again), lines[1..]);
    }
  }

  function PlayOut(t: Talk): Talk
    decreases |t.queue|
  {
    if t.queue == [] then t else PlayOut(Play(t))
  }

  function AsPlayed(lines: seq<Line>, hushed: bool): (r: seq<Played>)
    ensures |r| == |lines| && forall i :: 0 <= i < |lines| ==> r[i] == if hushed then Dropped(lines[i]) else Said(lines[i])
  {
    seq(|lines|, i requires 0 <= i < |lines| => if hushed then Dropped(lines[i]) else Said(lines[i]))
  }

  lemma {:induction false} PlaysOut(t: Talk)
    ensures PlayOut(t) == t.(queue := [], played := t.played + AsPlayed(t.queue, t.hushed))
    decreases |t.queue|
  {
    if t.queue == [] {
      assert t.played + AsPlayed(t.queue, t.hushed) == t.played;
    } else {
      PlaysOut(Play(t));
      assert t.played + AsPlayed(t.queue, t.hushed) == Play(t).played + AsPlayed(t.queue[1..], t.hushed);
    }
  }

  /**
   * Spoken over, the lines still queued are dropped as their turns come; but a
   * reply begun before that (after a tool, say) says them all. They are dropped
   * exactly when none is left by then.
   */
  lemma HushedUntilTheNextBegins(t: Talk, afterTool: bool)
    ensures PlayOut(Hush(t)).played == t.played + AsPlayed(t.queue, true)
    ensures PlayOut(Begin(Hush(t), afterTool)).played == t.played + AsPlayed(t.queue, false)
    ensures PlayOut(Begin(Hush(t), afterTool)).played == PlayOut(Hush(t)).played <==> t.queue == []
  {
    PlaysOut(Hush(t));
    PlaysOut(Begin(Hush(t), afterTool));
    if t.queue != [] {
      assert (t.played + AsPlayed(t.queue, true))[|t.played|] != (t.played + AsPlayed(t.queue, false))[|t.played|];
    }
  }

  // ---- The class -----------------------------------------------------------------------------------------------

  class Speaker {
    const words: Words
    var buffer: string
    var hushed: bool
    var said: set<string>
    var spoke: bool
    var repeated: seq<string>
    var reply: seq<string>
    var fillerOk: bool
    var acknowledged: bool
    var queue: seq<Line>
    var played: seq<Played>
    ghost var log: seq<Mark>

    constructor (words: Words)
      ensures this.words == words && Talking() == SILENT
    {
      this.words := words;
      buffer, hushed, said, spoke, repeated, reply, fillerOk, acknowledged := "", false, {}, false, [], [], true, false;
      queue, played, log := [], [], [];
    }

    ghost function Talking(): Talk
      reads this
    {
      Talk(buffer, hushed, said, spoke, repeated, reply, fillerOk, acknowledged, queue, played, log)
    }

    method BeginReply(afterTool: bool)
      modifies this
      ensures Talking() == Begin(old(Talking()), afterTool)
    {
      hushed, buffer, spoke, repeated, reply, fillerOk := false, "", false, [], [], !afterTool;
      if !afterTool {
        acknowledged := false;
        log := log + [TurnBegan];
      }
    }

    method SayLine(line: string, why: Why)
      modifies this
      ensures Talking() == Enqueue(old(Talking()), line, why)
    {
      if why != Hold {
        spoke := true;
        reply := reply + [line];
      }
      queue := queue + [Line(line, why == Hold)];
      log := log + [Uttered(line, why)];
    }

    method SpeakText(text: string)
      modifies this
      ensures Talking() == Speak(old(Talking()), text, words)
    {
      var clean := words.clean(text);
      if clean == "" {
        return;
      }
      if words.filler(clean) {
        var ok := fillerOk;
        fillerOk := false;
        if !ok {
          return;
        }
      } else {
        fillerOk := false;
      }
      var key := words.key(clean);
      if words.long(key) {
        if key in said {
          repeated := repeated + [clean];
          return;
        }
        said := said + {key};
      }
      SayLine(clean, OfReply);
    }

    /** The reply's next words: every sentence they complete is spoken, in order. */
    method PushDelta(delta: string)
      modifies this
      ensures Talking() == Push(old(Talking()), delta, words)
    {
      hide Speak, SpeakAll, Pieces, PieceEnd;
      if hushed {
        return;
      }
      ghost var before, pieces, cut := Talking(), [], Pieces(buffer + delta);
      buffer := buffer + delta;
      assert [] + cut.0 == cut.0;
      assert SpeakAll(before, [], words) == before by { NothingSpoken(before, words); }
      while true
        invariant !hushed && cut == (pieces + Pieces(buffer).0, Pieces(buffer).1)
        invariant Talking() == SpeakAll(before, pieces, words).(buffer := buffer)
        decreases |buffer|
      {
        var at := PieceEnd(buffer);
        if at == 0 {
          NoPieces(buffer);
          assert pieces + Pieces(buffer).0 == pieces;
          return;
        }
        var piece := buffer[..at];
        OnePieceMore(before, pieces, buffer, words);
        SpeakText(piece);
        pieces := pieces + [piece];
        buffer := buffer[at..];
      }
    }

    /** Speaks the buffer, and where that leaves the reply unspoken, every line held back. */
    method FlushReply()
      modifies this
      ensures Talking() == Flush(old(Talking()), words)
    {
      hide Speak;
      if !hushed {
        SpeakText(buffer);
        if !spoke {
          ghost var before, lines := Talking(), repeated;
          var i := 0;
          while i < |repeated|
            invariant 0 <= i <= |repeated| && repeated == lines
            invariant SayAgain(Talking(), lines[i..]) == SayAgain(before, lines)
          {
            assert lines[i..][0] == lines[i] && lines[i..][1..] == lines[i + 1..];
            SayLine(repeated[i], Again);
            i := i + 1;
          }
        }
      }
      buffer, repeated := "", [];
    }

    method TakeRest() returns (rest: string)
      modifies this
      ensures (Talking(), rest) == Take(old(Talking()), words)
    {
      rest := if hushed then "" else words.clean(buffer);
      buffer, repeated := "", [];
      if rest != "" {
        spoke := true;
      }
    }

    method SayHoldWord(word: string) returns (held: bool)
      modifies this
      ensures Talking() == HoldWord(old(Talking()), word, words)
      ensures held <==> Talking() != old(Talking())
    {
      var clean := words.clean(word);
      if clean == "" || hushed || spoke || acknowledged {
        return false;
      }
      acknowledged, fillerOk := true, false;
      SayLine(clean, Hold);
      held := true;
    }

    /** The line for a slow tool, given only to a reply not yet spoken. */
    method HoldFor(line: string)
      modifies this
      ensures Talking() == HoldLine(old(Talking()), line, words)
    {
      if !hushed && !spoke {
        SpeakText(line);
      }
    }

    /** Text spoken at once, its key not asked about. */
    method SayAtOnce(text: string)
      modifies this
      ensures Talking() == SayNow(old(Talking()), text, words)
    {
      var clean := words.clean(text);
      if clean != "" && !hushed {
        SayLine(clean, Now);
      }
    }

    method BeginCall()
      modifies this
      ensures Talking() == NewCall(old(Talking()))
    {
      said := {};
      log := log + [CallBegan];
    }

    /** Takes the keys of these lines out of those said. */
    method UnsayLines(lines: seq<string>)
      modifies this
      ensures Talking() == Unsay(old(Talking()), lines, words)
    {
      ghost var before := said;
      var i := 0;
      while i < |lines|
        invariant 0 <= i <= |lines|
        invariant Talking() == old(Talking()).(said := said) && said == before - Keys(lines[..i], words)
      {
        assert Keys(lines[..i + 1], words) == Keys(lines[..i], words) + {words.key(lines[i])};
        said := said - {words.key(lines[i])};
        i := i + 1;
      }
      assert lines[..i] == lines;
      log := log + [Forgot(lines)];
    }

    /** The next line's turn: said, unless the caller spoke over the reply. */
    method PlayNext()
      modifies this
      ensures Talking() == Play(old(Talking()))
    {
      if queue != [] {
        played := played + [if hushed then Dropped(queue[0]) else Said(queue[0])];
        queue := queue[1..];
      }
    }

    method HushReply()
      modifies this
      ensures Talking() == Hush(old(Talking()))
    {
      hushed, buffer := true, "";
    }
  }
}
