/**
 * Which lines of a reply are said (class Speech, app/src/sessions.ts:362-513):
 * told from its sentences, as cut and cleaned, and what was said on the call
 * before.
 */
module SpeechLines {
  import opened Subsequences
  import opened Sentences
  import opened Speech

  // ---- The lines of a text ------------------------------------------------------------------

  /** The pieces as spoken, without those that leave nothing to say. */
  function Cleaned(pieces: seq<string>, w: Words): seq<string> {
    if pieces == [] then []
    else Cleaned(pieces[..|pieces| - 1], w) + if w.clean(pieces[|pieces| - 1]) == "" then [] else [w.clean(pieces[|pieces| - 1])]
  }

  /** A filler that does not open the reply: `opens` is whether the first line would. */
  predicate FillerOut(lines: seq<string>, i: nat, opens: bool, w: Words)
    requires i < |lines|
  {
    w.filler(lines[i]) && (i > 0 || !opens)
  }

  /** Of four words, and said before: on the call, or as an earlier line. */
  predicate SaidBefore(lines: seq<string>, i: nat, said: set<string>, opens: bool, w: Words)
    requires i < |lines|
  {
    && w.long(w.key(lines[i]))
    && (w.key(lines[i]) in said || exists j :: 0 <= j < i && !FillerOut(lines, j, opens, w) && w.key(lines[j]) == w.key(lines[i]))
  }

  /** The first `n` lines but for fillers and those said before: what is new. */
  function NewOnes(lines: seq<string>, n: nat, said: set<string>, opens: bool, w: Words): seq<string>
    requires n <= |lines|
  {
    if n == 0 then []
    else
      NewOnes(lines, n - 1, said, opens, w)
      + if FillerOut(lines, n - 1, opens, w) || SaidBefore(lines, n - 1, said, opens, w) then [] else [lines[n - 1]]
  }

  /** Those said before. */
  function OldOnes(lines: seq<string>, n: nat, said: set<string>, opens: bool, w: Words): seq<string>
    requires n <= |lines|
  {
    if n == 0 then []
    else
      OldOnes(lines, n - 1, said, opens, w)
      + if !FillerOut(lines, n - 1, opens, w) && SaidBefore(lines, n - 1, said, opens, w) then [lines[n - 1]] else []
  }

  function AsLines(lines: seq<string>): (r: seq<Line>)
    ensures |r| == |lines| && forall i :: 0 <= i < |lines| ==> r[i] == Line(lines[i], false)
  {
    seq(|lines|, i requires 0 <= i < |lines| => Line(lines[i], false))
  }

  function LongKeys(lines: seq<string>, w: Words): set<string> {
    set i | 0 <= i < |lines| && w.long(w.key(lines[i])) :: w.key(lines[i])
  }

  // ---- What speaking them does ------------------------------------------------------------------

  /** These lines are queued, last and in order, as the reply's, and are said from now on; those are held back. */
  ghost predicate SpokenAs(t: Talk, new_: seq<string>, old_: seq<string>, none: bool, u: Talk, w: Words) {
    && u.queue == t.queue + AsLines(new_) && u.reply == t.reply + new_ && u.repeated == t.repeated + old_
    && u.said == t.said + LongKeys(new_, w) && (u.spoke <==> t.spoke || new_ != []) && (u.fillerOk <==> t.fillerOk && none)
    && u.hushed == t.hushed && u.buffer == t.buffer && u.acknowledged == t.acknowledged && u.played == t.played
  }

  /** The new lines are queued, and the old ones held back. */
  ghost predicate Spoken(t: Talk, lines: seq<string>, u: Talk, w: Words) {
    SpokenAs(t, NewOnes(lines, |lines|, t.said, t.fillerOk, w), OldOnes(lines, |lines|, t.said, t.fillerOk, w), lines == [], u, w)
  }

  lemma {:induction false} SamePart(a: seq<string>, line: string, n: nat, said: set<string>, opens: bool, w: Words)
    requires n <= |a|
    ensures NewOnes(a + [line], n, said, opens, w) == NewOnes(a, n, said, opens, w)
    ensures OldOnes(a + [line], n, said, opens, w) == OldOnes(a, n, said, opens, w)
  {
    if n > 0 {
      SamePart(a, line, n - 1, said, opens, w);
      var all := a + [line];
      assert forall j :: 0 <= j < n ==> all[j] == a[j];
      assert forall j :: 0 <= j < n ==> FillerOut(all, j, opens, w) == FillerOut(a, j, opens, w);
    }
  }

  /** What is said of the first `n` lines, and what was: the keys an earlier line leaves. */
  lemma {:induction false} KeysOfNew(lines: seq<string>, n: nat, said: set<string>, opens: bool, w: Words, key: string)
    requires n <= |lines| && w.long(key)
    ensures key in said + LongKeys(NewOnes(lines, n, said, opens, w), w) <==>
      key in said || exists j :: 0 <= j < n && !FillerOut(lines, j, opens, w) && w.key(lines[j]) == key
  {
    if n > 0 {
      KeysOfNew(lines, n - 1, said, opens, w, key);
      var before := NewOnes(lines, n - 1, said, opens, w);
      if FillerOut(lines, n - 1, opens, w) || SaidBefore(lines, n - 1, said, opens, w) {
        assert NewOnes(lines, n, said, opens, w) == before;
      } else {
        OneKeyMore(before, lines[n - 1], w);
        assert NewOnes(lines, n, said, opens, w) == before + [lines[n - 1]];
      }
    }
  }

  lemma OneKeyMore(lines: seq<string>, line: string, w: Words)
    ensures LongKeys(lines + [line], w) == LongKeys(lines, w) + if w.long(w.key(line)) then {w.key(line)} else {}
  {
    var all := lines + [line];
    assert all[|lines|] == line;
    forall k
      ensures k in LongKeys(all, w) <==> k in LongKeys(lines, w) || (w.long(w.key(line)) && k == w.key(line))
    {
      if k in LongKeys(lines, w) {
        var i :| 0 <= i < |lines| && w.long(w.key(lines[i])) && w.key(lines[i]) == k;
        assert all[i] == lines[i];
      }
    }
  }

  lemma {:induction false} AllSpoken(t: Talk, pieces: seq<string>, w: Words)
    ensures Spoken(t, Cleaned(pieces, w), SpeakAll(t, pieces, w), w)
    decreases |pieces|
  {
    hide Speak, Spoken;
    if pieces == [] {
      NoneSpoken(t, w);
      NothingSpoken(t, w);
    } else {
      var n := |pieces| - 1;
      var before, piece := pieces[..n], pieces[n];
      AllSpoken(t, before, w);
      assert pieces == before + [piece];
      SpeakingBoth(t, before, [piece], w);
      OneSpoken(SpeakAll(t, before, w), piece, w);
      OneMore(t, Cleaned(before, w), SpeakAll(t, before, w), piece, w);
    }
  }

  lemma NoneSpoken(t: Talk, w: Words)
    ensures Spoken(t, [], t, w)
  {
  }

  lemma OneMore(t: Talk, lines: seq<string>, u: Talk, piece: string, w: Words)
    requires Spoken(t, lines, u, w)
    ensures Spoken(t, lines + if w.clean(piece) == "" then [] else [w.clean(piece)], Speak(u, piece, w), w)
  {
    hide SpokenAs, LongKeys, Speak;
    var clean := w.clean(piece);
    if clean == "" {
      assert lines + [] == lines;
      NotSpoken(u, piece, w);
    } else {
      var all, n := lines + [clean], |lines|;
      assert all[n] == clean;
      var new_, old_ := NewOnes(lines, n, t.said, t.fillerOk, w), OldOnes(lines, n, t.said, t.fillerOk, w);
      SamePart(lines, clean, n, t.said, t.fillerOk, w);
      SpokenLeaves(t, new_, old_, lines == [], u, w);
      if w.long(w.key(clean)) {
        KeysOfNew(all, n, t.said, t.fillerOk, w, w.key(clean));
      }
      StepSpoken(t, new_, old_, lines == [], u, piece, w);
    }
  }

  lemma NotSpoken(t: Talk, piece: string, w: Words)
    requires w.clean(piece) == ""
    ensures Speak(t, piece, w) == t
  {
  }

  lemma SpokenLeaves(t: Talk, new_: seq<string>, old_: seq<string>, none: bool, u: Talk, w: Words)
    requires SpokenAs(t, new_, old_, none, u, w)
    ensures u.said == t.said + LongKeys(new_, w) && (u.fillerOk <==> t.fillerOk && none) && u.hushed == t.hushed
  {
  }

  lemma StepSpoken(t: Talk, new_: seq<string>, old_: seq<string>, none: bool, u: Talk, piece: string, w: Words)
    requires SpokenAs(t, new_, old_, none, u, w) && w.clean(piece) != ""
    ensures
      var clean := w.clean(piece);
      var out, said := w.filler(clean) && !u.fillerOk, w.long(w.key(clean)) && w.key(clean) in u.said;
      SpokenAs(t, new_ + (if out || said then [] else [clean]), old_ + (if !out && said then [clean] else []), false, Speak(u, piece, w), w)
  {
    var clean := w.clean(piece);
    OneKeyMore(new_, clean, w);
    hide LongKeys;
    assert new_ + [] == new_ && old_ + [] == old_;
    JoinAgain(t.repeated, old_, [clean]);
    JoinAgain(t.reply, new_, [clean]);
    assert AsLines(new_ + [clean]) == AsLines(new_) + [Line(clean, false)];
    JoinAgain(t.queue, AsLines(new_), [Line(clean, false)]);
  }

  // ---- Of a whole reply ---------------------------------------------------------------------------

  /** Text pushed: of the sentences it completes the new ones are queued, and the old ones held back; the rest waits. */
  lemma PushSays(t: Talk, delta: string, w: Words)
    requires !t.hushed
    ensures
      var cut, u := Pieces(t.buffer + delta), Push(t, delta, w);
      Spoken(t, Cleaned(cut.0, w), u.(buffer := t.buffer), w) && u.buffer == cut.1
  {
    hide SpeakAll, Pieces, NewOnes, OldOnes, LongKeys;
    AllSpoken(t, Pieces(t.buffer + delta).0, w);
  }

  /** A line for a slow tool is one of the reply's, where it has said nothing. */
  lemma HoldSays(t: Talk, line: string, w: Words)
    ensures if t.hushed || t.spoke then HoldLine(t, line, w) == t else Spoken(t, Cleaned([line], w), HoldLine(t, line, w), w)
  {
    hide SpeakAll, Speak, NewOnes, OldOnes, LongKeys, Cleaned;
    AllSpoken(t, [line], w);
    OneSpoken(t, line, w);
  }

  /**
   * A reply, from its beginning to its end, however it came: what it adds to the
   * queue is its new lines, in their order; where it has none, all that were
   * held back; and only new ones are said from then on.
   */
  lemma ReplySays(t: Talk, afterTool: bool, deltas: seq<string>, w: Words)
    ensures
      var v := Flush(PushAll(Begin(t, afterTool), deltas, w), w);
      var lines := Cleaned(Fed("", deltas).0 + [Fed("", deltas).1], w);
      var new_, old_ := NewOnes(lines, |lines|, t.said, !afterTool, w), OldOnes(lines, |lines|, t.said, !afterTool, w);
      && v.queue == t.queue + AsLines(if new_ == [] then old_ else new_) && v.reply == (if new_ == [] then old_ else new_)
      && v.said == t.said + LongKeys(new_, w) && v.buffer == "" && v.repeated == [] && !v.hushed && v.played == t.played
  {
    hide SpeakAll, PushAll, Pieces, Fed, Speak, Spoken, NewOnes, OldOnes, LongKeys, Cleaned, SayAgain;
    var b := Begin(t, afterTool);
    var fed := Fed("", deltas);
    PushingIsFeeding(b, deltas, w);
    var spoken_ := SpeakAll(b, fed.0, w);
    var pieces := fed.0 + [fed.1];
    AllSpoken(b, pieces, w);
    SpeakingBoth(b, fed.0, [fed.1], w);
    OneSpoken(spoken_, fed.1, w);
    BufferAside(spoken_, fed.1, w);
    AllSpoken(b, fed.0, w);
    StillHeard(b, Cleaned(fed.0, w), spoken_, w);
    var u := Speak(spoken_, fed.1, w);
    SpokenReply(t, afterTool, Cleaned(pieces, w), u, w);
    AgainSays(u.(buffer := fed.1), u.repeated);
  }

  /** The buffer has no part in what speaking a text does. */
  lemma BufferAside(t: Talk, text: string, w: Words)
    ensures Speak(t.(buffer := text), text, w) == Speak(t, text, w).(buffer := text)
  {
  }

  lemma StillHeard(t: Talk, lines: seq<string>, u: Talk, w: Words)
    requires Spoken(t, lines, u, w)
    ensures u.hushed == t.hushed
  {
  }

  lemma SpokenReply(t: Talk, afterTool: bool, lines: seq<string>, u: Talk, w: Words)
    requires Spoken(Begin(t, afterTool), lines, u, w)
    ensures
      var new_, old_ := NewOnes(lines, |lines|, t.said, !afterTool, w), OldOnes(lines, |lines|, t.said, !afterTool, w);
      && u.queue == t.queue + AsLines(new_) && u.reply == new_ && u.repeated == old_ && u.said == t.said + LongKeys(new_, w)
      && (u.spoke <==> new_ != []) && !u.hushed && u.played == t.played
  {
    hide NewOnes, OldOnes, LongKeys;
    var new_, old_ := NewOnes(lines, |lines|, t.said, !afterTool, w), OldOnes(lines, |lines|, t.said, !afterTool, w);
    assert [] + new_ == new_ && [] + old_ == old_;
  }

  lemma {:induction false} AgainSays(t: Talk, lines: seq<string>)
    ensures
      var u := SayAgain(t, lines);
      u == t.(queue := t.queue + AsLines(lines), reply := t.reply + lines, spoke := t.spoke || lines != [], log := u.log)
    decreases |lines|
  {
    if lines == [] {
      assert t.queue + AsLines(lines) == t.queue && t.reply + lines == t.reply;
    } else {
      var one := Enqueue(t, lines[0], Again);
      AgainSays(one, lines[1..]);
      assert lines == [lines[0]] + lines[1..];
      assert AsLines(lines) == [Line(lines[0], false)] + AsLines(lines[1..]);
      JoinAgain(t.queue, [Line(lines[0], false)], AsLines(lines[1..]));
      JoinAgain(t.reply, [lines[0]], lines[1..]);
    }
  }

  // ---- What is said besides --------------------------------------------------------------------------

  /** A hold word is queued as one, once a turn, before anything is said; the reply may then open with no filler. */
  lemma HoldWordSays(t: Talk, word: string, w: Words)
    ensures
      var u := HoldWord(t, word, w);
      if w.clean(word) == "" || t.hushed || t.spoke || t.acknowledged then u == t
      else u == t.(acknowledged := true, fillerOk := false, queue := t.queue + [Line(w.clean(word), true)], log := u.log)
  {
  }

  /** A new turn's hold word is queued whatever came before; after a tool it is unless the turn has had one. */
  lemma ATurnsHoldWord(t: Talk, afterTool: bool, word: string, w: Words)
    requires w.clean(word) != ""
    ensures HoldWord(Begin(t, afterTool), word, w).queue == t.queue + if afterTool && t.acknowledged then [] else [Line(w.clean(word), true)]
  {
  }

  /** Spoken over, a reply adds nothing more to the queue, however it goes on, nor is anything of it known as said. */
  lemma SpokenOver(t: Talk, deltas: seq<string>, text: string, w: Words)
    ensures
      var u := Hush(t);
      && u.buffer == "" && u == t.(hushed := true, buffer := "") && PushAll(u, deltas, w) == u
      && SayNow(u, text, w) == HoldLine(u, text, w) == HoldWord(u, text, w) == u && Take(u, w).1 == ""
      && Flush(u, w).queue == t.queue && Flush(u, w).said == t.said
  {
    PushedOver(Hush(t), deltas, w);
  }

  lemma {:induction false} PushedOver(t: Talk, deltas: seq<string>, w: Words)
    requires t.hushed
    ensures PushAll(t, deltas, w) == t
    decreases |deltas|
  {
    if deltas != [] {
      PushedOver(t, deltas[1..], w);
    }
  }

  /** A run's state after one step more. */
  lemma OneStepMore(steps: seq<Step>, s: Step, w: Words)
    ensures After(steps + [s], w) == Next(After(steps, w), s, w)
  {
    assert (steps + [s])[..|steps|] == steps;
  }

  /** Words said at once are queued as they are, whatever was said before; taken as a goodbye, the rest of the reply is not said here, nor what was held back. */
  lemma NowAndGoodbye(t: Talk, text: string, w: Words)
    ensures
      var u, (v, rest) := SayNow(t, text, w), Take(t, w);
      && (if t.hushed || w.clean(text) == "" then u == t
          else u == t.(queue := t.queue + [Line(w.clean(text), false)], reply := t.reply + [w.clean(text)], spoke := true, log := u.log))
      && rest == (if t.hushed then "" else w.clean(t.buffer))
      && v == t.(buffer := "", repeated := [], spoke := t.spoke || rest != "")
  {
  }

  /** What was said is known until a new call, or its lines are taken back. */
  lemma Forgetting(t: Talk, lines: seq<string>, w: Words)
    ensures NewCall(t).said == {} && NewCall(t) == t.(said := {}, log := NewCall(t).log)
    ensures forall k :: k in Unsay(t, lines, w).said <==> k in t.said && forall i :: 0 <= i < |lines| ==> w.key(lines[i]) != k
    ensures Unsay(t, lines, w) == t.(said := Unsay(t, lines, w).said, log := Unsay(t, lines, w).log)
  {
  }

  /** A line of four words not said on the call since, in a reply that is no filler: it is queued. */
  lemma NewLineIsSaid(t: Talk, text: string, w: Words)
    requires !t.hushed && PieceEnd(text) == 0 && w.clean(text) != "" && !w.filler(w.clean(text)) && w.key(w.clean(text)) !in t.said
    ensures
      var v := Flush(PushAll(Begin(t, false), [text], w), w);
      v.queue == t.queue + [Line(w.clean(text), false)] && (w.long(w.key(w.clean(text))) ==> w.key(w.clean(text)) in v.said)
  {
    hide PushAll, Flush;
    ReplySays(t, false, [text], w);
    var clean := w.clean(text);
    assert Fed("", [text]) == ([], text) by {
      NothingCut(text);
      assert "" + text == text && [text][1..] == [];
    }
    assert [] + [text] == [text] && [text][..0] == [];
    assert Cleaned([text], w) == [] + [clean] == [clean];
    assert NewOnes([clean], 1, t.said, true, w) == [] + [clean];
    assert [clean][0] == clean;
  }
}
