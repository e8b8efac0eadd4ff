/**
 * The rules regrouping is run by (app/src/threads.ts:216-222), made of the
 * readings of phone numbers: what is asked of a lane's and a note's number is
 * that its key is its own key.
 */
module RegroupNumbers {
  import opened Options
  import opened Text
  import opened PhoneNumbers
  import opened People
  import opened Regroup
  import opened RegroupAgain
  import opened RegroupSettles

  /** `isName`, `threadId` and `lower` are what the program has of names, ids and letters. */
  function NumberRules(r: Reader, isName: (string, string) -> bool, threadId: string -> string, lower: string -> string): Rules {
    Rules(n => PhoneKey(n, r), n => IsHidden(n, r), (a, b) => SamePerson(a, b, r), isName, threadId, lower)
  }

  /** What is asked of them: "Hidden number" is a hidden caller's, and no name. */
  ghost predicate NumberRulesOk(p: Rules, r: Reader) {
    && ReaderOk(r) && r.hiddenWord(HIDDEN) && (forall k :: !p.isName(HIDDEN, k))
    && p == NumberRules(r, p.isName, p.threadId, p.lower)
  }

  lemma RulesAreOk(p: Rules, r: Reader)
    requires NumberRulesOk(p, r)
    ensures RulesOk(p)
  {
    hide SamePerson, ReaderOk, IsSpace;
    forall a, b | p.same(a, b)
      ensures p.same(b, a)
    {
      SameIsSymmetric(a, b, r);
    }
    assert HIDDEN[0] == 'H' && HIDDEN[|HIDDEN| - 1] == 'r';
    LettersAreText();
    TrimNothing(HIDDEN);
  }

  lemma LettersAreText()
    ensures !IsSpace('H') && !IsSpace('r') && !IsMark('t') && !IsMark('e') && !IsMark('s') && !IsSpace('t')
    ensures !IsBracket('t') && !IsBracket('e') && !IsBracket('s')
  {
  }

  /** A shown number has a key, which is a shown number's. */
  lemma KeyIsShown(raw: string, r: Reader)
    requires ReaderOk(r) && !IsHidden(raw, r)
    ensures PhoneKey(raw, r) != "" && !IsHidden(PhoneKey(raw, r), r)
  {
    hide ReaderOk, IsHidden, ToE164, Compact, Numeric, Trim, IsE164;
    if ToE164(raw, r).Some? {
      var e := ToE164(raw, r).value;
      OkCountry(r);
      ReadIsE164(raw, r);
      E164Shown(e, r);
    } else if Numeric(Compact(Trim(raw))) {
      CompactAgain(Compact(Trim(raw)), r);
      NumericIsText(Compact(Trim(raw)));
    } else {
      SameTrimmed(raw, r);
      TrimmedIsText(raw, r);
    }
  }

  lemma E164Shown(e: string, r: Reader)
    requires ReaderOk(r) && IsE164(e)
    ensures e != "" && !IsHidden(e, r)
  {
    hide ReaderOk, IsHidden;
    E164Plain(e);
    PhoneNumbers.NotHidden(e, r, 1);
  }

  lemma NumericIsText(s: string)
    requires Numeric(s)
    ensures s != ""
  {
  }

  lemma TrimmedIsText(raw: string, r: Reader)
    requires !IsHidden(raw, r)
    ensures Trim(raw) != ""
  {
  }

  /** The key of a number's key is that key exactly when the number's key stays. */
  lemma KeyFixedIff(p: Rules, r: Reader, number: string)
    requires NumberRulesOk(p, r)
    ensures KeyOf(p, KeyOf(p, number)) == KeyOf(p, number) <==> number == TEST || KeyStays(number, r)
  {
    hide ReaderOk, KeyStays, IsHidden, PhoneKey;
    KeyAgainIff(number, r);
    if IsHidden(number, r) {
      HiddenKey(number, r);
      assert KeyOf(p, number) == number;
    } else {
      KeyIsShown(number, r);
      KeyIsShown(PhoneKey(number, r), r);
      if PhoneKey(number, r) == TEST {
        TestStays(r);
      }
    }
  }

  lemma HiddenKey(number: string, r: Reader)
    requires IsHidden(number, r)
    ensures PhoneKey(number, r) == "" && KeyStays(number, r)
  {
  }

  /** The pretend conversation's number is none. */
  lemma TestStays(r: Reader)
    ensures PhoneKey(TEST, r) in {"", TEST}
  {
    hide IsHidden, Trim, Stripped, Compact, Numeric, ReadDigits, International;
    TestIsText();
  }

  lemma TestIsText()
    ensures Trim(TEST) == TEST && Stripped(TEST) == TEST && Compact(TEST) == TEST && !Numeric(TEST)
  {
    hide IsSpace, Trim, Keep, DropBracketed, IsMark, IsBracket, Compact;
    assert !IsTel(TEST) && !IsDigit(TEST[0]) && TEST[0] != '+';
    assert TEST[0] == 't' && TEST[3] == 't';
    LettersAreText();
    TrimNothing(TEST);
    NotBracketed(TEST);
    NoMarks(TEST);
  }

  lemma NoMarks(s: string)
    requires s == TEST
    ensures Keep(s, Unmarked()) == s && Compact(s) == s
  {
    hide IsMark, IsBracket, Keep;
    LettersAreText();
    assert forall i :: 0 <= i < |s| ==> s[i] == 't' || s[i] == 'e' || s[i] == 's';
    KeepAll(s, Unmarked());
    KeepAll(s, c => !IsBracket(c));
  }

  /** A lane's person is fixed exactly when they are alone, or their number's key stays and is not the pretend one's. */
  lemma PersonFixedIff(p: Rules, r: Reader, x: Info)
    requires NumberRulesOk(p, r)
    ensures PersonFixed(p, x) <==> PersonOf(p, x).alone || (KeyStays(x.key, r) && PhoneKey(x.key, r) != TEST)
  {
    hide ReaderOk, KeyStays, IsHidden, PhoneKey;
    if !PersonOf(p, x).alone {
      KeyIsShown(x.key, r);
      KeyFixedIff(p, r, x.key);
    }
  }

  /** What may be regrouped once and for all, told of the numbers themselves. */
  ghost predicate NumbersOk(p: Rules, r: Reader, stored: Stored, merge: Merge) {
    var others := NotTasks(stored.infos);
    GroupsPeopled(p, others);
    && (forall i :: 0 <= i < |others| ==> PersonOf(p, others[i]).alone || (KeyStays(others[i].key, r) && PhoneKey(others[i].key, r) != TEST))
    && (forall i, j :: 0 <= i < |others| && 0 <= j < |others| ==> NotMixed(p, others[i], others[j]))
    && (forall i :: 0 <= i < |stored.callers| ==> stored.callers[i].number == TEST || KeyStays(stored.callers[i].number, r))
    && NamesOk(stored.callers) && NoCollision(p, Groups(p, others)) && Marks(merge)
  }

  /** Regrouping by phone numbers, run on its own result, changes nothing. */
  lemma RegroupingNumbersAgain(p: Rules, r: Reader, stored: Stored, merge: Merge)
    requires NumberRulesOk(p, r) && NumbersOk(p, r, stored, merge)
    ensures
      var once := RegroupAll(p, stored, merge).kept;
      NothingChanged(once, RegroupAll(p, once, merge))
  {
    hide NumberRulesOk, RulesOk, PersonFixed, NotMixed, KeyStays, PhoneKey, NoCollision, NamesOk, Marks, Groups, NothingChanged, RegroupAll, KeyOf, PersonOf;
    var others := NotTasks(stored.infos);
    RulesAreOk(p, r);
    forall i | 0 <= i < |others|
      ensures PersonFixed(p, others[i])
    {
      PersonFixedIff(p, r, others[i]);
    }
    forall i | 0 <= i < |stored.callers|
      ensures KeyOf(p, KeyOf(p, stored.callers[i].number)) == KeyOf(p, stored.callers[i].number)
    {
      KeyFixedIff(p, r, stored.callers[i].number);
    }
    RegroupingAgain(p, stored, merge);
  }
}
