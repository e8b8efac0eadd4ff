# The Agent app's state machines, proved

A model, in Dafny, of the parts of the repository that keep state over many
steps or order things: the Agent app's conversations, its outreach engine, what
it says on a call, how it follows the desktop's events and queues messages,
phone numbers as people's keys, the phone's line and its call backs, contacts,
the service worker's caches, the rule for local addresses, and the simulation of
the expert cache. `dafny verify dfyconfig.toml` checks all of it.

Each component is a specification (datatypes and functions: what a step makes of
the state), lemmas about every input, step or run of it, and, where the program
updates fields or arrays in loops, a class or methods with those loops proved
against the specification. What a step of the specification does is also told
from its effects, in relations that do not use its functions (`TurnTimes`,
`ShownOrder`, `NotesMerged`, `RegroupTurns`, `RegroupLanes`, `OutreachLooks`,
`OutreachOutcomes`, `OutreachResults`, `SentenceEnds`, `SpeechLines`,
`LanesOrder`, `NumbersRead`, `PhonePrinted`, `PlacedCalls`,
`CallbackOutcomes`, `ContactsSay`, `AddressRanges`).

| modules | component |
|---|---|
| `LaneMerge`, `TurnTimes`, `ThreadOrder`, `ShownOrder`, `TimeOrder` | a conversation's turns in order (`app/src/threads.ts`) |
| `People`, `NotesMerged`, `Regroup`, `RegroupTurns`, `RegroupLanes`, `RegroupAgain`, `RegroupSettles`, `RegroupNumbers`, `RegroupCases` | the conversations of each person as one, once (`app/src/threads.ts`) |
| `Outreach`, `OutreachKept`, `OutreachContacts`, `OutreachDue`, `OutreachLooks`, `OutreachTexts`, `OutreachOutcomes`, `OutreachResults`, `OutreachRuns`, `OutreachEngine` | campaigns of calls and texts (`app/src/outreach.ts`) |
| `Sentences`, `SentenceEnds`, `Speech`, `SpeechLines`, `DesktopEvents`, `Lanes`, `LanesOrder` | what is said on a call, the desktop's events, messages and runs (`app/src/sessions.ts`) |
| `PhoneNumbers`, `NumbersRead`, `PhoneDisplay`, `PhonePrinted`, `Countries` | numbers read, compared and printed (`app/src/phoneNumbers.ts`) |
| `PhoneLine`, `PlacedCalls`, `Callbacks`, `CallbackOutcomes`, `SharedLine` | the phone's one line and who may dial on it (`app/src/phoneLine.ts`, `app/src/callbacks.ts`) |
| `Contacts`, `ContactsSay` | notes as the desktop's contacts say (`app/src/contacts.ts`) |
| `ServiceWorker` | caches handed from build to build (`app/public/sw.js`) |
| `Addresses`, `AddressRanges` | this computer and its network (`shared/capabilities/local.ts`) |
| `Lfru` | the expert cache (`tools/dsv41/cache_sim.py`) |
| `Options`, `Subsequences`, `Sorting`, `Text` | shared |

## What the program does not keep

These are promised in the sources' words or by what a caller would expect, and
do not hold of the code. Each entry names a lemma with an input that shows it,
and one with the condition under which it does hold.

- A task's answer is its own run's. The run of a task that was stopped settles, as
  it ends, one asked later in its words
  (`Lanes.AnotherIsAnswered`; exactly when: `Lanes.OwnAnswerIff`). The comment at
  `app/src/sessions.ts:2886` speaks of the other direction, which holds.
- Tasks are answered in the order they were asked. That same run's end can settle
  the third before the second (`Lanes.AnsweredOutOfOrder`; exactly when:
  `Lanes.AnsweredInOrderIff`).
- Stopping a conversation stops what was sent to it. What came for the run and
  was not read is run after the stop (`Lanes.StoppedAndRunsAgain`; exactly when:
  `Lanes.StoppedYetUnreadRuns`).
- Only one person is on the phone. A ringing or answered event that comes after
  its call's end puts back a person who waits for another try
  (`OutreachRuns.LateRingingExample`; exactly when: `OutreachRuns.LateRinging`).
  The guard at `app/src/outreach.ts:1254` looks at the state, not at whether an
  end was heard. Runs are those in which a call's events come in order.
- The rest of a reply spoken over is dropped. Lines still queued are said after
  all when the next reply begins first: for every state with a line still queued,
  and for no other (`Speech.HushedUntilTheNextBegins`).
- How text came in pieces does not matter to what is said. It can when the long
  cut comes before an end is seen (`Sentences.ChunksMatterOnce`; exactly when:
  `Sentences.ChunksDoNotMatterIff`).
- Every event is handled. More than 500 between two looks, and the oldest are
  gone (`DesktopEvents.OneIsGone`; exactly when, over every run:
  `DesktopEvents.AllHandledIff`).
- A restart is noticed. Only by a look after one that was not answered, and while
  its numbering is below the last number seen (`DesktopEvents.ARestartNotSeen`,
  `DesktopEvents.ARestartBetweenAnswers`; exactly when:
  `DesktopEvents.AfterARestart`).
- Letting go of lost calls changes no later answer. It can when a dial of the
  app's is among them (`PhoneLine.ALostDialHeardOf`; exactly when:
  `PhoneLine.LettingGoIff`).
- A number's key is its own key (`Countries.KeyReadAgain`, `Countries.TrunkTwice`;
  exactly when: `PhoneNumbers.KeyAgainIff`, and told from the text
  `PhoneNumbers.KeyAgainByText`).
- A number printed is read back. In Japan a number that begins with 10, and in
  Italy one with two zeros, is printed as a call abroad begins
  (`Countries.JapansTen`, `Countries.ItalysZeros`; exactly when:
  `PhoneDisplay.LocalRoundTripIff`), and abroad one that keeps a trunk loses it
  (`Countries.TrunkTwice`; exactly when: `PhoneDisplay.ForeignRoundTripIff`).
- A number with its calling code and no plus is longer than any local one. In
  Italy one of nine digits or fewer is not, and is read as a longer number
  (`NumbersRead.ItalysThirtyNine`; exactly when: `NumbersRead.EveryNumberIsRead`).
- Merging a person's conversations loses no turn. One not marked with its lane is
  taken only from a file of one lane, and one of a file with two lanes of its kind
  is taken twice (`RegroupCases.TurnLost`, `RegroupCases.TurnDoubled`; exactly when:
  `Regroup.NoneLostIff`).
- Regrouping what was regrouped changes nothing. It can where a note names someone
  "Hidden number", where a conversation is of a hidden caller and a person, where
  two people's conversations come to one id, and where a key is not its own key
  (`RegroupCases.ANameOfTheHidden`, `RegroupCases.AMixedConversation`,
  `RegroupCases.OneIdForTwo`, `RegroupCases.AKeyNotItsOwn`); with none of these it
  does not (`RegroupSettles.RegroupingAgain`). Of the notes, exactly when:
  `People.MergedAgainIff`.
- A private network is local. A name with two final dots is private and not
  local (`Addresses.TwoDotsDiffer`; exactly when: `Addresses.PrivateIsLocalIff`).
- A lane's order is kept (`ThreadOrder.ALaneNotKept`; exactly when:
  `ThreadOrder.LaneKept`), a new turn goes just before the one after it
  (`ThreadOrder.ANewTurnElsewhere`; exactly when:
  `ThreadOrder.NewBeforeItsSuccessor`), and what was shown stays first
  (`ThreadOrder.APrefixNotKept`; exactly when:
  `ThreadOrder.AppendingKeepsThePrefix`).
- Being the same person is transitive (`Countries.NotTransitive`; exactly when:
  `PhoneNumbers.SameIsTransitiveIff`).

## How to read it

Time is an integer, in milliseconds. What the program awaits (the phone's
answer, its settings, the desktop's pages) is part of a step's input, so a look,
an event or a request is one step. The same-person relation of outreach and of
call backs is a parameter, symmetric where that is needed, as
`PhoneNumbers.SameIsSymmetric` proves the program's is. Where local time is, for
the call backs' daily limit, is an offset of the look.

An outreach run starts with no campaigns and takes any steps in any order, a
restart of the page among them, with time not going back, steps about what is
there, and a call's events in order. `trace` is what it asked of the phone.

Turns are compared by identity: in `LaneMerge` and `ThreadOrder` they are objects
with fixed fields and one that changes, `via`. In `Regroup` they are values, and
merging lanes is a parameter of which only this is used, that it marks every turn
with its lane (`LaneMerge.MergeLanes`).

## Model

| member | source | states |
|---|---|---|
| `LaneMerge.TimesNeverFall` | app/src/threads.ts:61-66 | A lane's times never go back, whatever of them is known. |
| `LaneMerge.TimeIsALanesOwn` | app/src/threads.ts:67-72 | Every time given is a known one of that lane, its `lastAt` included; `Never` only when it has none. |
| `LaneMerge.LaneTimes` | app/src/threads.ts:42-73 | The loops over `known`, rewritten in place, give the times the specification says. |
| `LaneMerge.ReadTimes` | app/src/threads.ts:45-60 | The first pass fills `known` as specified: which time is each turn's, `TurnTimes` says of the turns alone. |
| `TurnTimes.TurnTimeIff` | app/src/threads.ts:42-73 | A turn happened at the latest time said up to it, else at the first said after it, and at none exactly when its lane says none: by its `at`, as a call's note by the call's start, as a caller's words by their place in the call going on, or as the last turn by `lastAt`. |
| `TurnTimes.AtItsTime` | app/src/threads.ts:61-66 | A turn that says a time is never before it, and is at it unless one before is later. |
| `TurnTimes.WordsAreInTheirCall` | app/src/threads.ts:54-57 | A caller's words with no `at` are at the call's start and as far after it as they say. |
| `TurnTimes.WordsOfAnUntimedCall` | app/src/threads.ts:50-57 | Of a call whose start has no time, words have none of their own: they are at the time of the turn before. |
| `TurnTimes.NoTimeOfItsOwn` | app/src/threads.ts:61-66 | What says no time is at the time of the turn before it. |
| `TurnTimes.WordsAfterTheText` | app/src/threads.ts:55-55 | A call's words a minute in are after a text of half a minute in. |
| `LaneMerge.PutInOrder` | app/src/threads.ts:61-66 | The second pass raises each known time to the latest before it and leaves the unknown ones unknown. |
| `LaneMerge.PickLane` | app/src/threads.ts:85-89 | The lane whose head goes next: none is earlier, and none listed before is as early. |
| `LaneMerge.MergeLanes` | app/src/threads.ts:80-95 | The loop's result is the stable sort of all lanes' turns by their times, each turn marked with its lane's `via` when it has one and left as it was when not. |
| `LaneMerge.MergedKeepsLane` | app/src/threads.ts:76-95 | Of the merged turns those of a lane are the lane, in its order. |
| `LaneMerge.MergedHasAll` | app/src/threads.ts:76-95 | The merge has every turn of every lane, each once, and no other. |
| `LaneMerge.MergedByTime` | app/src/threads.ts:76-95 | A turn before another in the merge is no later than it, and a tie goes to the lane listed first. |
| `TimeOrder.PickIsFirst` | app/src/threads.ts:84-93 | One step of the merge takes the first of the stable sort of all that is left, the lanes' times being in order. |
| `TimeOrder.TiesToTheFirst` | app/src/threads.ts:88-88 | Equal times keep the order of the lanes. |
| `ThreadOrder.ThreadOrder` | app/src/threads.ts:104-151 | The method with its cursors gives the order the specification says, and marks every turn with its lane. |
| `ThreadOrder.OrderHasAll` | app/src/threads.ts:104-151 | Every turn of every lane is in the order exactly once, and no other turn is. |
| `ThreadOrder.SurvivorsStay` | app/src/threads.ts:118-125 | The turns of the order before that are still in a lane keep their order, first to last. |
| `ThreadOrder.LaneKept` | app/src/threads.ts:97-103 | A lane's own order is kept exactly when the order before agrees with the lane. |
| `ThreadOrder.ALaneNotKept` | app/src/threads.ts:118-125 | Two turns shown the other way round than their lane has them stay so. |
| `ThreadOrder.NewBeforeItsSuccessor` | app/src/threads.ts:97-125 | A new turn with one shown after it in its lane comes directly before the turn next to it in the lane exactly when that is new too, or was shown before all others after it. |
| `ThreadOrder.ANewTurnElsewhere` | app/src/threads.ts:118-125 | A new turn before two that were shown the other way round does not. |
| `ThreadOrder.AppendingKeepsThePrefix` | app/src/threads.ts:126-150 | What was shown stays a prefix exactly when turns were only appended to their lanes. |
| `ThreadOrder.APrefixNotKept` | app/src/threads.ts:122-123 | A turn put into a lane before one that was shown comes before it. |
| `ThreadOrder.OrderAgain` | app/src/threads.ts:104-151 | Ordering again with the order just made changes nothing. |
| `ThreadOrder.EveryRunShows` | app/src/sessions.ts:1136-1143 | Over any run of turns put in, let go of and looks, what is shown has exactly the lanes' turns, each once and each lane in its order. |
| `ThreadOrder.EveryRunFromNothingShows` | app/src/sessions.ts:1136-1143 | So it is of every run that starts with nothing shown. |
| `ThreadOrder.NotShownYet` | app/src/threads.ts:126-150 | With nothing shown before, the order is the merge of the whole lanes by their own times, each no earlier than the one before it in its lane. |
| `ShownOrder.NewTurnsByTime` | app/src/threads.ts:126-150 | Two new turns at the ends of two lanes are shown by time, a tie to the lane listed first: the time of each being the latest `at` of its lane from the last one before its end up to it. |
| `ShownOrder.NewTurnsAreLast` | app/src/threads.ts:118-150 | New turns at a lane's end are after every turn that was shown, and after those new ones that have a shown one after them in their lane. |
| `People.MergedAgainIff` | app/src/threads.ts:171-197 | The notes merged are of different people; merging them again reports a change exactly when the number of one is not its own key, and gives the same notes when none is such. |
| `People.MergedAgain` | app/src/threads.ts:171-197 | So it reports none when the key of each key is that key. |
| `People.EveryoneIsNoted` | app/src/threads.ts:174-196 | Everyone who had a note has one: under their key, or the same person's. |
| `People.FactsAreJoined` | app/src/threads.ts:191-193 | Of two notes joined, each fact of either is kept, or is among the oldest of more than thirty; the last thirty are kept, the first note's before the other's new ones. |
| `People.UnsentAreJoined` | app/src/threads.ts:191-191 | What waits to be sent of either of two notes joined all waits still. |
| `NotesMerged.LastSaid` | app/src/threads.ts:183-190 | A merged note's name (with who gave it), notes and owner's facts are those of the last note of that person to give any. |
| `NotesMerged.NoneSaid` | app/src/threads.ts:183-190 | And where none gave any it has none. |
| `NotesMerged.LatestUpdate` | app/src/threads.ts:194-194 | It was updated when the latest of them was. |
| `NotesMerged.AddedInTurn` | app/src/threads.ts:191-192 | Facts and what waits to be sent are added after those there, in the order given. |
| `NotesMerged.AddedOnce` | app/src/threads.ts:191-192 | And none is there twice, whatever its case. |
| `People.MergeNotes` | app/src/threads.ts:171-197 | The loop over the notes, oldest update first, merges as specified. |
| `Regroup.GroupLanes` | app/src/threads.ts:247-256 | The loop grouping lanes by conversation and person gives the groups specified. |
| `Regroup.RegroupNow` | app/src/threads.ts:231-315 | The migration: the loops that merge the notes, group the lanes and go over the groups give what is specified. Which turns reach which conversation is `RegroupTurns`, and which lanes and files come of it `RegroupLanes`. |
| `RegroupTurns.MergedTurns` | app/src/threads.ts:273-290 | A conversation merged has each turn as often as its lanes bring it: all of the file of a lane in no conversation, and of each conversation's file the turns marked with the kind of a lane of it, and the unmarked ones of a file of one lane. |
| `RegroupTurns.KeptTurns` | app/src/threads.ts:268-271 | One kept as it was has its file's turns in their order, those not marked of a lone lane marked as that. |
| `RegroupTurns.OwnTurnsKept` | app/src/threads.ts:231-315 | Every turn of every call or text lane that had a file of its own is in exactly one conversation afterwards, once: that of the group the lane is in. |
| `RegroupLanes.GroupsAreJoined` | app/src/threads.ts:247-256 | A group is the lanes of one person, or of a caller who is alone: each joined one before it by conversation or by person, and no two groups are of one person. |
| `RegroupLanes.PersonIs` | app/src/threads.ts:216-222 | Who a lane is of: the pretend conversation's and a hidden caller's are alone, anyone else is the number's key. |
| `RegroupLanes.LanesReturned` | app/src/threads.ts:258-314 | Of each group and each kind it has one lane is returned, and besides those only the tasks'; a conversation is written anew exactly when it was not kept as it is, and the other files of its lanes are then stale. |
| `RegroupLanes.LaneForIsLane` | app/src/threads.ts:291-306 | The lane made of a kind's lanes: the first's id and fields, the counts added and the latest times of them all. |
| `RegroupLanes.TitleIs` | app/src/threads.ts:263-266 | A conversation is called as its person's note names them; with no name there or on a lane, as the pretend one, an alone caller's first lane, or the key. |
| `RegroupLanes.TitleOfLane` | app/src/threads.ts:263-266 | Where their note says no name they are called as the newest of their lanes with a name. |
| `Regroup.TurnsTaken` | app/src/threads.ts:275-281 | Merging a conversation takes each turn of a file as often as lanes of it take it: the turn's own kind's, or the only lane's when it is not marked. |
| `Regroup.NoneLostIff` | app/src/threads.ts:275-281 | Merging loses and doubles no turn of a file exactly when each is marked with a kind that one lane of the file has, or not marked and the file has one lane. |
| `RegroupCases.TurnDoubled` | app/src/threads.ts:266-281 | Two call lanes kept in one conversation: regrouped, its file has its turn twice. |
| `RegroupCases.TurnLost` | app/src/threads.ts:266-281 | A conversation of a call and a text lane, its turn not marked, and a call lane of that person in none: regrouped, the file has lost the turn. |
| `RegroupAgain.GroupsHaveAll` | app/src/threads.ts:249-256 | Grouping loses and doubles no lane. |
| `RegroupAgain.SettledGroups` | app/src/threads.ts:249-256 | Lanes that are settled (one of each kind to a conversation, one person to it) are grouped by conversation exactly. |
| `RegroupAgain.SettledStays` | app/src/threads.ts:258-314 | What is settled is returned as it is: no change reported, no file written or stale, the same turns, and the same lanes but for titles. |
| `RegroupSettles.RegroupedIsSettled` | app/src/threads.ts:231-315 | What regrouping returns is settled, given keys that are their own keys, ids that do not collide, no note that names someone "Hidden number", and no conversation of a hidden caller and a person, or of two hidden callers, at once. |
| `RegroupSettles.RegroupingAgain` | app/src/threads.ts:224-230 | Under the same conditions (keys, ids, no note that names someone "Hidden number", no mixed conversation), regrouping its own result reports no change, writes no file, marks none stale, and returns the same turns, notes and (but for titles) lanes. |
| `RegroupNumbers.RulesAreOk` | app/src/threads.ts:216-222 | The readings of phone numbers are such rules: the same person goes both ways, and "Hidden number" is hidden. |
| `RegroupNumbers.KeyFixedIff` | app/src/threads.ts:175-175 | A note's key is its own key exactly when the number's key stays (PhoneNumbers.KeyAgainIff), or it is the pretend conversation's. |
| `RegroupNumbers.PersonFixedIff` | app/src/threads.ts:217-222 | So is a lane's person's, unless it is the pretend conversation's key written with spaces; a hidden caller's always is. |
| `RegroupNumbers.RegroupingNumbersAgain` | app/src/threads.ts:224-230 | Regrouping by phone numbers, run on its own result, changes nothing, told of the numbers themselves. |
| `RegroupCases.ANameOfTheHidden` | app/src/threads.ts:218-219 | A note that names someone "Hidden number": regrouping its own result changes something. |
| `RegroupCases.AMixedConversation` | app/src/threads.ts:249-256 | So it does for a conversation of a hidden caller and a person, whose texts come first the next time. |
| `RegroupCases.OneIdForTwo` | app/src/threads.ts:262-262 | And for two people whose conversations come to one id. |
| `RegroupCases.AKeyNotItsOwn` | app/src/threads.ts:175-175 | And for a note whose number's key has another key. |
| `OutreachEngine.Engine.Find` | app/src/outreach.ts:1232-1235 | The nested loops find the first person, campaign by campaign, whose attempt matches. |
| `OutreachEngine.Engine.IsBusy` | app/src/outreach.ts:780-782 | True exactly when a person of any call campaign is dialling, ringing or on a call. |
| `OutreachEngine.Engine.CountTexts` | app/src/outreach.ts:1137-1141 | The loops count exactly the people texted in the last hour and day, and find when the last text went. |
| `OutreachEngine.Engine.LookOverdue` | app/src/outreach.ts:926-968 | A look at who has waited too long, person after person, makes of the state what the specification says. |
| `OutreachEngine.Engine.LookDial` | app/src/outreach.ts:984-1031 | The look for the next dial: its guards in their order, and the loops that pause the running campaigns or go down those due (who they are and in which order are the specification's expressions: see OutreachDue.DueAre). |
| `OutreachEngine.Engine.RingFirst` | app/src/outreach.ts:1014-1031 | The loop down those due passes over, leaves out, or rings one and stops. |
| `OutreachEngine.Engine.LookText` | app/src/outreach.ts:1122-1168 | The look for the next text: paced over all campaigns by the counting loops, then the loop down those due. |
| `OutreachEngine.Engine.OnDesktop` | app/src/outreach.ts:1238-1328 | Each event of the phone finds by loop the person it is about and makes of them what the specification says, and is ignored otherwise (what a call's end makes of them is the specification's SettleCall: each end in OutreachOutcomes). |
| `OutreachEngine.Engine.EndCampaign` | app/src/outreach.ts:885-898 | Stopping settles everyone who is not on a call, and reports when none is. |
| `OutreachEngine.Engine.StopFor` | app/src/outreach.ts:1517-1541 | A text asking to stop settles everyone it is from, in every text campaign, and lists their number exactly when it found one. |
| `OutreachDue.DueAre` | app/src/outreach.ts:984-995 | Those due are exactly the people of running campaigns whose time has come, each once, the oldest campaign's first, in a campaign as listed. |
| `OutreachDue.RingsTheFirst` | app/src/outreach.ts:984-1031 | A look for a dial rings someone exactly when the phone may make one and someone due may be rung; then the first of those in turn, and no one else. |
| `OutreachDue.TextsTheFirst` | app/src/outreach.ts:1122-1168 | A look for a text sends one exactly when the phone is there, the pace lets one go and someone due may be texted; then to the first of those in turn, and no one else. |
| `OutreachLooks.LookForDialIs` | app/src/outreach.ts:984-1031 | A look that may dial: those due within hours who come before the first who may be rung are skipped, that one is rung, and no one else is touched. |
| `OutreachLooks.NoDialIs` | app/src/outreach.ts:984-1012 | One that may not pauses every running campaign of calls where outbound calls are off, or, within the day's limit, calls do not come to OAIY; else it changes nothing. |
| `OutreachLooks.LookForTextIs` | app/src/outreach.ts:1122-1168 | So for a text, where the phone is there and the pace lets one go; else nothing changes. |
| `OutreachLooks.PaceIs` | app/src/outreach.ts:1137-1149 | The pace lets a text go when none was in the last 20 s, and fewer than 40 people were texted in the last hour and 200 in the last day. |
| `OutreachKept.CallSettles` | app/src/outreach.ts:1347-1389 | However a call ends, its person is left not live and within their tries, and the campaign at most paused; with what outcome, `OutreachOutcomes` says for each end. |
| `OutreachOutcomes.EndedRecorded` | app/src/outreach.ts:1369-1406 | A call answered whose result was recorded: done with that outcome, now; but voicemail with tries left waits the gap, and the first call back asked for at a later time waits until it, one try given back. |
| `OutreachOutcomes.EndedUnrecorded` | app/src/outreach.ts:1369-1381 | Answered with no result: waited for from now when an agent was on it, it was hung up or lost; else done, unclear. |
| `OutreachOutcomes.EndedNotAnswered` | app/src/outreach.ts:1382-1382 | Not answered: waiting for `now` and the gap while tries are at most the retries, else done with no answer. |
| `OutreachOutcomes.EndedFailed` | app/src/outreach.ts:1383-1388 | Failed: once more in five minutes or the gap, whichever is more, then done as unreachable. |
| `OutreachOutcomes.CancelledByThePhone` | app/src/outreach.ts:1350-1360 | The phone cancelled the dial: queued for a minute on with its try given back, the campaign paused at the second in a row. |
| `OutreachOutcomes.PhoneWentAway` | app/src/outreach.ts:1361-1368 | The device lost: queued for a minute on, its try given back. |
| `OutreachOutcomes.NoOnesCall` | app/src/outreach.ts:1261-1264 | The end of no one's call, or of one already over, changes nothing. |
| `OutreachOutcomes.RingsOrIsAnswered` | app/src/outreach.ts:1251-1260 | Ringing and answered are noted of the one whose call it is. |
| `OutreachOutcomes.DialDidNotGo` | app/src/outreach.ts:1271-1286 | A dial the phone could not place is no try: queued for a minute on. |
| `OutreachOutcomes.DialTaken` | app/src/outreach.ts:1045-1077 | A dial the phone took is one try more, with the ids it gave. |
| `OutreachOutcomes.DialRefused` | app/src/outreach.ts:1080-1110 | What each refusal makes of the person and the campaign: tries spent only on a number that is none and for no reason given. |
| `OutreachOutcomes.TextAsked` | app/src/outreach.ts:1171-1208 | What the phone's answer makes of who is texted. |
| `OutreachOutcomes.TextWent` | app/src/outreach.ts:1287-1302 | A text sent: their reply is waited for from now, and nothing is in doubt. |
| `OutreachOutcomes.TextDidNotGo` | app/src/outreach.ts:1303-1327 | A text failed: in doubt when it may have gone; else once more in five minutes, and the second time done. |
| `OutreachKept.OverdueKeeps` | app/src/outreach.ts:926-968 | What a look at the overdue keeps: one live call at most, tries bounded, nothing over begun again. |
| `OutreachKept.FinishKeeps` | app/src/outreach.ts:1436-1451 | The report, when it is made, leaves a campaign over, and keeps all that is kept. |
| `OutreachResults.OverIs` | app/src/outreach.ts:1436-1451 | A campaign is over, and reported, exactly when all its people are through, or it was stopped and none is on the phone or waits for a result, and it was not before. |
| `OutreachKept.RecordKeeps` | app/src/outreach.ts:1599-1640 | A recorded result keeps all that is kept, and contacts no one. |
| `OutreachResults.RecordsResult` | app/src/outreach.ts:1599-1640 | What is recorded: of someone done, of a text and of a call over it settles them; else it is noted until the call is; who opted out is listed once; no one else is touched. |
| `OutreachResults.RecordedThenEnded` | app/src/outreach.ts:1599-1640 | Recorded while the call goes on, and the call then answered and over: done with that outcome. |
| `OutreachResults.OverdueIs` | app/src/outreach.ts:926-962 | Who waited too long: a lost dial is over, answered if words of it were heard; a late result is unclear, a late text in doubt and a late reply none. |
| `OutreachKept.StopKeeps` | app/src/outreach.ts:1517-1541 | A text asking to stop keeps all that is kept, and contacts no one. |
| `OutreachResults.StopWordIs` | app/src/outreach.ts:1517-1541 | A stop word opts out everyone texted who is that person, in every campaign of texts, and no one else. |
| `OutreachResults.StoppingIs` | app/src/outreach.ts:885-905 | Stopped by the person: each who waits for a reply has none, each not contacted is cut short, those done or on a call stay. |
| `OutreachResults.VoiceHasIt` | app/src/outreach.ts:1456-1480 | The voice's call of an attempt is bound to it. |
| `OutreachResults.VoiceHasAnother` | app/src/outreach.ts:1456-1480 | A call to the number of the first being rung is theirs, and its id is kept. |
| `OutreachResults.VoiceIsOver` | app/src/outreach.ts:1505-1515 | When the voice's part ends its result is waited for from then. |
| `OutreachResults.CreatedIs` | app/src/outreach.ts:834-851 | A campaign begins with everyone queued and untried, and of texts with no retries. |
| `OutreachResults.ResumedIs` | app/src/outreach.ts:868-882 | Resumed by the person, or by an agent what the person has approved, with cancelled dials counted anew. |
| `OutreachContacts.DialKeeps` | app/src/outreach.ts:984-1077 | A look for a dial keeps all that is kept, and asks for at most one dial: of a person of a running campaign who is not final and not listed, while no one is live. |
| `OutreachContacts.PlaceKeeps` | app/src/outreach.ts:1045-1077 | Whatever the phone answers to a dial of one who is due, while no one is live: at most one is live after, tries stay bounded, and nothing that is over begins again. |
| `OutreachTexts.TextKeeps` | app/src/outreach.ts:1122-1207 | A look for a text keeps all that is kept, and asks for at most one text: to a person of a running campaign who is not final and not listed (the pretend number apart). |
| `OutreachTexts.SendKeeps` | app/src/outreach.ts:1171-1207 | Whatever the phone answers to a text: all that is kept is, the pace among it, and what went was one text to one who may be sent one. |
| `OutreachTexts.SendKeepsPace` | app/src/outreach.ts:1137-1149 | One more text keeps the people texted in any window within its limit. |
| `OutreachTexts.AtMostTwiceAsMany` | app/src/outreach.ts:1139-1149 | In any window no more than two texts for each person texted in it. |
| `OutreachRuns.NextOk` | app/src/outreach.ts:905-923 | Every step that can come keeps the whole invariant, undoes nothing that is over, and contacts only whom it may. |
| `OutreachRuns.OneCallAtATime` | app/src/outreach.ts:780-782 | In every run, at most one person over all campaigns is dialling, ringing or on a call. |
| `OutreachRuns.TriesAreBounded` | app/src/outreach.ts:1112-1119 | In every run, tries never exceed the retries and two; who is queued or waiting without a failed call is within the retries. |
| `OutreachRuns.TwoTriesOverTheRetries` | app/src/outreach.ts:1383-1388 | A run that reaches the bound: no retries, a failed call, and a second. |
| `OutreachRuns.DoneForGood` | app/src/outreach.ts:1409-1414 | In every run, who is done or skipped stays so. |
| `OutreachRuns.TextsArePaced` | app/src/outreach.ts:1122-1207 | In every run: two texts to a person at most, the second after the first failed and under another id; texts 20 s apart; 40 people and 80 texts in any hour, 200 people in any day. |
| `OutreachRuns.OverForGood` | app/src/outreach.ts:885-898 | In every run, a campaign done or stopped stays so and rings and texts no one again. |
| `OutreachRuns.ReportedOnceWhenOver` | app/src/outreach.ts:1436-1451 | In every run, a campaign's report is made at most once, exactly when it is over; no one is live then, and all are final when it is done. |
| `OutreachRuns.NotContacted` | app/src/outreach.ts:1543-1547 | In every run the do-not-contact list only grows, and no one the same as a listed number is rung or texted after. |
| `OutreachRuns.LateRinging` | app/src/outreach.ts:1251-1259 | The guard of a ringing event keeps the invariant exactly when it does not revive a person whose call's end was heard; two are live after it exactly when it does while another is. |
| `OutreachRuns.LateRingingExample` | app/src/outreach.ts:1254-1254 | A run after which a late ringing event puts two people on the phone. |
| `Sentences.PiecesLoseNothing` | app/src/sessions.ts:419-437 | The pieces cut and what is left are the text, and nothing more is cut of what is left. |
| `SentenceEnds.PieceEndIff` | app/src/sessions.ts:422-433 | Where text is cut: at its first sentence's end, or with none in more than 220 characters at the last comma past the fortieth, else at the last blank; a word having begun after it. |
| `Sentences.CutInParts` | app/src/sessions.ts:419-437 | Text no piece of which can be cut two ways is cut the same, part of it first or all at once. |
| `Sentences.ChunksDoNotMatterIff` | app/src/sessions.ts:419-437 | The pieces do not depend on the chunks a text comes in exactly when no piece of it can be cut two ways: when, piece by piece, neither its first 221 characters nor all of it that shows no sentence's end is cut earlier than the whole. |
| `Sentences.SteadyIsCutAlike` | app/src/sessions.ts:425-428 | So it is of text with a sentence's end in every 220 characters. |
| `Sentences.ChunksMatterOnce` | app/src/sessions.ts:425-428 | A text cut differently when it comes in two chunks. |
| `Speech.EveryRunKeeps` | app/src/sessions.ts:362-513 | In every run no sentence of four words is said twice on a call but when taken back between (words said now, or a reply with nothing new, apart); a filler only opens a turn; a turn has one hold word; each line has its turn once, in order. |
| `Speech.StreamingLosesNothing` | app/src/sessions.ts:419-437 | The pieces given to be spoken and the buffer are the buffer there was and all that was pushed. |
| `Speech.HowItCameDoesNotMatter` | app/src/sessions.ts:419-437 | For text no piece of which can be cut two ways, the whole state after it does not depend on the deltas. |
| `Speech.NeverSilent` | app/src/sessions.ts:459-467 | A reply flushed has said something exactly when it had anything to say, new or said before. |
| `Speech.HushedUntilTheNextBegins` | app/src/sessions.ts:469-512 | Of the lines queued when the caller spoke over the reply, none is said exactly when none is left as the next reply begins; else all that are left are. |
| `Speech.Speaker.PushDelta` | app/src/sessions.ts:419-437 | The loop speaks every complete sentence, in order, keeps the rest, and ends. |
| `Speech.SpeakKeeps` | app/src/sessions.ts:484-504 | A sentence of a reply, whether queued, held back as said before, or passed over as a filler, keeps what every run does; that a new one is said is `SpeechLines.ReplySays`. |
| `SpeechLines.ReplySays` | app/src/sessions.ts:383-504 | A whole reply, however it came, adds to the queue exactly its new lines in their order: its clean pieces but fillers out of place and those of four words said before on the call or in it; where it has none, all of the latter. |
| `SpeechLines.PushSays` | app/src/sessions.ts:419-504 | So it is of what one delta completes; what was said before is held back, the rest waits. |
| `SpeechLines.NewLineIsSaid` | app/src/sessions.ts:484-504 | A reply of one new sentence is said, and known as said. |
| `SpeechLines.HoldSays` | app/src/sessions.ts:394-397 | A line for a slow tool is queued once, where the reply has said nothing. |
| `SpeechLines.HoldWordSays` | app/src/sessions.ts:405-412 | A hold word is queued once a turn, before anything is said. |
| `SpeechLines.ATurnsHoldWord` | app/src/sessions.ts:383-412 | Each turn may have one; after a tool it is the same turn still. |
| `SpeechLines.SpokenOver` | app/src/sessions.ts:394-472 | Spoken over, a reply queues nothing more, whatever comes, and nothing of it counts as said. |
| `SpeechLines.NowAndGoodbye` | app/src/sessions.ts:443-457 | Words to be said at once are queued whatever was said; a goodbye takes what the buffer has. |
| `SpeechLines.Forgetting` | app/src/sessions.ts:415-477 | A new call and taking back are what makes a sentence new again, and nothing else of the state. |
| `Speech.Speaker.FlushReply` | app/src/sessions.ts:459-467 | The reply's end speaks what is left, and everything held back when there is nothing else. |
| `Speech.Speaker.UnsayLines` | app/src/sessions.ts:475-477 | Each line taken back is no longer said. |
| `DesktopEvents.HandledOnceInOrder` | app/src/sessions.ts:3042-3061 | With no restart, whatever requests fail: events handled all come after where the stream was, each at most once, in order, and nothing more goes to the backlog. |
| `DesktopEvents.AllHandledIff` | app/src/sessions.ts:3042-3061 | With no restart, whatever fails: the events handled are every one past where the stream was, each once and in order, exactly when no look asked for one the desktop had let go of (it keeps 500). |
| `DesktopEvents.AllHandled` | app/src/sessions.ts:3052-3061 | So they are when all there was by each look's end was still kept. |
| `DesktopEvents.NextHandledIff` | app/src/sessions.ts:3042-3061 | The next event is handled by a look that gets its answer, after a lapse or not, exactly when the desktop has not let go of it. |
| `DesktopEvents.OneIsGone` | app/src/sessions.ts:3052-3061 | Five hundred and one between two looks: the first is never handled. |
| `DesktopEvents.FirstLookPasses` | app/src/sessions.ts:3024-3037 | The first look passes over, in order, what is kept up to the stream's end. |
| `DesktopEvents.FirstLookIs` | app/src/sessions.ts:3024-3037 | The first look that gets to the end handles nothing and passes over what is kept, once, in order; it gets there when no answer fails. |
| `DesktopEvents.LapsedAgain` | app/src/sessions.ts:3042-3052 | A look that finds a restart, and then gets no answer, goes on from the new numbering's start all the same. |
| `DesktopEvents.AfterARestart` | app/src/sessions.ts:3039-3061 | A restarted numbering is followed from its first exactly when the desktop did not answer at the look before and it is still below the last number seen. |
| `DesktopEvents.ARestartNotSeen` | app/src/sessions.ts:3039-3051 | A restart that has numbered past the last number seen: its first five events are never handled. |
| `DesktopEvents.ARestartBetweenAnswers` | app/src/sessions.ts:3042-3052 | A restart between two looks that were answered: though its numbers are below the last seen, the look changes nothing. |
| `DesktopEvents.FollowedAnew` | app/src/sessions.ts:3039-3061 | After a lapse, while the new numbering is below the last number seen and keeps its first: whatever fails and whatever comes meanwhile, nothing happened yet, or every new event up to where the stream is was handled, each once and in order. |
| `DesktopEvents.RestartedAllHandled` | app/src/sessions.ts:3039-3061 | From then on, however many come, each event of the new numbering is handled once, in order, exactly when no look comes too late. |
| `DesktopEvents.Follower.Tick` | app/src/sessions.ts:3017-3077 | A look, with its loops and its failures, does what is specified. |
| `Lanes.NextKeeps` | app/src/sessions.ts:2657-2894 | Every step keeps every invariant of lanes, runs, messages and tasks. |
| `Lanes.MessageOnce` | app/src/sessions.ts:2697-2734 | In every run each message that came is in exactly one place: waiting, not read yet, coming back, or at its one end (taken by a run, read by one, stopped, its call over). |
| `Lanes.WaitingIffQueued` | app/src/sessions.ts:2225-2231 | In every run a conversation is in its lane's queue, once, exactly when a message waits for it, and a lane runs one at a time. |
| `Lanes.TaskAnsweredOnce` | app/src/sessions.ts:2653-2678 | In every run a flow's task waits or was answered as often as it was asked. |
| `Lanes.AnsweredInOrderIff` | app/src/sessions.ts:2653-2678 | In every run a flow's tasks are answered in the order they were asked, those left waiting in it, exactly when no run's end found its own task waiting no more, one in its words behind another, and the first in other words. |
| `Lanes.OwnAnswerIff` | app/src/sessions.ts:2856-2858 | A run's end answers its own task when that still waits; else the first that waits and was asked in its words, and none exactly when there is none. |
| `Lanes.AnotherIsAnswered` | app/src/sessions.ts:2856-2858 | A run of steps in which a stopped task's run settles a task asked later in its words. |
| `Lanes.AnsweredOutOfOrder` | app/src/sessions.ts:2856-2858 | A run in which the third task asked is answered before the second. |
| `Lanes.StoppedYetUnreadRuns` | app/src/sessions.ts:2864-2893 | A conversation stopped in any phase, and its run ended: what waits is what came for that run and was not read (none where its call is over), and it is queued exactly when there is any. |
| `Lanes.StoppedAndRunsAgain` | app/src/sessions.ts:2864-2893 | A run of steps after which a conversation that was stopped is queued again. |
| `Lanes.DeliverKeeps` | app/src/sessions.ts:2697-2715 | A message brought, whether to the running agent or to wait, keeps every invariant: it is in one place, and its conversation is queued once exactly when it waits; where in the lane, `LanesOrder.DeliveredWhere`. |
| `LanesOrder.DeliveredWhere` | app/src/sessions.ts:2697-2715 | A message for a run that reads now goes last to it; else last to what waits, and its conversation, if not queued, last in its lane: first for the person's own. The others keep their order. |
| `LanesOrder.AskedWhere` | app/src/sessions.ts:2657-2679 | A flow's task waits last, its conversation last among the texts. |
| `LanesOrder.QueuedWhere` | app/src/sessions.ts:2225-2231 | A run asked for after the one going on is queued last, and never read into that. |
| `LanesOrder.TakenWhat` | app/src/sessions.ts:2718-2730 | The lane takes its queue's head with all that waits for it in the order it came; of tasks the first alone, and the conversation goes last again when more wait. |
| `LanesOrder.ReadWhat` | app/src/sessions.ts:2700-2706 | The agent at work reads all that came, in order. |
| `LanesOrder.EndedWhat` | app/src/sessions.ts:2864-2870 | What a run did not read is left, but of a call that is over, let go. |
| `LanesOrder.ReturnedWhere` | app/src/sessions.ts:2864-2879 | And is put after what waits, its conversation last in its lane. |
| `LanesOrder.StoppedWhat` | app/src/sessions.ts:2883-2894 | A stop lets go of what waits, tells the flows, takes the conversation from its lane and leaves the others' order. |
| `LanesOrder.TakenInTurn` | app/src/sessions.ts:2710-2727 | With none put first, one with `p` before it in the lane is among the next `p + 1` taken. |
| `LanesOrder.EarlierTakenEarlier` | app/src/sessions.ts:2710-2727 | Of two queued in a lane the earlier is taken earlier, in every run in which it is not stopped and the other not put first. |
| `Lanes.Dispatcher.FindTask` | app/src/sessions.ts:2857-2857 | The loop finds the first task asked in these words. |
| `Lanes.Dispatcher.StopRun` | app/src/sessions.ts:2883-2894 | Stopping empties what waits, tells every flow, and takes the conversation out of both lanes. |
| `Lanes.Dispatcher.FinishRun` | app/src/sessions.ts:2853-2872 | A run's end settles a task and sorts what was left unread as specified. |
| `Countries.CountriesOk` | app/src/phoneNumbers.ts:31-73 | What holds of every country of the table: its calling code, trunk, exit code and lengths. |
| `Countries.TrunksAreTheTables` | app/src/phoneNumbers.ts:196-198 | The calling codes after which a 0 is dropped are exactly those of the table's countries whose trunk is 0. |
| `PhoneNumbers.SplitInvertsJoin` | app/src/phoneNumbers.ts:186-190 | Splitting a calling code joined to a number gives both back, for every country of the table. |
| `PhoneNumbers.ReadIsE164` | app/src/phoneNumbers.ts:209-230 | Every number read is E.164: a plus, at most fifteen digits, the first not 0. |
| `PhoneNumbers.InternationalAgainIff` | app/src/phoneNumbers.ts:193-200 | An international number read again is itself exactly when it has seven digits and no trunk left after its calling code. |
| `PhoneNumbers.KeyAgainIff` | app/src/phoneNumbers.ts:254-261 | A caller's key is its own key exactly when what was read leaves no trunk, and what was not is no number without its "(0)". |
| `PhoneNumbers.KeyAgainByText` | app/src/phoneNumbers.ts:254-261 | Told from the text: exactly when the trunk is not written twice after a calling code that has one; and, where "(0)" is written and what is left without it is no number, when it is none with it (or that one). |
| `NumbersRead.EveryNumberIsRead` | app/src/phoneNumbers.ts:202-230 | Every number of every country of the table is read as written there: but Japan's with 10, Italy's with 00. With its code and no plus too: but Italy's of nine digits or fewer. |
| `NumbersRead.ItalysThirtyNine` | app/src/phoneNumbers.ts:226-228 | One such Italian number, taken for a longer one. |
| `NumbersRead.OnlyTheseAreRead` | app/src/phoneNumbers.ts:224-229 | Digits that begin no call abroad are read only as one of those. |
| `NumbersRead.ReadWithPlus` | app/src/phoneNumbers.ts:193-200 | A number with a plus and its code is read as that, less a trunk of 0 after the code of a country with one, given seven digits to fifteen. |
| `NumbersRead.ReadAbroad` | app/src/phoneNumbers.ts:220-223 | What calls abroad begin with is a plus. |
| `NumbersRead.MarksDoNotMatter` | app/src/phoneNumbers.ts:212-219 | Spaces, dashes, dots, slashes and brackets do not matter. |
| `NumbersRead.LinkIsRead` | app/src/phoneNumbers.ts:212-214 | Nor does a link's `tel:`, in either case. |
| `NumbersRead.BracketedTrunk` | app/src/phoneNumbers.ts:215-216 | Nor does a trunk in brackets. |
| `Countries.TrunkTwice` | app/src/phoneNumbers.ts:254-261 | A number with its trunk written twice, whose key is not its own key, and which is not printed so that it comes back. |
| `Countries.KeyReadAgain` | app/src/phoneNumbers.ts:254-261 | A number with "(0)" and no country, whose key has another key. |
| `PhoneNumbers.SameIsSymmetric` | app/src/phoneNumbers.ts:271-278 | The same person both ways; anyone is themselves but a hidden caller. |
| `PhoneNumbers.SameWhenRead` | app/src/phoneNumbers.ts:271-278 | Two numbers read are the same person exactly when they are the same number. |
| `PhoneNumbers.SameIsTransitiveIff` | app/src/phoneNumbers.ts:271-278 | Of two numbers each the same person's as a third: they are one person's exactly when one of them is not read, or both are one number. |
| `NumbersRead.OnePersonIff` | app/src/phoneNumbers.ts:271-278 | Two numbers are one person's exactly when they are one once read; or, one of them not read, are alike in their last nine digits, of eight or more. |
| `NumbersRead.ANamesOwn` | app/src/phoneNumbers.ts:271-278 | A sender that is no number is one only with those written alike. |
| `Countries.NotTransitive` | app/src/phoneNumbers.ts:274-277 | Three numbers by which it is not transitive. |
| `PhoneNumbers.IndexIsScan` | app/src/phoneNumbers.ts:288-321 | After any additions the index says what a scan of all added would. |
| `PhoneNumbers.PersonIndex.Add` | app/src/phoneNumbers.ts:305-310 | One more member, in the sets it belongs in. |
| `PhoneNumbers.PersonIndex.Has` | app/src/phoneNumbers.ts:313-320 | True exactly when some member is the same person. |
| `PhoneDisplay.Groups` | app/src/phoneNumbers.ts:324-333 | The loop's groups, joined, are the digits in threes, the last up to four. |
| `PhoneDisplay.NationalKeeps` | app/src/phoneNumbers.ts:336-351 | A number as written at home keeps its digits, after the trunk or without it; New Zealand's of fewer than seven have some of them twice. |
| `PhonePrinted.AustraliansAre` | app/src/phoneNumbers.ts:338-361 | Australian numbers: mobiles in threes, the others by area and fours, with the trunk at home and without it abroad. |
| `PhonePrinted.ThirteenHundreds` | app/src/phoneNumbers.ts:340-340 | Their ten digits that begin with 1 have no trunk. |
| `PhonePrinted.NewZealandersAre` | app/src/phoneNumbers.ts:342-357 | New Zealand's: the last seven as three and four. |
| `PhonePrinted.BritonsAre` | app/src/phoneNumbers.ts:344-358 | Britain's: London's as two and fours, the others after four. |
| `PhonePrinted.NorthAmericansAre` | app/src/phoneNumbers.ts:347-359 | North America's: the area in brackets at home. |
| `PhoneDisplay.LocalRoundTripIff` | app/src/phoneNumbers.ts:369-376 | A number of the country, printed and read again, is itself exactly when it fits the country and is not printed as a call abroad begins. |
| `Countries.LocalRoundTrip` | app/src/phoneNumbers.ts:336-376 | In every country of the table but Japan and Italy, every number that fits it comes back. |
| `Countries.JapansTen` | app/src/phoneNumbers.ts:369-376 | In Japan one that begins with 10 does not. |
| `Countries.ItalysZeros` | app/src/phoneNumbers.ts:369-376 | In Italy one that begins with 00 does not. |
| `PhoneDisplay.ForeignRoundTripIff` | app/src/phoneNumbers.ts:354-376 | A number of another country comes back exactly when it has seven digits and no trunk left after its calling code (New Zealand's of fewer than seven digits after it: when there are four and the one printed twice is 0). |
| `PhoneDisplay.NoNumberRoundTrip` | app/src/phoneNumbers.ts:369-372 | What is no number is shown as it is. |
| `PhoneLine.IdleIff` | app/src/phoneLine.ts:81-86 | A dial may go exactly when nothing heard of lately enough is on the line, none goes on here, and the calm is over. |
| `PhoneLine.ForeignIs` | app/src/phoneLine.ts:40-68 | Another's call is on the line exactly when it was heard to come and has not ended since, from when it was last heard of. |
| `PhoneLine.WaitingIs` | app/src/phoneLine.ts:48-66 | A caller waits exactly when their knock was heard and neither it nor the call they knocked on has ended, nor have they rung in. |
| `PhoneLine.CalmIs` | app/src/phoneLine.ts:67-75 | The calm is over exactly when a minute has passed since every end. |
| `PhoneLine.FreeInTwoHours` | app/src/phoneLine.ts:81-86 | With nothing more heard, a dial may go after two hours. |
| `PhoneLine.PlacedIs` | app/src/phoneLine.ts:53-103 | A dial of the app's is on the line from when it was taken until it is given up: its call ended, it failed, or it was released with no call yet. |
| `PlacedCalls.DialIsOf` | app/src/phoneLine.ts:52-98 | The dial on the line is of the call and operation it was bound to last, or bound to no call of the first heard dialled since it was taken. |
| `PhoneLine.IdleByHistory` | app/src/phoneLine.ts:81-86 | A dial may go exactly when every dial of the app's, every other's call and every knock heard of is over or lost, every end is a minute ago, and no call goes on here. |
| `PhoneLine.LettingGoIff` | app/src/phoneLine.ts:81-86 | What a look lets go of changes no later answer, whatever is heard after, exactly when no dial of the app's is among it. |
| `PhoneLine.LettingGoOfHeard` | app/src/phoneLine.ts:36-86 | So it is of every line made by what was heard. |
| `PhoneLine.LettingGoChangesNothing` | app/src/phoneLine.ts:81-86 | Over a whole run of looks it changes none, as long as nothing is heard of a dial of the app's after it was lost. |
| `PhoneLine.ALostDialHeardOf` | app/src/phoneLine.ts:56-57 | Otherwise it can: a dial heard of only after eleven minutes. |
| `PhoneLine.TheLine.Hear` | app/src/phoneLine.ts:36-78 | Each event and request changes the fields as specified. |
| `PhoneLine.TheLine.LookIdle` | app/src/phoneLine.ts:81-86 | The answer, and the maps pruned in place. |
| `Callbacks.EveryRunKeeps` | app/src/callbacks.ts:188-286 | In every run at most one call back rings, those open are of different people, and none is rung more than twice. |
| `Callbacks.SavingKeeps` | app/src/callbacks.ts:288-294 | Saving loses no open call back and keeps the last twenty others. |
| `Callbacks.MissedIsOpen` | app/src/callbacks.ts:207-215 | A missed call always leaves one to be made, for that number (a hidden caller's too) or the same person's. |
| `Callbacks.RingsTheFirst` | app/src/callbacks.ts:236-286 | A look that rings rings the one due whose call was missed first, whom the filter lets it ring. |
| `Callbacks.RefusedIsLater` | app/src/callbacks.ts:117-125 | A refused dial's next time is strictly later; over the daily limit it is five minutes into the next local day. |
| `Callbacks.RefusedWaits` | app/src/callbacks.ts:268-286 | A refused dial is no try: they wait on as they were, due at no time up to the look's (over the daily limit, at none of its local day). |
| `CallbackOutcomes.RangOut` | app/src/callbacks.ts:226-233 | A call back answered is done; one not answered waits the retry, or after its second try is dropped. |
| `CallbackOutcomes.RangNone` | app/src/callbacks.ts:226-229 | The end of no call back's dial changes nothing. |
| `CallbackOutcomes.MissedAnew` | app/src/callbacks.ts:207-215 | A missed call of someone with none going on makes one, untried, for a minute and a half later. |
| `CallbackOutcomes.MissedAgain` | app/src/callbacks.ts:207-215 | Of someone with one it is of this call now, tried no later than it was to be. |
| `CallbackOutcomes.GotThrough` | app/src/callbacks.ts:218-223 | Those that wait of someone who got through are done, and no others. |
| `CallbackOutcomes.NoneWaits` | app/src/callbacks.ts:218-221 | When none of theirs waits nothing changes. |
| `CallbackOutcomes.LooksAndRings` | app/src/callbacks.ts:236-282 | A look that may ring rings, drops, leaves or puts off the one in turn, as the guards and the phone say. |
| `CallbackOutcomes.LooksAtLost` | app/src/callbacks.ts:242-243 | A dial not heard of for too long is one not answered. |
| `CallbackOutcomes.LooksForNone` | app/src/callbacks.ts:244-247 | With none due only the too old are dropped. |
| `CallbackOutcomes.LooksOn` | app/src/callbacks.ts:244-244 | While one rings, or none may, nothing changes. |
| `Callbacks.Caller.Save` | app/src/callbacks.ts:288-294 | The list rebuilt: the open ones, and the last twenty settled. |
| `Callbacks.Caller.MissedCall` | app/src/callbacks.ts:207-215 | The entry found (the search is the specification's) is brought forward, or one added, and the list saved by its loop. |
| `Callbacks.Caller.SettleFor` | app/src/callbacks.ts:218-223 | The loop settles every waiting call back of that person. |
| `Callbacks.Caller.LookNow` | app/src/callbacks.ts:236-286 | A look, guard by guard, does what is specified. |
| `SharedLine.NextNotBusier` | app/src/outreach.ts:984-1001 | No step makes outreach busy but a look for a dial that goes before no call back. |
| `SharedLine.NeverBoth` | app/src/main.ts:1383-1383 | In every run of both, a call back ringing and an outreach call are never live together. |
| `Contacts.MirroredAgain` | app/src/contacts.ts:101-122 | Mirroring a note its contact was mirrored into changes nothing. |
| `Contacts.OwnersNameWins` | app/src/contacts.ts:84-90 | A name the owner gave always wins. |
| `ContactsSay.NameIs` | app/src/contacts.ts:84-90 | Else the note's name is kept, unless that was the owner's: then the contact's, or none. |
| `ContactsSay.NameStays` | app/src/contacts.ts:88-88 | With no contact the note's name stays; one the owner gave is no longer theirs once all is moved. |
| `ContactsSay.MirroredIs` | app/src/contacts.ts:101-122 | Which fields are the contact's and which the note's, before and after the move; it is a change, at that time, exactly when one differs. |
| `ContactsSay.FactsAreTexts` | app/src/contacts.ts:104-105 | The owner's facts, or the receptionist's, are the texts of all of those, in order. |
| `Contacts.NoFactLost` | app/src/contacts.ts:106-109 | Before the move no fact is lost, of the note or the contact. |
| `Contacts.FactsAfterTheMove` | app/src/contacts.ts:106-109 | After it the facts are the receptionist's of the contact and those not sent, and no other. |
| `Contacts.MoveKeeps` | app/src/contacts.ts:139-159 | Moving sends each fact as new at most once and stores nothing else; when done, all was sent, there already, or skipped. |
| `Contacts.TriedUntilDone` | app/src/contacts.ts:132-159 | Tried again after any failures until done: every accepted fact is there, none sent as new twice. |
| `Contacts.DoneIffReached` | app/src/contacts.ts:139-159 | It is done exactly when the desktop answers as many requests as there are facts of phone numbers, and then that many were made. |
| `Contacts.Store.MoveFacts` | app/src/contacts.ts:139-159 | The nested loops, stopping at the first failure, do what is specified. |
| `ServiceWorker.HandedOver` | app/public/sw.js:36-100 | In every run: the running build has its cache, the last stamped; after a takeover, the first among them, the app's caches are the new build's and the previous one's, which is the one that ran just before; a failed upgrade leaves all as it was; no one else's is touched. |
| `ServiceWorker.FailedInstallKeeps` | app/public/sw.js:40-47 | A failed upgrade leaves every cache as it was. |
| `ServiceWorker.FetchedInstallIs` | app/public/sw.js:36-51 | An install that fetched its files fills the build's cache, and leaves the others. |
| `ServiceWorker.UnfetchedFirstInstallIs` | app/public/sw.js:40-47 | The first build's install, with nothing fetched, leaves it an empty cache. |
| `ServiceWorker.TakenOverIs` | app/public/sw.js:66-100 | A build that takes over is running, its cache stamped, and the caches left are as they were. |
| `ServiceWorker.PreviousIsActive` | app/public/sw.js:72-85 | The previous build found is the one running. |
| `ServiceWorker.PreviousIs` | app/public/sw.js:66-85 | The previous build is the first of those stamped latest, or with no stamp at all the newest whose cache holds anything; none exactly when there is neither. |
| `ServiceWorker.FindPrevious` | app/public/sw.js:72-85 | The two loops find it. |
| `Addresses.FullReads` | shared/capabilities/local.ts:48-72 | Eight groups in any digits are read back, in brackets or not. |
| `Addresses.ShortReads` | shared/capabilities/local.ts:59-71 | So are groups with a run of zeros left out at a double colon. |
| `Addresses.TailReads` | shared/capabilities/local.ts:52-58 | A dotted tail is read as the two groups it is. |
| `Addresses.DottedFullReads` | shared/capabilities/local.ts:48-72 | Six groups and a dotted tail are read as eight, in brackets or not. |
| `Addresses.DottedShortReads` | shared/capabilities/local.ts:48-72 | So they are with a run of zeros left out. |
| `Addresses.LoopbackIsPrivate` | shared/capabilities/local.ts:120-149 | This computer alone is a private network, for an address or a name. |
| `Addresses.PrivateIsLocalIff` | shared/capabilities/local.ts:96-149 | A private network is local exactly when it is written as an IPv6 address, or its name does not end in two dots. |
| `AddressRanges.LocalRanges` | shared/capabilities/local.ts:33-43 | Local IPv4 addresses are exactly those of 10/8, 127/8, 169.254/16, 172.16/12, 192.168/16, 0/8 and 100.64/10; those that stay on this network are the same but the last two. |
| `AddressRanges.LocalIsGroups` | shared/capabilities/local.ts:77-94 | And of IPv6 ::, ::1, fc00::/7, fe80::/10, 64:ff9b:1::/48, and those that carry a local IPv4 address: mapped, or by 64:ff9b::/96, 6to4 or Teredo. |
| `AddressRanges.LocalIs` | shared/capabilities/local.ts:96-118 | An address or name is local by those ranges, or by its ending. |
| `AddressRanges.LoopbackIs` | shared/capabilities/local.ts:120-133 | This computer alone: 127/8, ::1 and the names under localhost. |
| `AddressRanges.PrivateIs` | shared/capabilities/local.ts:134-149 | A private network: the ranges that stay on this network, ::1, fc00::/7 and fe80::/10, and the first as IPv4-mapped; nothing translated or tunnelled. |
| `AddressRanges.OctetsAreRead` | shared/capabilities/local.ts:26-31 | Four numbers up to 255 with dots between are read as those. |
| `AddressRanges.TwoRunsAreNone` | shared/capabilities/local.ts:59-60 | Zeros left out twice are no address. |
| `Addresses.TwoDotsDiffer` | shared/capabilities/local.ts:111-133 | A name that ends in two dots is private and not local. |
| `Lfru.Inclusion` | tools/dsv41/cache_sim.py:25-38 | With fewer slots the cache is always part of what it is with more. |
| `Lfru.HitsNeverFall` | tools/dsv41/cache_sim.py:25-38 | Hits never fall as slots grow. |
| `Lfru.UsedIsTheHistory` | tools/dsv41/cache_sim.py:26-30 | `freq` and `last` are each key's number of accesses and its last one. |
| `Lfru.VictimIsUnique` | tools/dsv41/cache_sim.py:35-35 | Which key goes does not depend on the order of the set. |
| `Lfru.AmpleSlots` | tools/dsv41/cache_sim.py:25-38 | With a slot for every key, hits are the accesses less the distinct keys. |
| `Lfru.WarmHits` | tools/dsv41/cache_sim.py:46-48 | The hits of a sequence less those of its prefix lie between none and the rest's length. |
| `Lfru.WarmRate` | tools/dsv41/cache_sim.py:45-48 | One GPU's warm hit rate: the hits after the first half of its accesses, of those accesses; none where the source raises. |
| `Lfru.Lfru` | tools/dsv41/cache_sim.py:25-38 | The loop's hits, or none where the source raises. |
| `Lfru.Least` | tools/dsv41/cache_sim.py:35-35 | `min` over the set: the least used, the least recent of those. |

## Left out

- Everything the Agent's page draws, its timers, leases and discovery, and `main.ts` but for the guard cited: no state of their own worth a proof.
- Prompts, reports, history lines, Markdown and CSV wording, and the heuristics by regular expression over them (links, promised bookings, named times).
- The agent, the desktop and the file store: they answer, refuse or fail as a step's input says. A write that fails part way is not modelled.
- What happens while a step awaits: an outreach, call-back or event look is one step, so a text settled while its call back is being screened, or `forget` during a look, is not seen.
- `parseCallStart` and `parseCallerLine`: a turn's call start and the caller's time into it are fields of the turn.
- `planOutreach`, `tally` and the campaigns' collected answers; whether a campaign's hours let it call now is a part of a look.
- OutreachEngine: recording, binding a call's voice, pausing, resuming and creating are single assignments, specified in `Outreach` and proved in `OutreachKept` and `OutreachRuns`, without a method of their own.
- Outreach: the page that answers a text's or call's leases, and history, summaries and lines kept beside each person.
- The booking nudge at the end of a call's run, and which text thread reads its contact first: the run is otherwise as it is.
- Lanes.MessageOnce: what came after a call was over has one end whether it is kept as a turn or dropped for a new call.
- Lanes: an empty message, which the program drops without a run, is taken as any other.
- Lanes: the times stamped on turns, and the files and the index written one at a time.
- Speech: the key of a sentence, its four words, what is a filler and how a line reads when spoken are parameters; a speaker that fails only says so.
- Sentences: lengths are in characters; the program counts UTF-16 units, two for a character outside the basic plane.
- DesktopEvents.Follower.Tick: events are their numbers; that the desktop did not answer is reported elsewhere.
- PhoneNumbers: letters of other scripts, and the words for a hidden caller, are parameters of a reader, of which only that digits count and such words begin with a letter is used; which country is detected is not modelled; the non-breaking space some classes may hold is a space here.
- RegroupSettles.RegroupingAgain: each of its conditions is needed in a case shown, but a list that breaks one may still settle; titles are left out of what is the same (the program counts a name alone as no change), and lanes and notes are compared in any order (two of one time may change places).
- Regroup: the object a turn is in two files at once, and files that are in no conversation.
- Callbacks.RefusedIsLater: local time is one offset for a look; a clock changed between it and the next five past midnight is not modelled.
- Contacts: the desktop's own limits on a contact's facts are its refusals; contacts changed by others between two tries of moving are not modelled.
- ServiceWorker: fetching, the cache's contents but for whether there are any, and pages that keep running an earlier build.
- Addresses: names in letters beyond ASCII are not put in lower case; an address with a zone is cut at it and not proved further.
- `settings.ts`, `shared/providers`, `shared/broker`, the rest of `shared/capabilities`, and build scripts: input and output, foreign calls, or tables read in one branch.
