# Connections + RAT experiment, modelled in Dafny

`ERP_CONRAT.py` runs a timed psychology experiment in a tkinter window and sends an
append-only stream of text markers (`Player<id>_<label>`) to an LSL outlet. Under the
widgets sit several small, sequential state machines. This project models them with the
widgets removed:

- **The marker format** (module `Markers`, `markers.dfy`). Every label the program sends
  is a `Label` value. `LabelText` writes it exactly as the program's f-strings do, and
  `Marker` adds the `Player<id>_` prefix, with `NA` when no ID is set. A parser
  (`ReadMarker`, `ParseLabel`) is proved to read every marker back, so the marker stream
  is unambiguous. `MarkerStream` is the sink `send_marker` writes to, a class whose `log`
  field only grows. The ID screen's strip-and-reject-blank rule is `AcceptedId`.
- **One Connections puzzle** (module `Connections`, `connections.dfy`). The board is a
  value `Board`, with tiles, the selection and the guess count. `Toggle`, `Evaluate` and
  `Play` are the specification functions. The class `ConnectionsGame` has the source's
  fields and methods (`StartNewPuzzle`, `ToggleTile`, `DeselectAll`, `CheckSelection`),
  each proved equal to the functions.
- **The rating rest between puzzles** (module `ConnectionsRest`, `rest.dfy`). `RestState`
  holds the rest attributes of `ExperimentApp`, the completed-puzzle count and the
  recorded ratings. `Tick`, `Select`, `End` and `PuzzleComplete` are the specification
  functions. `Run` plays any sequence of ticks, rating clicks, master skips, runs of the
  stored '.' callback and late puzzle-complete callbacks over a rest.
- **The RAT** (module `Rat`, `rat.dfy`). `RatState` has the phases Unstarted, Think,
  Reveal, Rest and Done, the item index and the countdowns. The class `RATGame` mirrors the
  source's methods. A cursor automaton (`Follow`) states the marker order of an item:
  Start, Response, End, Rest_Start, Rest_End.
- **The questionnaire** (module `Survey`, `survey.dfy`). It has five questions, each
  answered or skipped once.
- **The orchestrator** (module `Experiment`, `app.dfy`). `ExperimentApp` holds:
  - the stored Enter/Return and master-skip callbacks, as `Action` values;
  - the rest state;
  - the current puzzle game, RAT and questionnaire objects;
  - the count of 2500 ms puzzle-complete callbacks still pending.

  Each screen, callback, tick and key handler is a method.

Timers are explicit events. Each `after(1000, …)` tick is a method the environment may
call at any time (an over-approximation of the real scheduler). A pending `after` handle is
a boolean, and cancelling it clears the boolean. Random group sampling and shuffling are
inputs: one `Draw` per new puzzle, holding four distinct group positions and a
permutation of the 16 tiles.

The source is modelled as written, including its quirks:

- **Puzzle count.** The Connections loop bound is 15 puzzles (`R.PuzzleCount`,
  ERP_CONRAT.py:524). The instructions tell participants 10 (ERP_CONRAT.py:252); the
  model follows the code.
- **The puzzle game is never dropped.** `self.conn` stays set after the Connections
  stage. So once a RAT exists, the master skip completes a "puzzle" again instead of
  advancing the RAT (`SkipNeverReachesRatOrSurvey`).
- **The rest leaves state behind.** Ending a rest neither clears the stored `.` callback
  nor resets the rating choice. In the model, `lastOnNext` stays `EndConnectionsRest` and
  `rest.choice` keeps its value. So when a rest ends on its last tick and opens the next
  puzzle, a later '.' runs `_end_connections_rest` a second time. That run sends
  NoResponse (when nothing was chosen) and Rest_End again, appends a second ratings entry
  for the same puzzle, and replaces the new puzzle game with another fresh one for the
  same index (`StoredEndRepeats`, `TickRest`, `Invoke`).
- **Nothing cancels the completion callback.** A correct group schedules
  `on_connections_puzzle_complete` 2500 ms later, and nothing cancels it. If '.' completes
  the puzzle first, or a second correct group follows within 2.5 s, the callback fires
  during the rest for puzzle k. It then starts the rest for k + 1 over it. Rest k never
  sends NoResponse or Rest_End and gets no ratings entry, and a rating already clicked for
  it is lost (`RestAbandoned`, `FirePuzzleComplete`). Starting rest k + 1 does not cancel
  rest k's pending countdown callback either, so two tick chains then run during rest
  k + 1 and its countdown ends in about half the time. The model's ticks are calls the
  environment makes at any time, so this timing is not visible in it. The rest protocol
  lemmas hold for runs without such a callback.
- **Enter restarts the questionnaire.** `show_post_questions` never unbinds Enter/Return,
  which the congratulations screen bound to it. So Enter during the questionnaire sends
  PostSurvey_Start again and starts a fresh questionnaire at question 1
  (`StartQuestionnaire`, `PressReturn`).

## Model

| member | source | states |
|---|---|---|
| Markers.NatToString | ERP_CONRAT.py:594 | the decimal text of a number is non-empty, all digits, and has no leading zero unless it is "0" |
| Markers.DigitsValueOfNatToString | ERP_CONRAT.py:594 | reading back the digits of `NatToString(n)` gives `n` |
| Markers.ReadNatOfNatToString | ERP_CONRAT.py:687 | a number's text followed by a non-digit is read back as that number and the rest of the text |
| Markers.ReadNat | ERP_CONRAT.py:687 | reading a number fails exactly when the text does not start with a digit; on success the rest is a strict suffix |
| Markers.After | ERP_CONRAT.py:163 | the text after a prefix exists exactly when the prefix is a prefix, and prefix + rest is the whole text |
| Markers.RatingRoundTrip | ERP_CONRAT.py:483-503 | `_<v>` and `_NoResponse` are read back as the rating or its absence |
| Markers.GuessRoundTrip | ERP_CONRAT.py:687-700 | a `Connections<i>_Guess<g>_Correct/_Incorrect` label reads back as the same puzzle, guess number and outcome |
| Markers.ConnectionsRoundTrip | ERP_CONRAT.py:160-170 | the Start, End, Rest_Start and Rest_End labels of a puzzle read back as themselves |
| Markers.RatRoundTrip | ERP_CONRAT.py:851-981 | every `RAT<n>_…` label reads back as itself |
| Markers.ConnRatingRoundTrip | ERP_CONRAT.py:483-503 | `ConnectionQ<i>_<v>` and `ConnectionQ<i>_NoResponse` read back as themselves |
| Markers.PostRatingRoundTrip | ERP_CONRAT.py:1077-1085 | `PostQ<n>_<v>` and `PostQ<n>_NoResponse` read back as themselves |
| Markers.LabelRoundTrip | ERP_CONRAT.py:160-170 | every label the program sends is read back as itself from its text, so no two labels share a text |
| Markers.PlayerText | ERP_CONRAT.py:162 | the ID part is never empty. It is the ID itself whenever an ID is set and non-empty, and `NA` when the ID is unset or empty |
| Markers.MarkerFormat | ERP_CONRAT.py:161-163 | a marker is `Player<id>_<label>` when the ID is set and non-empty, and `PlayerNA_<label>` otherwise |
| Markers.LabelPrefixes | ERP_CONRAT.py:160-170 | a label's text starts with `Connections` exactly for a puzzle's Start, Guess, End and rest markers. It starts with `ConnectionQ` exactly for a rest rating, with `RAT` exactly for the RAT's markers, with `PostSurvey_` exactly for the questionnaire's start and end, and with `PostQ` exactly for a question's answer. It is `Session_Start` exactly for the session start |
| Markers.MarkerRoundTrip | ERP_CONRAT.py:160-170 | a `Player<id>_<label>` marker is read back as its label under the same ID |
| Markers.MarkerInjective | ERP_CONRAT.py:160-170 | two markers under the same ID are equal only when their labels are |
| Markers.MarkerLines | ERP_CONRAT.py:160-170 | sending a list of labels produces one marker per label |
| Markers.MarkerLinesAppend | ERP_CONRAT.py:160-170 | the markers of two label lists sent in turn are the markers of their concatenation |
| Markers.TrailingSpaces | ERP_CONRAT.py:224 | counts exactly the whitespace at the end of the text |
| Markers.Strip | ERP_CONRAT.py:224 | the result is empty iff the text is all whitespace; otherwise it neither starts nor ends with whitespace. It is a contiguous slice of the input, and everything before and after that slice is whitespace |
| Markers.AcceptedId | ERP_CONRAT.py:223-229 | an entry is rejected iff it is all whitespace; an accepted ID is the stripped entry and is non-empty |
| Markers.MarkerStream.constructor | ERP_CONRAT.py:127 | the stream starts with no player ID and an empty log |
| Markers.MarkerStream.Send | ERP_CONRAT.py:160-170 | sending appends exactly one `Player<id>_<label>` marker and changes nothing else |
| Connections.LayoutSize | ERP_CONRAT.py:585-586 | four groups of four members lay out as 16 tiles |
| Connections.LayoutAt | ERP_CONRAT.py:585-586 | tile k of the layout is member k mod 4 of group k div 4, unmatched, carrying its group's name |
| Connections.ShuffleKeepsElements | ERP_CONRAT.py:587 | shuffling by a permutation keeps exactly the same tiles (as a multiset) |
| Connections.NewBoard | ERP_CONRAT.py:579-594 | a new board has 16 tiles, all unmatched, which are a permutation of the four sampled groups' members; the selection and guess count are empty and zero |
| Connections.IndexOf | ERP_CONRAT.py:646 | the position found holds the value and is its first occurrence |
| Connections.RemoveFirst | ERP_CONRAT.py:646 | `list.remove` takes away exactly one occurrence of the value |
| Connections.AllMatchMeansEveryOne | ERP_CONRAT.py:679 | `all(g == groups[0] …)` holds iff every selected group equals the first |
| Connections.SelectedGroupsAgree | ERP_CONRAT.py:678-679 | the guess is judged correct iff all selected tiles share the first tile's group |
| Connections.MarkMatchedMarksSelection | ERP_CONRAT.py:683-684 | marking turns on `matched` for exactly the selected tiles and leaves the words and groups alone |
| Connections.Evaluate | ERP_CONRAT.py:673-705 | a check adds one guess and empties the selection. A correct guess marks the selected tiles matched and emits Guess<g>_Correct then End. An incorrect guess emits only Guess<g>_Incorrect and leaves the tiles unchanged |
| Connections.RemoveKeepsInv | ERP_CONRAT.py:645-646 | deselecting a tile keeps the selection short, duplicate-free, in range and free of matched tiles |
| Connections.Toggle | ERP_CONRAT.py:640-655 | a click on a matched tile does nothing. A click on a selected tile removes it. Otherwise the tile is appended, and the fourth one runs the check. The selection never reaches 4 between clicks |
| Connections.Apply | ERP_CONRAT.py:640-661 | one click or Deselect All keeps the board invariant. Guess markers are numbered consecutively from the old count. Every End follows a correct guess. The puzzle completes iff End is emitted |
| Connections.LabelsAppend | ERP_CONRAT.py:675 | guess counting and numbering split over a concatenation of marker lists |
| Connections.EndsAppend | ERP_CONRAT.py:687-694 | "End comes right after a correct guess" is kept when two marker runs are joined |
| Connections.JoinLabels | ERP_CONRAT.py:673-705 | two consecutive runs of clicks join into one run with consecutive guess numbers and End only after a correct guess |
| Connections.Play | ERP_CONRAT.py:640-705 | over any sequence of clicks and Deselect All: the invariant holds; the guess count equals the number of Guess markers, numbered 1, 2, … in order from the old count; End only follows a correct guess; completion iff End was emitted |
| Connections.ConnectionsGame.constructor | ERP_CONRAT.py:552-577 | a new game holds the new board of its draw, starts with zero guesses and sends `Connections<i>_Start` |
| Connections.ConnectionsGame.StartNewPuzzle | ERP_CONRAT.py:579-594 | clears the selection, lays out a new shuffled board, keeps the guess count and sends Start |
| Connections.ConnectionsGame.ToggleTile | ERP_CONRAT.py:640-655 | the new board, completion flag and markers are those of `Toggle` |
| Connections.ConnectionsGame.DeselectAll | ERP_CONRAT.py:657-661 | empties the selection and changes nothing else |
| Connections.ConnectionsGame.MarkSelected | ERP_CONRAT.py:683-684 | the loop marks exactly the selected tiles matched |
| Connections.ConnectionsGame.CheckSelection | ERP_CONRAT.py:673-705 | the new board, completion flag and markers are those of `Evaluate` |
| ConnectionsRest.End | ERP_CONRAT.py:485-535 | ending a rest cancels the tick and deactivates it. It appends exactly the current choice to the ratings. It sends NoResponse iff nothing was chosen, then Rest_End. It moves on to puzzle completed+1 iff fewer than 15 are done, otherwise to the RAT instructions |
| ConnectionsRest.PuzzleComplete | ERP_CONRAT.py:316-324 | a completed puzzle raises the count by one and starts its rest with no choice and the ratings kept. It sends only Rest_Start, and the first tick leaves 14 seconds with a tick pending |
| ConnectionsRest.SelectIsWriteOnce | ERP_CONRAT.py:455-483 | the first click during an active rest binds the value and sends `ConnectionQ<i>_<v>`. Any later click, or a click on an inactive rest, changes nothing and sends nothing |
| ConnectionsRest.TickSteps | ERP_CONRAT.py:443-453 | a tick on an inactive rest is a no-op. With time left it takes one second off. The tick that finds 0 ends the rest |
| ConnectionsRest.CountDown | ERP_CONRAT.py:443-453 | n ticks with at least n seconds left just take n seconds off and send nothing |
| ConnectionsRest.RestLastsFifteenTicks | ERP_CONRAT.py:377-453 | after a rest starts, the next 14 ticks leave it active and silent, and the 15th tick ends it |
| ConnectionsRest.TicksSplit | ERP_CONRAT.py:443-453 | m + n ticks are m ticks followed by n ticks |
| ConnectionsRest.TicksToEnd | ERP_CONRAT.py:443-453 | from an active countdown with r seconds left, r + 1 ticks are exactly one end of the rest |
| ConnectionsRest.OneMoreEnd | ERP_CONRAT.py:485-535 | each run of `_end_connections_rest` adds NoResponse (when nothing was chosen) and Rest_End, one more ratings entry holding the choice, and the next step fixed by the 15-puzzle bound |
| ConnectionsRest.HandleKeepsConsistent | ERP_CONRAT.py:443-535 | a tick, rating click, skip or stored '.' callback (every event but a late puzzle-complete callback) keeps the rest protocol. While active: at most one ConnectionQ marker, nothing appended to the ratings. After n ends: the ConnectionQ marker once, NoResponse (if nothing was chosen) and Rest_End per end, one rating per end, and the fixed next step. Only the stored '.' callback can end a rest that has already ended |
| ConnectionsRest.RunKeepsConsistent | ERP_CONRAT.py:443-535 | the same holds over any sequence of those events without a late puzzle-complete callback; without the stored '.' callback as well, the rest ends at most once |
| ConnectionsRest.RestProtocol | ERP_CONRAT.py:377-535 | a rest started for puzzle k sends Rest_Start. Over any ticks, clicks, skips and stored '.' callbacks it then sends at most one ConnectionQ<k> marker, then per end NoResponse (if nothing was chosen) and Rest_End, with one rating per end. Without the stored '.' callback it ends at most once. A late puzzle-complete callback breaks this (`RestAbandoned`) |
| ConnectionsRest.RestAbandoned | ERP_CONRAT.py:316-394 | a puzzle-complete callback firing during rest k after a rating click starts rest k + 1 over it: the markers are the rating and `Connections<k+1>_Rest_Start` only, with no Rest_End or NoResponse for k, and the ratings list gains no entry |
| ConnectionsRest.StoredEndRepeats | ERP_CONRAT.py:436-535 | a rest left to run out ends on its 15th tick with NoResponse, Rest_End and one `None` rating. The '.' callback it left stored ends it again: NoResponse and Rest_End once more, a second `None` rating, and the same next puzzle |
| Rat.FollowConcat | ERP_CONRAT.py:803-1008 | following the marker automaton over two runs is following it over their concatenation |
| Rat.StartNextItemSteps | ERP_CONRAT.py:803-814 | starting the next item either finishes exactly at index 10 or enters the think phase with `RAT<n>_Start` in protocol order |
| Rat.FinishRestSteps | ERP_CONRAT.py:969-985 | finishing a rest sends Rest_End, raises the index by one and completes iff the game is done |
| Rat.RespondSteps | ERP_CONRAT.py:919-967 | a Y/N in the reveal phase sends Response then End then Rest_Start, enters a 15 s rest and keeps the invariant |
| Rat.HandleSteps | ERP_CONRAT.py:856-1008 | every tick, key and skip keeps the invariant and the per-item marker order. The index rises only by one, and only with a Rest_End marker. `on_complete` runs exactly on the step that reaches done |
| Rat.RunSteps | ERP_CONRAT.py:803-1008 | over any event sequence: the invariant holds, the index never falls and never passes 10, the markers follow Start, Response, End, Rest_Start, Rest_End for each item in order, and completion is reported exactly when done is reached |
| Rat.DoneStaysDone | ERP_CONRAT.py:1007-1008 | once done, no event changes anything or sends anything |
| Rat.BeginSteps | ERP_CONRAT.py:748-774 | a new RAT enters the think phase of item 1 and sends only `RAT1_Start` |
| Rat.ThinkCountDown | ERP_CONRAT.py:856-866 | n think ticks with at least n seconds left just count down, silently |
| Rat.ThinkRunsOut | ERP_CONRAT.py:856-866 | one more tick than the seconds left reveals the answer |
| Rat.ThinkLastsTenTicks | ERP_CONRAT.py:817-866 | after an item starts, 9 more ticks keep it thinking and the 10th reveals |
| Rat.RestCountDown | ERP_CONRAT.py:969-985 | n rest ticks with at least n seconds left just count down, silently |
| Rat.RestRunsOut | ERP_CONRAT.py:969-985 | one more tick than the seconds left ends the rest with Rest_End and the next index |
| Rat.RestLastsFifteenTicks | ERP_CONRAT.py:919-985 | after a Y/N, 14 ticks keep the rest going and the 15th sends Rest_End and moves to the next item |
| Rat.SingleAnswer | ERP_CONRAT.py:919-943 | a second Y/N after the first is ignored: no marker, no change |
| Rat.RATGame.constructor | ERP_CONRAT.py:748-774 | a new RAT is at item 1 in the think phase and has sent `RAT1_Start` |
| Rat.RATGame.StartNextItem | ERP_CONRAT.py:803-814 | state, markers and completion are those of `NextItem` |
| Rat.RATGame.ShowThinkPhase | ERP_CONRAT.py:817-854 | state and markers are those of `ShowThink`; it never completes |
| Rat.RATGame.TickThink | ERP_CONRAT.py:856-866 | state as `ThinkTick`; a think tick sends nothing |
| Rat.RATGame.RevealPhase | ERP_CONRAT.py:869-897 | state as `RevealAnswer`; revealing sends nothing |
| Rat.RATGame.Answer | ERP_CONRAT.py:919-943 | state, markers and completion are those of `Respond` |
| Rat.RATGame.StartRestPhase | ERP_CONRAT.py:946-967 | state, markers and completion are those of `StartRest` |
| Rat.RATGame.TickRest | ERP_CONRAT.py:969-985 | state, markers and completion are those of `RestTick` |
| Rat.RATGame.EndRest | ERP_CONRAT.py:977-985 | state, markers and completion are those of `FinishRest` |
| Rat.RATGame.ForceAdvance | ERP_CONRAT.py:988-1008 | state, markers and completion are those of `Force`: think reveals, reveal answers N once, rest finishes, done does nothing |
| Survey.StepOnce | ERP_CONRAT.py:1075-1087 | answering or skipping a shown question sends one PostQ marker for it and advances by one. Completion comes exactly at the fifth. A skip after the last question does nothing |
| Survey.SurveyRun | ERP_CONRAT.py:1048-1087 | over any answers and skips: the index never passes 5, one PostQ marker per passed question in order, nothing skipped or repeated, completion exactly when the end is reached |
| Survey.PostQuestionnaire.constructor | ERP_CONRAT.py:1023-1042 | a new questionnaire is at question 1 |
| Survey.PostQuestionnaire.ShowCurrentQuestion | ERP_CONRAT.py:1048-1053 | reports completion exactly when all five are passed |
| Survey.PostQuestionnaire.RecordResponse | ERP_CONRAT.py:1075-1079 | index, markers and completion are those of `Record` |
| Survey.PostQuestionnaire.SkipCurrent | ERP_CONRAT.py:1081-1087 | index, markers and completion are those of `Skip` |
| Experiment.SkipRoute | ERP_CONRAT.py:338-372 | the master skip takes the first branch that applies, in the order: stored callback, active rest, puzzle game, RAT, questionnaire |
| Experiment.SkipNeverReachesRatOrSurvey | ERP_CONRAT.py:338-372 | since a RAT exists only after a puzzle game, the RAT and questionnaire branches are unreachable. With a RAT, nothing stored and no rest, the skip completes a puzzle |
| Experiment.EndMarkers | ERP_CONRAT.py:485-535 | the end of a rest sends NoResponse iff nothing was chosen, then Rest_End, then the next puzzle's Start iff fewer than 15 are done |
| Experiment.ExperimentApp.constructor | ERP_CONRAT.py:104-156 | a new app has an empty log, no ID, the ID submit stored for both '.' and Enter, nothing completed and no sub-game |
| Experiment.ExperimentApp.CenterMessage | ERP_CONRAT.py:189-208 | a message screen stores its callback for both '.' and Enter/Return, and changes neither the rest, the sub-games, the draw count nor the pending callbacks |
| Experiment.ExperimentApp.Submit | ERP_CONRAT.py:223-229 | a blank ID is ignored. Otherwise the stripped ID is recorded, Session_Start is sent under it, and the intro's callback is stored |
| Experiment.ExperimentApp.NewPuzzle | ERP_CONRAT.py:525-532 | a fresh puzzle game for index k, built from the next draw, sending `Connections<k>_Start` |
| Experiment.ExperimentApp.Invoke | ERP_CONRAT.py:223-297 | running a stored callback only appends to the log and keeps the app invariant. Each screen callback leads to its next screen or stage with that stage's first marker. The ID submit acts as `Submit`. The rest's end acts as `End`, with the same markers, next puzzle and stored callbacks as `EndConnectionsRestNow`. The question skip acts as `Skip`. Closing sends nothing |
| Experiment.ExperimentApp.StartConnectionsStage | ERP_CONRAT.py:300-314 | resets the count, unbinds Enter, clears '.', and starts puzzle 1 from the next draw. The rest of the rest state, the RAT, the questionnaire and the pending callbacks are left alone |
| Experiment.ExperimentApp.StartRatStage | ERP_CONRAT.py:326-335 | unbinds Enter, clears '.', and starts a RAT that has sent `RAT1_Start`. The rest state, the puzzle game, the questionnaire and the pending callbacks are left alone |
| Experiment.ExperimentApp.StartQuestionnaire | ERP_CONRAT.py:279-288 | sends PostSurvey_Start and starts the questionnaire at question 1, with '.' bound to skip. Enter stays bound as it was, and the rest state, puzzle game, RAT and pending callbacks are left alone |
| Experiment.ExperimentApp.MasterSkip | ERP_CONRAT.py:338-372 | takes exactly the branch `SkipRoute` selects, and never the RAT or questionnaire branch. Ending an active rest, running a stored rest end (stale or not), or completing a puzzle has the state and markers of `End` or `PuzzleComplete`. Ending a rest leaves '.' unbound for a next puzzle, or binds '.' and Enter to the RAT's start. Completing a puzzle binds '.' to the rest's end. Both keep the RAT, questionnaire, pending callbacks and window. The player ID changes only through a stored ID submit |
| Experiment.ExperimentApp.PressReturn | ERP_CONRAT.py:189-208 | Enter/Return runs the bound callback. With none bound, the log, rest, stage objects, both stored callbacks, draw count, pending callbacks and window are all unchanged. The player ID changes only through the ID submit. Bound to the questionnaire's start, it sends PostSurvey_Start again and starts a fresh questionnaire at question 1, still bound |
| Experiment.ExperimentApp.ClickTile | ERP_CONRAT.py:640-705 | a tile click acts as `Toggle` and schedules one puzzle-complete callback exactly when the puzzle completes. The player ID, rest, other stage objects, stored callbacks, draw count and window are unchanged |
| Experiment.ExperimentApp.ScheduleComplete | ERP_CONRAT.py:697 | one more puzzle-complete callback is pending, and nothing else changes |
| Experiment.ExperimentApp.DeselectAll | ERP_CONRAT.py:657-661 | the current puzzle's selection is emptied |
| Experiment.ExperimentApp.FirePuzzleComplete | ERP_CONRAT.py:316-324 | a pending callback fires once and acts as `PuzzleComplete`, whether or not a rest is active. It binds '.' to the rest's end, keeps Enter's callback, the player ID, the stage objects, draw count and window |
| Experiment.ExperimentApp.PuzzleComplete | ERP_CONRAT.py:316-324 | the count rises by one and a rest starts for that puzzle with Rest_Start and '.' bound to its end |
| Experiment.ExperimentApp.BeginRest | ERP_CONRAT.py:377-441 | the rest attributes become those of `PuzzleComplete` and '.' is bound to the rest's end |
| Experiment.ExperimentApp.TickRest | ERP_CONRAT.py:443-453 | a rest tick acts as `Tick`, including the next puzzle's Start when it ends the rest. Unless it moves on to the RAT instructions, both stored callbacks stay as they were, so '.' still runs the rest's end |
| Experiment.ExperimentApp.SelectRating | ERP_CONRAT.py:455-483 | a rating click acts as `Select`, and leaves the stored callbacks, stage objects, draw count, pending callbacks and window unchanged |
| Experiment.ExperimentApp.EndConnectionsRestNow | ERP_CONRAT.py:485-535 | acts as `End`: NoResponse if needed, then Rest_End. Then either a fresh puzzle completed+1 with its Start and both stored callbacks left as they were, or the RAT instructions screen |
| Experiment.ExperimentApp.CloseRest | ERP_CONRAT.py:485-521 | the first half of ending a rest: NoResponse if needed, the rating appended, the rest deactivated, Rest_End |
| Experiment.ExperimentApp.Congratulate | ERP_CONRAT.py:270-277 | the congratulations screen stores the questionnaire's start for '.' and Enter/Return |
| Experiment.ExperimentApp.RatThinkTick | ERP_CONRAT.py:856-866 | the RAT's think tick acts as `ThinkTick` |
| Experiment.ExperimentApp.RatRestTick | ERP_CONRAT.py:969-985 | the RAT's rest tick acts as `RestTick`. If it finishes the RAT, the congratulations screen follows, with '.' and Enter bound to the questionnaire's start; otherwise both callbacks are kept. The player ID, rest, other stage objects, draw count, pending callbacks and window are unchanged |
| Experiment.ExperimentApp.RatKey | ERP_CONRAT.py:919-943 | a Y/N key acts as `Respond` and never finishes the RAT. It changes only the RAT and the log, and keeps the player ID |
| Experiment.ExperimentApp.FinalThanks | ERP_CONRAT.py:290-297 | sends PostSurvey_End and binds closing the window |
| Experiment.ExperimentApp.SkipCurrentQuestion | ERP_CONRAT.py:1048-1087 | a skip acts as `Skip`, followed by PostSurvey_End when it passes the last question. A next question re-binds '.' to the skip; passing the last binds '.' and Enter to closing. The player ID, rest, other stage objects, draw count, pending callbacks and window are unchanged |
| Experiment.ExperimentApp.AnswerQuestion | ERP_CONRAT.py:1048-1079 | an answer acts as `Record`, followed by PostSurvey_End when it passes the last question. A next question re-binds '.' to the skip; passing the last binds '.' and Enter to closing. The player ID, rest, other stage objects, draw count, pending callbacks and window are unchanged |

## Left out

- Widgets, layout, fonts, colours, hover styling, `draw_tiles`, `update_tile_styles`,
  `update_selected_label` and `flash_correct_group`: display only. Which screen is on show
  is not tracked either; the model follows the stored callbacks and the live objects.
- The LSL outlet, its environment variables and the console `print`: the sink is the
  `MarkerStream` log.
- Loading `connections_level2.json` and its missing-file error: the groups are an input,
  each with four members.
- The internals of `random.sample` and `random.shuffle`: each puzzle takes one `Draw` as
  an input.
- Wall-clock time and the `after` scheduler: each tick is a method the environment may
  call at any time, which over-approximates the real one-second spacing. The 2500 ms
  completion delay is a pending counter fired by `FirePuzzleComplete`.
- `root.destroy`, `mainloop` and key binding as such: closing is the `closed` flag, and
  the keys are method calls.
- Callbacks still scheduled on a RAT or puzzle object after the app has replaced it are
  not modelled: each tick method acts on the current object.
- `_conn_rest_for_puzzle_index` starts as Python `None`; the model starts it at 0 and
  uses it only once a rest has begun.
- Experiment.ExperimentApp.Invoke: states each callback's markers, its next screen or
  stage and its stage objects. It does not list the fields a callback leaves alone.
- Experiment.ExperimentApp.MasterSkip: in the stored-callback branch it states the effect
  only when the stored callback is the rest's end. For the other callbacks it states that
  the log grows and the invariant holds; `Invoke` states their effect.
- Experiment.ExperimentApp.PressReturn: states that the log grows, the full unchanged state
  when no callback is bound, and the questionnaire restart; `Invoke` states the effect of
  the other callbacks.
- Survey.PostQuestionnaire.RecordResponse: requires a question to be on show
  (index below 5). The source's buttons exist only then, so a click past the end cannot
  happen.
