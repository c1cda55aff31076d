# 91 Pattern Tracker — session tracker model

This project models the live session tracker of the "91 AI Pattern Tracker"
page in Dafny. The user enters six game numbers (digits 0–9) as a seed. From
then on the page joins the last six digits into a string and looks it up in a
fixed table of "deterministic patterns" (`NUMBER_LOGIC`), which predicts
BIG or SMALL for the next outcome. Each digit button press scores the prediction
that was on screen before the press. It updates the wins/loss counters, the
current streak, the maximum win and loss streaks, and a most-recent-first
round history, then appends the digit to the live sequence. The reset button
discards the whole session.

The page's ambient session state is modelled as an immutable `Session` value,
and every user action is a pure function from session to session:

- `patterns.dfy` (module `Patterns`): digits, the size rule, the verbatim
  pattern table, the window encoding (`Join`/`ParseDigits`) and the predictor.
- `session.dfy` (module `Tracker`): the session record, `Seed`, `Judge`,
  `Score`, `Step`, `Reset`, the win rate, and `Handle`, which decides which
  transition a user action reaches on the page.
- `invariants.dfy` (module `Invariants`): reference definitions over the
  history (count of rows per verdict, leading run length, longest recorded
  streak per verdict), the session invariant `Valid` built on them, its
  preservation by every action and any sequence of actions, and a worked
  session: seeding "821557", then pressing 0 (a win) and 3 (a loss).

Details of the page's behaviour the model keeps:

- A round with no prediction logs no history row. The digit is only appended.
- A history row holds the digit, the verdict and the streak after the update.
  It does not hold a round index or the prediction.
- Seeding is offered while fewer than six digits are known. Digit buttons are
  offered from six digits on. The reset button is always offered.

## Model

| member | source | states |
|---|---|---|
| Patterns.Classify | app.py:89 | a digit is BIG exactly when it is at least 5 and SMALL exactly when it is below 5 |
| Patterns.LastSix | app.py:51 | the trailing window is the whole sequence when it is shorter than six and otherwise exactly six digits, and it is a suffix of the sequence |
| Patterns.Predict | app.py:51-52 | no prediction with fewer than six digits; otherwise a prediction exists exactly when the last six digits, joined, are a table key, and it is that key's value, which is "BIG" or "SMALL" |
| Patterns.Join | app.py:51 | joining digits yields one character per digit, character i being the decimal character of digit i |
| Patterns.ParseDigits | app.py:76 | parsing a text of decimal characters yields one digit per character, digit i being the value of character i |
| Patterns.TableKeysHaveSixCharacters | app.py:24-28 | every key of the pattern table is six characters long |
| Patterns.TableValuesAreSizes | app.py:24-28 | every value of the pattern table is "BIG" or "SMALL" |
| Patterns.ParseJoin | app.py:51 | a joined window consists of decimal characters and parsing it back gives the same digits |
| Patterns.JoinParse | app.py:76 | parsing a text of decimal characters gives one digit per character, and joining them gives the text back |
| Patterns.JoinInjective | app.py:51-52 | two windows with the same key text are the same digits, so a key identifies its window |
| Patterns.PredictUsesOnlyLastSix | app.py:51-52 | digits before the last six never change the prediction |
| Patterns.PredictWindow | app.py:52 | a six-digit window is predicted as p exactly when its text is a key mapped to p |
| Tracker.Init | app.py:31-34 | a fresh session has an empty sequence and no prediction, an empty history, no scored rounds, no last result, a zero streak and zero maximums |
| Tracker.ValidSeed | app.py:75 | an accepted seed is six decimal characters that parse to six digits joining back to the seed; a rejected one has the wrong length or a non-digit character |
| Tracker.Seed | app.py:75-76 | a text of exactly six ASCII digits becomes the sequence, which joins back to that text, with history and stats untouched; any other text leaves the session unchanged |
| Tracker.Judge | app.py:89-91 | against a BIG prediction a round is a win exactly when the digit is at least 5, against SMALL exactly when it is below 5; any other prediction text never wins |
| Tracker.Score | app.py:92-95 | exactly one of wins/loss grows by one; the streak grows when the verdict repeats the last one and restarts at 1 otherwise; only the verdict's own maximum changes, to the larger of its old value and the streak |
| Tracker.Step | app.py:87-97 | the digit is appended after the old sequence; with no prediction nothing else changes; with one, the round is scored against the pre-append window, one row (digit, verdict, new streak) is put in front of the history, and the maximums never decrease |
| Tracker.Reset | app.py:103-104 | reset yields the empty sequence, empty history and all-zero stats with no last result |
| Tracker.WinRate | app.py:39 | the win rate is between 0 and 100, is 0 with no scored rounds, and otherwise is wins times 100 over wins plus losses |
| Tracker.Handle | app.py:71-104 | a seed is honoured only below six digits, a digit press only from six digits on, and reset always returns the initial session |
| Invariants.CountsCoverHistory | app.py:96 | every history row is either a win row or a loss row |
| Invariants.RunBoundedByCount | app.py:93-94 | the leading run of a history is at least one and at most the number of rows with its verdict |
| Invariants.MaxStreakBoundedByCount | app.py:95 | in a well-formed history no recorded streak of a verdict exceeds the number of rows with that verdict |
| Invariants.HistoryMatchesCounters | app.py:92-96 | in a valid session the number of history rows equals wins plus losses |
| Invariants.StreakWithinMax | app.py:93-95 | the streak is 0 before any scored round, and afterwards it is at least 1 and at most the maximum for the last verdict |
| Invariants.MaxWithinCount | app.py:92-95 | the maximum win streak never exceeds the wins, nor the maximum loss streak the losses |
| Invariants.NewestRowRecordsRound | app.py:96 | after a scored round the newest row is at index 0 with the digit, its verdict and the post-update streak, and the older rows follow unchanged |
| Invariants.InitValid | app.py:31-34 | the initial session satisfies the invariant |
| Invariants.ResetValid | app.py:103-104 | a reset session satisfies the invariant |
| Invariants.SeedPreservesValid | app.py:71-76 | seeding a valid session below six digits keeps the invariant |
| Invariants.StepPreservesValid | app.py:87-97 | a digit step keeps counters equal to the per-verdict row counts, the streak equal to the leading run, the maximums equal to the longest recorded streaks, and the scored rounds bounded by the digits beyond the seed |
| Invariants.HandlePreservesValid | app.py:71-104 | every user action keeps the invariant and keeps the sequence either empty or at least six digits long |
| Invariants.RunPreservesValid | app.py:71-104 | any sequence of user actions keeps the invariant and the sequence shape |
| Invariants.ReachableIsValid | app.py:31-34 | every session reachable from a fresh page satisfies the invariant |
| Invariants.MaxStreaksMonotone | app.py:95 | without a reset the maximum win and loss streaks never decrease over any sequence of actions |
| Invariants.DigitsOnlyAppended | app.py:97 | without a reset, once seeded, the earlier digits are never changed, only extended |
| Invariants.SeedLiteral | app.py:73-76 | seeding "821557" yields the digits 8, 2, 1, 5, 5, 7 |
| Invariants.PredictSeedWindow | app.py:27 | the seeded window 821557 predicts SMALL |
| Invariants.JoinSix | app.py:51 | the key of a six-digit window is its six digit characters in order |
| Invariants.PredictAfterZero | app.py:27 | any seven-digit sequence whose last six digits are 215570 (such as 821557 followed by a 0) predicts BIG |
| Invariants.WinThenLoss | app.py:92-95 | a first win gives one win with streak 1 and max win 1; a loss after it restarts the streak at 1 and sets max loss 1 |
| Invariants.FirstRound | app.py:87-97 | from the seeded 821557 session a 0 is scored a win: one win, streak 1, max win 1, one history row, the 0 appended |
| Invariants.SecondRound | app.py:87-97 | after that win a 3 is scored a loss: the streak restarts at 1, max loss becomes 1, max win stays 1, and the loss row goes in front |

## Left out

- Page configuration, CSS, HTML markup, titles, the prediction/waiting boxes, the button grid and `st.rerun`. These are presentation (app.py:1-21, 37, 41-49, 54-68, 72-73, 79-86, 98, 105).
- The history table shows only its first ten rows (`head(10)`, app.py:100-101). This is display only. The model keeps the full history.
- Tracker.WinRate: computed in exact rational arithmetic rather than floating point. The one-decimal `:.1f` formatting (app.py:47) is not modelled.
- The text box's `max_chars=6` limit (app.py:73) is a widget concern. `Seed` checks the length itself.
- Tracker.ValidSeed, Tracker.Seed: accept only the ASCII characters '0'–'9'. Python's `str.isdigit` also accepts other Unicode digit characters, and `int` rejects some of them. Unicode character classes are not modelled.
- The page's ambient session-state store and its `clear()` are replaced by an explicit immutable `Session` value (module `Tracker`). `Reset` returns the initial session directly.
- The table was built offline from historical data (app.py:23). How it was built is not part of app.py and is not modelled. The model uses the constant table of app.py:24-28.
