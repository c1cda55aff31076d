/**
 Invariants of the session tracker and their preservation.

 The history is the ground truth of a session: the counters are the number of
 WIN and LOSS rows, the current streak is the length of the leading run of
 equal verdicts, and each maximum is the longest streak recorded for its
 verdict. `Valid` ties the counters to these reference definitions; every
 user action keeps it.
 */
module Invariants {
  import opened Patterns
  import opened Tracker

  /** Number of history rows carrying verdict `v`. */
  function Count(h: seq<Row>, v: Verdict): nat
  {
    if |h| == 0 then 0 else (if h[0].verdict == v then 1 else 0) + Count(h[1..], v)
  }

  /** Length of the run of equal verdicts at the front of the history. */
  function RunLength(h: seq<Row>): nat
  {
    if |h| == 0 then 0
    else if |h| >= 2 && h[1].verdict == h[0].verdict then 1 + RunLength(h[1..])
    else 1
  }

  /** Longest streak recorded in a row with verdict `v` (0 when none). */
  function MaxStreak(h: seq<Row>, v: Verdict): nat
  {
    if |h| == 0 then 0
    else Max(if h[0].verdict == v then h[0].streak else 0, MaxStreak(h[1..], v))
  }

  /** Every row records the run length of the history as it stood when the
      row was inserted. */
  predicate WellFormed(h: seq<Row>)
  {
    |h| == 0 || (h[0].streak == RunLength(h) && WellFormed(h[1..]))
  }

  /** The session invariant. */
  predicate Valid(s: Session)
  {
    var st := s.stats;
    && WellFormed(s.history)
    && st.wins == Count(s.history, Win)
    && st.loss == Count(s.history, Loss)
    && st.streak == RunLength(s.history)
    && (st.lastRes == None <==> |s.history| == 0)
    && (|s.history| > 0 ==> st.lastRes == Some(s.history[0].verdict))
    && st.maxWin == MaxStreak(s.history, Win)
    && st.maxLoss == MaxStreak(s.history, Loss)
    && st.wins + st.loss <= (if |s.digits| >= 6 then |s.digits| - 6 else 0)
  }

  // ---------------------------------------------------------------------
  // Facts about the reference definitions.

  lemma {:induction false} CountsCoverHistory(h: seq<Row>)
    ensures Count(h, Win) + Count(h, Loss) == |h|
  {
    if |h| > 0 {
      CountsCoverHistory(h[1..]);
    }
  }

  /** A run is never longer than the number of rows with its verdict. */
  lemma {:induction false} RunBoundedByCount(h: seq<Row>)
    requires |h| > 0
    ensures 1 <= RunLength(h) <= Count(h, h[0].verdict)
  {
    if |h| >= 2 && h[1].verdict == h[0].verdict {
      RunBoundedByCount(h[1..]);
    }
  }

  /** No recorded streak of a verdict exceeds the number of rows with it. */
  lemma {:induction false} MaxStreakBoundedByCount(h: seq<Row>, v: Verdict)
    requires WellFormed(h)
    ensures MaxStreak(h, v) <= Count(h, v)
  {
    if |h| > 0 {
      MaxStreakBoundedByCount(h[1..], v);
      if h[0].verdict == v {
        RunBoundedByCount(h);
      }
    }
  }

  // ---------------------------------------------------------------------
  // Consequences of the invariant.

  /** The number of history rows equals wins plus losses. */
  lemma HistoryMatchesCounters(s: Session)
    requires Valid(s)
    ensures |s.history| == s.stats.wins + s.stats.loss
  {
    CountsCoverHistory(s.history);
  }

  /** Once a verdict has been recorded, the current streak is at least one
      and never exceeds the maximum for its type; before that it is zero. */
  lemma StreakWithinMax(s: Session)
    requires Valid(s)
    ensures s.stats.lastRes == None ==> s.stats.streak == 0
    ensures s.stats.lastRes.Some? ==>
              1 <= s.stats.streak <= MaxFor(s.stats, s.stats.lastRes.value)
  {
  }

  /** A maximum streak never exceeds the number of rounds of its type. */
  lemma MaxWithinCount(s: Session)
    requires Valid(s)
    ensures s.stats.maxWin <= s.stats.wins && s.stats.maxLoss <= s.stats.loss
  {
    MaxStreakBoundedByCount(s.history, Win);
    MaxStreakBoundedByCount(s.history, Loss);
  }

  /** The newest row is the digit just scored, with its verdict and the
      streak after the update. */
  lemma NewestRowRecordsRound(s: Session, d: Digit)
    requires Predict(s.digits).Some?
    ensures var r := Step(s, d);
            |r.history| > 0
            && r.history[0].num == d
            && r.history[0].verdict == Judge(d, Predict(s.digits).value)
            && r.history[0].streak == r.stats.streak
            && r.history[1..] == s.history
  {
  }

  // ---------------------------------------------------------------------
  // Preservation.

  lemma InitValid()
    ensures Valid(Init())
  {
  }

  lemma ResetValid(s: Session)
    ensures Valid(Reset(s))
  {
  }

  lemma SeedPreservesValid(s: Session, text: string)
    requires Valid(s)
    requires |s.digits| < 6
    ensures Valid(Seed(s, text))
  {
  }

  lemma StepPreservesValid(s: Session, d: Digit)
    requires Valid(s)
    ensures Valid(Step(s, d))
  {
  }

  /** Every user action keeps the invariant, and the sequence is either
      empty or at least six digits long. */
  lemma HandlePreservesValid(s: Session, e: Event)
    requires Valid(s) && (|s.digits| == 0 || |s.digits| >= 6)
    ensures var r := Handle(s, e);
            Valid(r) && (|r.digits| == 0 || |r.digits| >= 6)
  {
    match e
    case SeedInput(text) =>
      if |s.digits| < 6 {
        SeedPreservesValid(s, text);
      }
    case Press(d) =>
      if |s.digits| >= 6 {
        StepPreservesValid(s, d);
      }
    case ResetPressed =>
  }

  /** Any sequence of user actions from a fresh page reaches a valid session. */
  lemma {:induction false} RunPreservesValid(s: Session, es: seq<Event>)
    requires Valid(s) && (|s.digits| == 0 || |s.digits| >= 6)
    ensures var r := Run(s, es);
            Valid(r) && (|r.digits| == 0 || |r.digits| >= 6)
    decreases |es|
  {
    if |es| > 0 {
      HandlePreservesValid(s, es[0]);
      RunPreservesValid(Handle(s, es[0]), es[1..]);
    }
  }

  lemma ReachableIsValid(es: seq<Event>)
    ensures Valid(Run(Init(), es))
    ensures |Run(Init(), es).digits| == 0 || |Run(Init(), es).digits| >= 6
  {
    InitValid();
    RunPreservesValid(Init(), es);
  }

  /** Without a reset the maximum streaks never decrease over a run. */
  lemma {:induction false} MaxStreaksMonotone(s: Session, es: seq<Event>)
    requires forall i :: 0 <= i < |es| ==> !es[i].ResetPressed?
    ensures Run(s, es).stats.maxWin >= s.stats.maxWin
    ensures Run(s, es).stats.maxLoss >= s.stats.maxLoss
    decreases |es|
  {
    if |es| > 0 {
      MaxStreaksMonotone(Handle(s, es[0]), es[1..]);
    }
  }

  /** Without a reset the sequence only grows at its end. */
  lemma {:induction false} DigitsOnlyAppended(s: Session, es: seq<Event>)
    requires |s.digits| >= 6
    requires forall i :: 0 <= i < |es| ==> !es[i].ResetPressed?
    ensures |Run(s, es).digits| >= |s.digits|
    ensures Run(s, es).digits[..|s.digits|] == s.digits
    decreases |es|
  {
    if |es| > 0 {
      var s' := Handle(s, es[0]);
      DigitsOnlyAppended(s', es[1..]);
      assert s'.digits[..|s.digits|] == s.digits;
    }
  }

  // ---------------------------------------------------------------------
  // A worked session along the table's own sequence.

  /** Seeding "821557" yields its six digits. */
  lemma SeedLiteral()
    ensures Seed(Init(), "821557").digits == [8, 2, 1, 5, 5, 7]
  {
  }

  /** A six-digit window's key, character by character. */
  lemma JoinSix(w: seq<Digit>)
    requires |w| == 6
    ensures Join(w) == [DigitChar(w[0]), DigitChar(w[1]), DigitChar(w[2]),
                        DigitChar(w[3]), DigitChar(w[4]), DigitChar(w[5])]
  {
  }

  /** The seeded window 821557 is a table key predicting SMALL. */
  lemma PredictSeedWindow()
    ensures Predict([8, 2, 1, 5, 5, 7]) == Some("SMALL")
  {
    var w: seq<Digit> := [8, 2, 1, 5, 5, 7];
    assert Join(w) == "821557" by { JoinSix(w); }
    PredictWindow(w, "SMALL");
  }

  /** After a 0 the trailing window is 215570, a key predicting BIG. */
  lemma PredictAfterZero(ds: seq<Digit>)
    requires |ds| == 7 && ds[1..] == [2, 1, 5, 5, 7, 0]
    ensures Predict(ds) == Some("BIG")
  {
    var w := ds[1..];
    assert Join(w) == "215570" by { JoinSix(w); }
    assert ds[|ds| - 6..] == w;
  }

  /** The scoring of a first win followed by a loss. */
  lemma WinThenLoss()
    ensures Score(Init().stats, Win) == Stats(1, 0, 1, Some(Win), 1, 0)
    ensures Score(Stats(1, 0, 1, Some(Win), 1, 0), Loss) == Stats(1, 1, 1, Some(Loss), 1, 1)
  {
  }

  /** With the window 821557 on screen (prediction SMALL), a 0 wins. */
  lemma FirstRound(s: Session)
    requires s == Session([8, 2, 1, 5, 5, 7], [], Init().stats)
    ensures Step(s, 0) == Session([8, 2, 1, 5, 5, 7, 0], [Row(0, Win, 1)], Stats(1, 0, 1, Some(Win), 1, 0))
  {
    var st := Stats(1, 0, 1, Some(Win), 1, 0);
    assert Predict(s.digits) == Some("SMALL") by { PredictSeedWindow(); }
    assert Score(s.stats, Judge(0, "SMALL")) == st by { WinThenLoss(); }
    assert s.digits + [0] == [8, 2, 1, 5, 5, 7, 0];
  }

  /** With the window 215570 on screen (prediction BIG), a 3 loses and
      restarts the streak. */
  lemma SecondRound(s: Session)
    requires s == Session([8, 2, 1, 5, 5, 7, 0], [Row(0, Win, 1)], Stats(1, 0, 1, Some(Win), 1, 0))
    ensures Step(s, 3) == Session([8, 2, 1, 5, 5, 7, 0, 3], [Row(3, Loss, 1), Row(0, Win, 1)], Stats(1, 1, 1, Some(Loss), 1, 1))
  {
    var st := Stats(1, 1, 1, Some(Loss), 1, 1);
    assert Predict(s.digits) == Some("BIG") by { PredictAfterZero(s.digits); }
    assert Score(s.stats, Judge(3, "BIG")) == st by { WinThenLoss(); }
    assert s.digits + [3] == [8, 2, 1, 5, 5, 7, 0, 3];
  }
}
