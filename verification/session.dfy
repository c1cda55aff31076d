/**
 The live session tracker: an immutable session record and the transitions
 the page applies to it (seed, per-digit step, reset), plus the page-level
 dispatch that decides which transition a user action reaches.
 */
module Tracker {
  import opened Patterns

  /** The outcome of one scored round. */
  datatype Verdict = Win | Loss

  /** One row of the round history: the digit entered, the verdict and the
      streak length right after the round was scored. */
  datatype Row = Row(num: Digit, verdict: Verdict, streak: nat)

  /** The running counters. `lastRes` is None until the first scored round. */
  datatype Stats = Stats(
    wins: nat,
    loss: nat,
    streak: nat,
    lastRes: Option<Verdict>,
    maxWin: nat,
    maxLoss: nat)

  /** Everything the page keeps between interactions. The newest history
      row is at index 0. */
  datatype Session = Session(digits: seq<Digit>, history: seq<Row>, stats: Stats)

  /** The state a fresh (or freshly reset) page starts from (app.py:31-34). */
  function Init(): (s: Session)
    ensures s.digits == [] && Predict(s.digits) == None
    ensures |s.history| == 0 && s.stats.wins + s.stats.loss == 0
    ensures s.stats.lastRes == None && s.stats.streak == 0
    ensures s.stats.maxWin == 0 && s.stats.maxLoss == 0
  {
    Session([], [], Stats(0, 0, 0, None, 0, 0))
  }

  /** The maximum streak recorded for a verdict. */
  function MaxFor(st: Stats, v: Verdict): nat
  {
    match v
    case Win => st.maxWin
    case Loss => st.maxLoss
  }

  function Max(a: nat, b: nat): nat
  {
    if a >= b then a else b
  }

  /** A six-character seed of ASCII decimal digits (app.py:75). */
  predicate ValidSeed(text: string): (b: bool)
    ensures b ==> && (forall i :: 0 <= i < |text| ==> IsDigitChar(text[i]))
                  && |ParseDigits(text)| == 6 && Join(ParseDigits(text)) == text
    ensures !b ==> |text| != 6 || exists i :: 0 <= i < |text| && !IsDigitChar(text[i])
  {
    |text| == 6 && forall i :: 0 <= i < |text| ==> IsDigitChar(text[i])
  }

  /** The "INITIALIZE TRACKER" action (app.py:74-76): a valid seed replaces
      the sequence with its digits, anything else changes nothing. */
  function Seed(s: Session, text: string): (r: Session)
    ensures ValidSeed(text) ==>
              |r.digits| == 6 && Join(r.digits) == text
              && r.history == s.history && r.stats == s.stats
    ensures !ValidSeed(text) ==> r == s
  {
    if ValidSeed(text) then
      s.(digits := ParseDigits(text))
    else
      s
  }

  /** How a digit is judged against a prediction (app.py:89-91). */
  function Judge(d: Digit, prediction: string): (v: Verdict)
    ensures prediction == "BIG" ==> (v == Win <==> d >= 5)
    ensures prediction == "SMALL" ==> (v == Win <==> d < 5)
    ensures prediction != "BIG" && prediction != "SMALL" ==> v == Loss
  {
    if SizeName(Classify(d)) == prediction then Win else Loss
  }

  /** The counter update of one scored round (app.py:92-95). */
  function Score(st: Stats, v: Verdict): (r: Stats)
    ensures r.wins + r.loss == st.wins + st.loss + 1
    ensures v == Win ==> r.wins == st.wins + 1 && r.loss == st.loss
    ensures v == Loss ==> r.loss == st.loss + 1 && r.wins == st.wins
    ensures r.lastRes == Some(v)
    ensures st.lastRes == Some(v) ==> r.streak == st.streak + 1
    ensures st.lastRes != Some(v) ==> r.streak == 1
    ensures MaxFor(r, v) >= MaxFor(st, v) && MaxFor(r, v) >= r.streak
    ensures MaxFor(r, v) == MaxFor(st, v) || MaxFor(r, v) == r.streak
    ensures v == Win ==> r.maxLoss == st.maxLoss
    ensures v == Loss ==> r.maxWin == st.maxWin
  {
    var counted := if v == Win then st.(wins := st.wins + 1) else st.(loss := st.loss + 1);
    var streaked :=
      if st.lastRes == Some(v) then counted.(streak := st.streak + 1)
      else counted.(streak := 1, lastRes := Some(v));
    match v
    case Win => streaked.(maxWin := Max(st.maxWin, streaked.streak))
    case Loss => streaked.(maxLoss := Max(st.maxLoss, streaked.streak))
  }

  /** One digit-button press (app.py:87-97). The prediction is taken from the
      window before the digit arrives; a round is scored only when there is
      one, and the digit is appended in every case. */
  function Step(s: Session, d: Digit): (r: Session)
    ensures r.digits == s.digits + [d]
    ensures Predict(s.digits) == None ==> r == s.(digits := s.digits + [d])
    ensures Predict(s.digits).Some? ==>
              var v := if SizeName(Classify(d)) == Predict(s.digits).value then Win else Loss;
              && r.stats.wins + r.stats.loss == s.stats.wins + s.stats.loss + 1
              && (r.stats.wins == s.stats.wins + 1 <==> v == Win)
              && (r.stats.loss == s.stats.loss + 1 <==> v == Loss)
              && r.stats.lastRes == Some(v)
              && r.stats.streak == (if s.stats.lastRes == Some(v) then s.stats.streak + 1 else 1)
              && MaxFor(r.stats, v) == Max(MaxFor(s.stats, v), r.stats.streak)
              && (v == Win ==> r.stats.maxLoss == s.stats.maxLoss)
              && (v == Loss ==> r.stats.maxWin == s.stats.maxWin)
              && r.history == [Row(d, v, r.stats.streak)] + s.history
    ensures r.stats.maxWin >= s.stats.maxWin && r.stats.maxLoss >= s.stats.maxLoss
    ensures |r.history| == |s.history| + (r.stats.wins + r.stats.loss) - (s.stats.wins + s.stats.loss)
  {
    var prediction := Predict(s.digits);
    var scored :=
      if prediction.Some? then
        var v := Judge(d, prediction.value);
        var st := Score(s.stats, v);
        s.(stats := st, history := [Row(d, v, st.streak)] + s.history)
      else
        s;
    scored.(digits := s.digits + [d])
  }

  /** The "RESET TRACKER" action (app.py:103-104): clearing the page state
      and re-running the initialisation. */
  function Reset(s: Session): (r: Session)
    ensures r.digits == [] && r.history == []
    ensures r.stats == Stats(0, 0, 0, None, 0, 0)
  {
    Init()
  }

  /** The win rate shown on the page (app.py:39), as an exact ratio. */
  function WinRate(st: Stats): (r: real)
    ensures 0.0 <= r <= 100.0
    ensures st.wins + st.loss == 0 ==> r == 0.0
    ensures st.wins + st.loss > 0 ==> r * (st.wins + st.loss) as real == st.wins as real * 100.0
  {
    if st.wins + st.loss > 0 then
      st.wins as real / (st.wins + st.loss) as real * 100.0
    else
      0.0
  }

  /** A user action on the page. */
  datatype Event = SeedInput(text: string) | Press(d: Digit) | ResetPressed

  /** Which transition a user action reaches (app.py:71-97, 103-104): the
      seed box is offered only while fewer than six digits are known and the
      digit buttons only afterwards; the reset button is always offered. */
  function Handle(s: Session, e: Event): (r: Session)
    ensures e.SeedInput? && |s.digits| >= 6 ==> r == s
    ensures e.Press? && |s.digits| < 6 ==> r == s
    ensures e.SeedInput? && |s.digits| < 6 ==> r == Seed(s, e.text)
    ensures e.Press? && |s.digits| >= 6 ==> r == Step(s, e.d)
    ensures e.ResetPressed? ==> r == Init()
  {
    match e
    case SeedInput(text) => if |s.digits| < 6 then Seed(s, text) else s
    case Press(d) => if |s.digits| >= 6 then Step(s, d) else s
    case ResetPressed => Reset(s)
  }

  /** The session after a sequence of user actions, applied in order: each
      action is one rerun of the page, which hands the session it leaves to
      the next one. */
  function Run(s: Session, es: seq<Event>): (r: Session)
    decreases |es|
  {
    if |es| == 0 then s else Run(Handle(s, es[0]), es[1..])
  }
}
