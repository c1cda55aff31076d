/**
 The fixed pattern table of the tracker and the predictor that consults it.

 A game outcome is one decimal digit. The predictor renders the last six
 digits of the live sequence as a six-character string and looks that string
 up in the table; a missing key means "no prediction".
 */
module Patterns {

  datatype Option<+T> = None | Some(value: T)

  /** One observed game outcome. */
  type Digit = d: int | 0 <= d <= 9

  /** The size category of an outcome. */
  datatype Size = Big | Small

  /** The text the table and the scorer use for a size. */
  function SizeName(s: Size): string
  {
    match s
    case Big => "BIG"
    case Small => "SMALL"
  }

  /** The digit-to-size rule used when scoring a round (app.py:89). */
  function Classify(d: Digit): (s: Size)
    ensures s == Big <==> d >= 5
    ensures s == Small <==> d < 5
  {
    if d >= 5 then Big else Small
  }

  /** The deterministic pattern table, key for key and value for value. */
  const NumberLogic: map<string, string> := map[
    "431321" := "SMALL", "313214" := "BIG", "132141" := "SMALL",
    "214167" := "SMALL", "141671" := "BIG", "416716" := "SMALL",
    "821557" := "SMALL", "215570" := "BIG", "155703" := "SMALL"
  ]

  /** The character `str(d)` produces for a single digit. */
  function DigitChar(d: Digit): char
  {
    ('0' as int + d) as char
  }

  predicate IsDigitChar(c: char)
  {
    '0' <= c <= '9'
  }

  function CharDigit(c: char): Digit
    requires IsDigitChar(c)
  {
    c as int - '0' as int
  }

  /** `"".join(map(str, ds))`: the digits written one character each. */
  function Join(ds: seq<Digit>): (t: string)
    ensures |t| == |ds|
    ensures forall i :: 0 <= i < |ds| ==> t[i] == DigitChar(ds[i])
  {
    if |ds| == 0 then "" else [DigitChar(ds[0])] + Join(ds[1..])
  }

  /** `[int(c) for c in text]` for a text of decimal digits. */
  function ParseDigits(text: string): (ds: seq<Digit>)
    requires forall i :: 0 <= i < |text| ==> IsDigitChar(text[i])
    ensures |ds| == |text|
    ensures forall i :: 0 <= i < |text| ==> ds[i] == CharDigit(text[i])
  {
    if |text| == 0 then [] else [CharDigit(text[0])] + ParseDigits(text[1..])
  }

  /** Python's `ds[-6:]`: the whole sequence when it is shorter than six. */
  function LastSix(ds: seq<Digit>): (w: seq<Digit>)
    ensures |w| == if |ds| < 6 then |ds| else 6
    ensures ds == ds[..|ds| - |w|] + w
  {
    if |ds| <= 6 then ds else ds[|ds| - 6..]
  }

  /** The table lookup for the current trailing window (app.py:51-52). */
  function Predict(ds: seq<Digit>): (r: Option<string>)
    ensures |ds| < 6 ==> r == None
    ensures r.Some? ==> r.value == SizeName(Big) || r.value == SizeName(Small)
    ensures |ds| >= 6 ==>
              (r.Some? <==> Join(ds[|ds| - 6..]) in NumberLogic)
    ensures r.Some? ==> r.value == NumberLogic[Join(ds[|ds| - 6..])]
  {
    var key := Join(LastSix(ds));
    if key in NumberLogic then Some(NumberLogic[key]) else None
  }

  // ---------------------------------------------------------------------
  // Properties of the window encoding and of the table.

  /** Every key of the table is six characters long. */
  lemma TableKeysHaveSixCharacters()
    ensures forall k :: k in NumberLogic ==> |k| == 6
  {
  }

  /** Every value of the table names a size. */
  lemma TableValuesAreSizes()
    ensures forall k :: k in NumberLogic ==>
              NumberLogic[k] == SizeName(Big) || NumberLogic[k] == SizeName(Small)
  {
  }

  /** Reading back a joined window gives the digits that were joined. */
  lemma ParseJoin(ds: seq<Digit>)
    ensures forall i :: 0 <= i < |Join(ds)| ==> IsDigitChar(Join(ds)[i])
    ensures ParseDigits(Join(ds)) == ds
  {
  }

  /** Joining parsed digits gives back the text they were parsed from. */
  lemma JoinParse(text: string)
    requires forall i :: 0 <= i < |text| ==> IsDigitChar(text[i])
    ensures |ParseDigits(text)| == |text|
    ensures Join(ParseDigits(text)) == text
  {
  }

  /** Distinct windows are distinct keys: the encoding loses nothing. */
  lemma JoinInjective(a: seq<Digit>, b: seq<Digit>)
    requires Join(a) == Join(b)
    ensures a == b
  {
  }

  /** Only the last six digits matter to the predictor. */
  lemma PredictUsesOnlyLastSix(prefix: seq<Digit>, w: seq<Digit>)
    requires |w| == 6
    ensures Predict(prefix + w) == Predict(w)
  {
  }

  /** A six-digit window is predicted exactly when its text is a key,
      and the prediction is the table's value for that key. */
  lemma PredictWindow(w: seq<Digit>, p: string)
    requires |w| == 6
    ensures Predict(w) == Some(p) <==> Join(w) in NumberLogic && NumberLogic[Join(w)] == p
  {
  }
}
