/**
 * The raw-level-to-status mapping that both batch routes of the server
 * apply before inserting a row: a raw ADC water level becomes one of the
 * one-letter codes stored in the `water_status` column.
 */
module WaterLevel {
  import opened JsValues
  import opened JsText

  /** High, Medium, Low, Error/Empty. */
  datatype WaterStatus = H | M | L | E

  /** One cell of a parsed CSV record: a number the parser cast, text it left alone, or nothing. */
  datatype Cell = Num(n: JsNumber) | Text(s: string) | Undefined

  /** The number a relational comparison against a numeric constant sees for a cell. */
  function LevelOf(c: Cell): JsNumber
  {
    match c
    case Num(n) => n
    case Text(s) => ToNumber(s)
    case Undefined => NaN
  }

  const HighThreshold: real := 200.0
  const MediumThreshold: real := 100.0
  const LowThreshold: real := 0.0

  /** The if-chain of the upload route: `>= 200` is H, else `> 100` is M, else `> 0` is L, else E. */
  function Classify(level: JsNumber): WaterStatus
  {
    if Ge(level, HighThreshold) then H
    else if Gt(level, MediumThreshold) then M
    else if Gt(level, LowThreshold) then L
    else E
  }

  /** The bands of the classifier on the number line, both ways, and its answer for the non-finite levels. */
  lemma ClassifyBands(level: JsNumber)
    ensures level.Finite? ==> (Classify(level) == H <==> level.r >= 200.0)
    ensures level.Finite? ==> (Classify(level) == M <==> 100.0 < level.r < 200.0)
    ensures level.Finite? ==> (Classify(level) == L <==> 0.0 < level.r <= 100.0)
    ensures level.Finite? ==> (Classify(level) == E <==> level.r <= 0.0)
    ensures level.NaN? || level.NegInf? ==> Classify(level) == E
    ensures level.PosInf? ==> Classify(level) == H
  {
  }

  /**
   * The append route's form of the same chain: the status starts as E and
   * each matching test overrides it.  It agrees with the upload route's
   * classifier on every input.
   */
  method ClassifyDefaultE(level: JsNumber) returns (status: WaterStatus)
    ensures status == Classify(level)
  {
    status := E;
    if Ge(level, HighThreshold) {
      status := H;
    } else if Gt(level, MediumThreshold) {
      status := M;
    } else if Gt(level, LowThreshold) {
      status := L;
    }
  }

  /**
   * The status stored for a cell that holds no number: a missing cell, a
   * blank one (which a comparison reads as 0), text that cannot start a
   * decimal literal, and text that is not wholly one all get E.
   */
  lemma NonNumericCellIsE(c: Cell)
    ensures c.Undefined? ==> LevelOf(c).NaN? && Classify(LevelOf(c)) == E
    ensures c.Text? && (forall k :: 0 <= k < |c.s| ==> IsSpace(c.s[k])) ==>
      LevelOf(c) == Finite(0.0) && Classify(LevelOf(c)) == E
    ensures c.Text? && Trim(c.s) != [] && !StartsLikeNumber(Trim(c.s)[0]) ==>
      LevelOf(c).NaN? && Classify(LevelOf(c)) == E
    ensures c.Text? && Trim(c.s) != [] && !IsDecimalLiteral(Trim(c.s)) ==>
      LevelOf(c).NaN? && Classify(LevelOf(c)) == E
  {
    if c.Text? {
      TrimSpec(c.s);
      if Trim(c.s) != [] && !StartsLikeNumber(Trim(c.s)[0]) {
        ToNumberRejects(c.s);
      }
    }
  }

  /** Whitespace around a level left as text does not change what it compares as. */
  lemma {:induction false} TextLevelIgnoresPadding(pre: string, word: string, post: string)
    requires forall k :: 0 <= k < |pre| ==> IsSpace(pre[k])
    requires forall k :: 0 <= k < |post| ==> IsSpace(post[k])
    requires word != [] && !IsSpace(word[0]) && !IsSpace(word[|word| - 1])
    ensures LevelOf(Text(pre + word + post)) == LevelOf(Text(word))
  {
    TrimPadded(pre, word, post);
    TrimPadded([], word, []);
    assert [] + word + [] == word;
  }

  /** A level the parser left as text compares by its numeric value: a count written out classifies like the count. */
  lemma {:induction false} TextLevelClassifiesLikeNumber(n: nat)
    ensures Classify(LevelOf(Text(Show(n)))) == Classify(Finite(n as real))
    ensures Classify(LevelOf(Text(Show(n)))) == (if n >= 200 then H else if n > 100 then M else if n > 0 then L else E)
  {
    ToNumberShow(n);
  }
}
