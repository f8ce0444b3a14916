/**
 * The emotion weight vector shared by both renderers (blendSDF.js and
 * keyboard.js build it the same way): seven weights, one per emotion
 * channel, read out of a sparse mapping from emotion label to intensity.
 */
module Emotions {
  import opened Wrappers

  /** The channel order: index i of a weight vector and texture unit i. */
  const EMOTIONS: seq<string> :=
    ["neutral", "happy", "sad", "angry", "fearful", "disgusted", "surprised"]

  const CHANNELS: nat := 7

  /** The mapping used when the caller passes no expressions. */
  const NEUTRAL_ONLY: map<string, real> := map["neutral" := 1.0]

  /** The neutral impulse: all weight on channel 0. */
  const NEUTRAL_WEIGHTS: seq<real> := [1.0, 0.0, 0.0, 0.0, 0.0, 0.0, 0.0]

  /** `expressions[e] || 0.0`: the intensity of label e, or 0 when absent. */
  function Intensity(expressions: map<string, real>, e: string): real
  {
    if e in expressions then expressions[e] else 0.0
  }

  /**
   * The weight vector built from `expressions`, or from the neutral mapping
   * when `expressions` is null.
   */
  function Weights(expressions: Option<map<string, real>>): (w: seq<real>)
    ensures |w| == |EMOTIONS| == CHANNELS
    ensures expressions.None? ==> w == NEUTRAL_WEIGHTS
    ensures expressions.Some? ==>
      forall i :: 0 <= i < CHANNELS ==> w[i] == Intensity(expressions.value, EMOTIONS[i])
  {
    var e := if expressions.None? then NEUTRAL_ONLY else expressions.value;
    seq(|EMOTIONS|, i requires 0 <= i < |EMOTIONS| => Intensity(e, EMOTIONS[i]))
  }

  /** No two channels carry the same label. */
  lemma LabelsDistinct()
    ensures forall i, j :: 0 <= i < j < CHANNELS ==> EMOTIONS[i] != EMOTIONS[j]
  {
  }

  /** A mapping that names a single emotion puts its intensity on that channel only. */
  lemma SingleEmotion(i: nat, v: real)
    requires i < CHANNELS
    ensures var w := Weights(Some(map[EMOTIONS[i] := v]));
      w[i] == v && forall j :: 0 <= j < CHANNELS && j != i ==> w[j] == 0.0
  {
  }

  /** A null mapping is the same as an explicit `{neutral: 1.0}`. */
  lemma NullIsNeutral()
    ensures Weights(None) == Weights(Some(NEUTRAL_ONLY))
  {
  }

  /** Labels outside the seven emotions have no effect on the weights. */
  lemma OnlyEmotionLabelsMatter(m: map<string, real>, m': map<string, real>)
    requires forall i :: 0 <= i < CHANNELS ==> Intensity(m, EMOTIONS[i]) == Intensity(m', EMOTIONS[i])
    ensures Weights(Some(m)) == Weights(Some(m'))
  {
  }
}
