/** The quality gate of models/critic_model.py: a row of predicted
    probabilities is high quality when its Shannon entropy does not exceed
    1 - critic_threshold. */
module CriticModel {
  import opened Configuration
  import opened Uncertainty

  /** The two fields the constructor sets once; nothing changes them later. */
  datatype Critic = Critic(threshold: real, entropyThreshold: real)

  /** CriticModel.__init__: reads critic_threshold and derives the entropy
      threshold with the maximal entropy fixed at 1.0, the binary value. */
  function NewCritic(config: Config): (c: Critic)
    ensures c.threshold == config.criticThreshold
    ensures c.entropyThreshold + c.threshold == 1.0
  {
    Critic(config.criticThreshold, 1.0 - config.criticThreshold)
  }

  /** The derived threshold does not depend on the number of classes: two
      configurations that agree on critic_threshold give the same critic,
      whatever their data sections say, class counts included. */
  lemma ThresholdIgnoresClassCount(a: Config, b: Config)
    requires a.criticThreshold == b.criticThreshold
    ensures NewCritic(a) == NewCritic(b)
  {
  }

  /** CriticModel.evaluate: one flag per row, true exactly when the row's
      entropy is at most the entropy threshold (the boundary passes). */
  function Evaluate(log2: real -> real, critic: Critic, proba: seq<seq<real>>): (quality: seq<bool>)
    ensures |quality| == |proba|
    ensures forall i :: 0 <= i < |proba| ==>
      (quality[i] <==> RowEntropy(log2, proba[i]) <= critic.entropyThreshold)
  {
    var entropy := ShannonEntropy(log2, proba);
    seq(|entropy|, i requires 0 <= i < |entropy| => entropy[i] <= critic.entropyThreshold)
  }

  /** A row whose entropy equals the entropy threshold exactly is high
      quality. */
  lemma BoundaryPasses(log2: real -> real, critic: Critic, proba: seq<seq<real>>, i: nat)
    requires i < |proba|
    requires RowEntropy(log2, proba[i]) == critic.entropyThreshold
    ensures Evaluate(log2, critic, proba)[i]
  {
  }

  /** A higher critic_threshold is stricter: a row it accepts is accepted by
      every lower threshold, so raising the threshold only turns flags from
      true to false. */
  lemma StricterThresholdOnlyRejects(log2: real -> real, lax: Config, strict: Config, proba: seq<seq<real>>)
    requires lax.criticThreshold <= strict.criticThreshold
    ensures forall i :: 0 <= i < |proba| ==>
      (Evaluate(log2, NewCritic(strict), proba)[i] ==> Evaluate(log2, NewCritic(lax), proba)[i])
  {
  }

  /** The most uncertain binary row (0.5, 0.5), entropy 1.0, passes exactly
      when critic_threshold is at most 0. */
  lemma MaximallyUncertainPassesIff(log2: real -> real, config: Config)
    requires log2(0.5) == -1.0
    ensures Evaluate(log2, NewCritic(config), [[0.5, 0.5]])[0] <==> config.criticThreshold <= 0.0
  {
    UniformBinaryEntropy(log2);
  }

  /** The entropy of (0.98, 0.02) from two-sided bounds on the logarithms:
      log2(0.98) lies in [-0.03, -0.029] and log2(0.02) in [-5.7, -5.64]. */
  lemma SkewedRowEntropyBounds(log2: real -> real)
    requires -0.03 <= log2(0.98) <= -0.029
    requires -5.7 <= log2(0.02) <= -5.64
    ensures 0.14122 <= RowEntropy(log2, [0.98, 0.02]) <= 0.1434
  {
    assert 1.0 - 0.98 == 0.02;
    BinaryEntropy(log2, 0.98);
  }

  /** The critic regression test: [[0.98, 0.02], [0.5, 0.5]] evaluates to
      [true, false] for every critic_threshold in (0, 0.85]. */
  lemma RegressionCritic(log2: real -> real, config: Config)
    requires log2(0.5) == -1.0
    requires -0.03 <= log2(0.98) <= -0.029
    requires -5.7 <= log2(0.02) <= -5.64
    requires 0.0 < config.criticThreshold <= 0.85
    ensures Evaluate(log2, NewCritic(config), [[0.98, 0.02], [0.5, 0.5]]) == [true, false]
  {
    SkewedRowEntropyBounds(log2);
    UniformBinaryEntropy(log2);
  }

  /** With critic_threshold 0.86 the entropy threshold is 0.14, which the
      entropy of (0.98, 0.02), about 0.1414, exceeds: that row is flagged low
      quality, and the regression test's first assertion would not hold. */
  lemma ThresholdPoint86RejectsSkewedRow(log2: real -> real, config: Config)
    requires -0.03 <= log2(0.98) <= -0.029
    requires -5.7 <= log2(0.02) <= -5.64
    requires config.criticThreshold == 0.86
    ensures !Evaluate(log2, NewCritic(config), [[0.98, 0.02], [0.5, 0.5]])[0]
  {
    SkewedRowEntropyBounds(log2);
  }
}
