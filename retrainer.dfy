/** models/retrainer.py: the canonical dataset followed by the feedback
    samples is the new training set; the base model is trained on it and then
    saved. */
module Retraining {
  import opened Wrappers
  import opened Configuration
  import opened BaseModels

  /** The block np.vstack receives for the feedback rows. The loop hands over
      np.array(feedback_X); with no rows that is a one-dimensional empty
      array, which vstack treats as a single row of width 0. */
  function FeedbackBlock(feedbackX: seq<Row>): (b: seq<Row>)
    ensures feedbackX == [] ==> b == [[]]
    ensures feedbackX != [] ==> b == feedbackX
  {
    if feedbackX == [] then [[]] else feedbackX
  }

  /** np.vstack([X, feedback_X]) and np.hstack([y, feedback_y]). vstack fails
      when a feedback row is not as wide as the canonical matrix; otherwise
      the rows are the canonical rows followed by the feedback block, and the
      labels the canonical labels followed by the feedback labels. */
  function Combine(canonical: Dataset, feedbackX: seq<Row>, feedbackY: seq<Label>): (r: Result<Dataset, Fault>)
    ensures r.Failure? <==> exists i :: 0 <= i < |FeedbackBlock(feedbackX)| && |FeedbackBlock(feedbackX)[i]| != canonical.width
    ensures r.Failure? ==> r.error == ShapeMismatch
    ensures r.Success? ==> r.value == Dataset(canonical.X + FeedbackBlock(feedbackX), canonical.y + feedbackY, canonical.width)
  {
    var block := FeedbackBlock(feedbackX);
    if exists i :: 0 <= i < |block| && |block[i]| != canonical.width then Failure(ShapeMismatch)
    else Success(Dataset(canonical.X + block, canonical.y + feedbackY, canonical.width))
  }

  /** With canonical rows of positive width (a successful combine then had
      at least one feedback row), the combined rows are exactly the canonical
      rows then the feedback rows in order, and the combined set is as long
      as both together, so never shorter than the canonical one. */
  lemma CombineAppends(canonical: Dataset, feedbackX: seq<Row>, feedbackY: seq<Label>)
    requires Combine(canonical, feedbackX, feedbackY).Success?
    requires canonical.width > 0
    ensures feedbackX != []
    ensures Combine(canonical, feedbackX, feedbackY).value.X == canonical.X + feedbackX
    ensures |Combine(canonical, feedbackX, feedbackY).value.X| == |canonical.X| + |feedbackX| > |canonical.X|
    ensures |Combine(canonical, feedbackX, feedbackY).value.y| == |canonical.y| + |feedbackY| >= |canonical.y|
  {
    EmptyFeedbackFails(canonical, feedbackY);
  }

  /** Feedback rows as wide as the canonical matrix always combine, when
      there is at least one of them. */
  lemma CombineSucceeds(canonical: Dataset, feedbackX: seq<Row>, feedbackY: seq<Label>)
    requires feedbackX != []
    requires forall i :: 0 <= i < |feedbackX| ==> |feedbackX[i]| == canonical.width
    ensures Combine(canonical, feedbackX, feedbackY).Success?
  {
  }

  /** An empty feedback buffer makes vstack fail against a canonical matrix
      of positive width. */
  lemma EmptyFeedbackFails(canonical: Dataset, feedbackY: seq<Label>)
    requires canonical.width > 0
    ensures Combine(canonical, [], feedbackY) == Failure(ShapeMismatch)
  {
    assert |FeedbackBlock([])[0]| != canonical.width;
  }

  /** Rows and labels stay paired: when both parts are aligned and
      rectangular, so is the combined set, and its row i carries label i,
      whether i falls in the canonical part or in the feedback part. */
  lemma CombineKeepsPairs(canonical: Dataset, feedbackX: seq<Row>, feedbackY: seq<Label>)
    requires Combine(canonical, feedbackX, feedbackY).Success?
    requires canonical.width > 0
    requires Aligned(canonical) && Rectangular(canonical) && |feedbackX| == |feedbackY|
    ensures Aligned(Combine(canonical, feedbackX, feedbackY).value)
    ensures Rectangular(Combine(canonical, feedbackX, feedbackY).value)
    ensures forall i :: 0 <= i < |feedbackX| ==>
      (Combine(canonical, feedbackX, feedbackY).value.X[|canonical.X| + i] == feedbackX[i] &&
       Combine(canonical, feedbackX, feedbackY).value.y[|canonical.y| + i] == feedbackY[i])
  {
    CombineAppends(canonical, feedbackX, feedbackY);
    var d := Combine(canonical, feedbackX, feedbackY).value;
    forall i | 0 <= i < |d.X| ensures |d.X[i]| == d.width {
      if i >= |canonical.X| {
        assert d.X[i] == feedbackX[i - |canonical.X|];
      }
    }
  }

  /** `retrain` on the abstract state: combine, train on the result, save.
      When vstack fails nothing is trained or saved. */
  function Retrained(s: ModelState, path: string, config: Config, canonical: Dataset, feedbackX: seq<Row>, feedbackY: seq<Label>): (r: Result<ModelState, Fault>)
  {
    match Combine(canonical, feedbackX, feedbackY)
    case Failure(e) => Failure(e)
    case Success(d) => Success(Saved(Trained(s, config, d.X, d.y), path))
  }

  /** After a retrain the held classifier is fitted on exactly the combined
      data, and the artifact is that classifier: train happens before save. */
  lemma RetrainedStoresNewClassifier(s: ModelState, path: string, config: Config, canonical: Dataset, feedbackX: seq<Row>, feedbackY: seq<Label>)
    requires Retrained(s, path, config, canonical, feedbackX, feedbackY).Success?
    ensures Combine(canonical, feedbackX, feedbackY).Success?
    ensures Retrained(s, path, config, canonical, feedbackX, feedbackY).value.held
      == Some(Fit(config, canonical.X + FeedbackBlock(feedbackX), canonical.y + feedbackY))
    ensures Retrained(s, path, config, canonical, feedbackX, feedbackY).value.files
      == s.files[path := Retrained(s, path, config, canonical, feedbackX, feedbackY).value.held]
  {
  }

  /** A retrain fails exactly when the combination does, and then with a
      shape mismatch. That a failed retrain leaves the model and the disk as
      they were is stated by `Retrainer.Retrain`. */
  lemma RetrainedFailsIff(s: ModelState, path: string, config: Config, canonical: Dataset, feedbackX: seq<Row>, feedbackY: seq<Label>)
    ensures Retrained(s, path, config, canonical, feedbackX, feedbackY).Failure?
      <==> Combine(canonical, feedbackX, feedbackY).Failure?
    ensures Retrained(s, path, config, canonical, feedbackX, feedbackY).Failure? ==>
      Retrained(s, path, config, canonical, feedbackX, feedbackY).error == ShapeMismatch
  {
  }

  /** The Retrainer object: it holds only its configuration. */
  class Retrainer {
    const config: Config

    constructor (config: Config)
      ensures this.config == config
    {
      this.config := config;
    }

    /** `retrain`: regenerate the canonical data, combine, train, save. On a
        shape mismatch the base model and the disk are left untouched. */
    method Retrain(baseModel: BaseModel, feedbackX: seq<Row>, feedbackY: seq<Label>) returns (outcome: Outcome<Fault>)
      modifies baseModel, baseModel.disk
      ensures match Retrained(old(baseModel.State()), baseModel.modelPath, baseModel.config,
                              baseModel.sampler(baseModel.config.data), feedbackX, feedbackY)
        case Failure(e) => outcome == Fail(e) && baseModel.State() == old(baseModel.State())
        case Success(t) => outcome == Pass && baseModel.State() == t
    {
      var canonical := baseModel.GenerateData();
      var combined := Combine(canonical, feedbackX, feedbackY);
      if combined.Failure? {
        return Fail(combined.error);
      }
      baseModel.Train(combined.value.X, combined.value.y);
      baseModel.Save();
      outcome := Pass;
    }
  }
}
