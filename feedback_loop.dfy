/** pipeline/feedback_loop.py: bootstrap a model if none is stored, fix a test
    split once, then run five iterations of load, predict, critic,
    feedback collection, report and (when the buffer is full enough)
    retrain-and-reset.

    The specification is a function of the environment and the initial
    disk (`Run`); the method `RunFeedbackLoop` is the script itself, with its
    two nested loops, proved to end in the state `Run` describes. */
module FeedbackLoop {
  import opened Wrappers
  import opened Configuration
  import opened Uncertainty
  import opened CriticModel
  import opened BaseModels
  import opened Retraining

  /** Everything the loop depends on and does not compute: the
      configuration, the classifier's behaviour, the logarithm, the data
      generator and the fixed train/test split (which returns the test
      part). */
  datatype Env = Env(
    config: Config,
    learner: Learner,
    log2: real -> real,
    sampler: DataConfig -> Dataset,
    split: Dataset -> Dataset)

  /** The dataset generate_data returns, the same on every call. */
  function Canonical(env: Env): Dataset {
    env.sampler(env.config.data)
  }

  /** X_test and y_test, computed once before the iterations start. */
  function TestSet(env: Env): Dataset {
    env.split(Canonical(env))
  }

  /** The values one progress line reports: iteration number, accuracy
      (None for the NaN that the mean of no comparisons gives) and the
      buffer size after collection. */
  datatype Report = Report(iteration: nat, accuracy: Option<real>, feedbackCount: nat)

  /** The number of positions where two equally long label vectors agree;
      it reaches their length exactly when they are equal. */
  function CountEqual(a: seq<Label>, b: seq<Label>): (n: nat)
    requires |a| == |b|
    ensures n <= |a|
    ensures n == |a| <==> a == b
  {
    if a == [] then 0
    else
      assert a == [a[0]] + a[1..] && b == [b[0]] + b[1..];
      (if a[0] == b[0] then 1 else 0) + CountEqual(a[1..], b[1..])
  }

  /** np.mean(predictions == y_test): the fraction of test positions
      predicted correctly, which lies in [0, 1] and is 1 exactly when every
      prediction is correct; no value for an empty test set. */
  function Accuracy(predictions: seq<Label>, labels: seq<Label>): (r: Option<real>)
    requires |predictions| == |labels|
    ensures r.None? <==> predictions == []
    ensures r.Some? ==> 0.0 <= r.value <= 1.0
    ensures r.Some? ==> (r.value == 1.0 <==> predictions == labels)
    ensures r.Some? ==> r.value * (|predictions| as real) == CountEqual(predictions, labels) as real
  {
    if predictions == [] then None
    else
      var count := CountEqual(predictions, labels);
      assert count == |predictions| <==> predictions == labels;
      var c := count as real;
      var n := |predictions| as real;
      Fraction(c, n);
      Some(c / n)
  }

  /** c / n for 0 <= c <= n and n > 0 lies in [0, 1], is 1 exactly when
      c == n, and times n gives c back. */
  lemma Fraction(c: real, n: real)
    requires 0.0 <= c <= n && n > 0.0
    ensures 0.0 <= c / n <= 1.0
    ensures c / n == 1.0 <==> c == n
    ensures c / n * n == c
  {
    var q := c / n;
    assert q * n == c;
    ProductSign(q, n);
  }

  /** Multiplying by a positive n keeps the sign, and the side of 1. */
  lemma ProductSign(q: real, n: real)
    requires n > 0.0
    ensures q < 0.0 ==> q * n < 0.0
    ensures q > 1.0 ==> q * n > n
  {
    if q > 1.0 {
      assert (q - 1.0) * n > 0.0;
    }
  }

  /** The positions of the true entries of `keep`, in increasing order. */
  function Indices(keep: seq<bool>): (r: seq<nat>)
    ensures forall j :: 0 <= j < |r| ==> r[j] < |keep| && keep[r[j]]
    ensures forall j, l :: 0 <= j < l < |r| ==> r[j] < r[l]
    ensures forall i :: 0 <= i < |keep| && keep[i] ==> i in r
  {
    if keep == [] then []
    else
      var n := |keep| - 1;
      var init := Indices(keep[..n]);
      IndicesSnoc(keep, init);
      init + (if keep[n] then [n] else [])
  }

  /** The step of Indices: the positions found in all but the last flag,
      then the last position when it is marked. */
  lemma IndicesSnoc(keep: seq<bool>, init: seq<nat>)
    requires keep != []
    requires forall j :: 0 <= j < |init| ==> init[j] < |keep| - 1 && keep[..|keep| - 1][init[j]]
    requires forall j, l :: 0 <= j < l < |init| ==> init[j] < init[l]
    requires forall i :: 0 <= i < |keep| - 1 && keep[..|keep| - 1][i] ==> i in init
    ensures var r := init + (if keep[|keep| - 1] then [|keep| - 1] else []);
      (forall j :: 0 <= j < |r| ==> r[j] < |keep| && keep[r[j]]) &&
      (forall j, l :: 0 <= j < l < |r| ==> r[j] < r[l]) &&
      (forall i :: 0 <= i < |keep| && keep[i] ==> i in r)
  {
    var n := |keep| - 1;
    var r := init + (if keep[n] then [n] else []);
    forall j | 0 <= j < |r| ensures r[j] < |keep| && keep[r[j]] {
      if j < |init| {
        assert keep[..n][init[j]] == keep[init[j]];
      }
    }
    forall i | 0 <= i < |keep| && keep[i] ensures i in r {
      if i < n {
        assert keep[..n][i] == keep[i];
      }
    }
  }

  /** The entries of xs at the positions `keep` marks, in order: what the
      inner loop appends to a buffer. */
  function Picked<T>(xs: seq<T>, keep: seq<bool>): (r: seq<T>)
    requires |xs| == |keep|
  {
    if xs == [] then []
    else
      var n := |xs| - 1;
      Picked(xs[..n], keep[..n]) + (if keep[n] then [xs[n]] else [])
  }

  /** Picked takes one entry per marked position, the j-th pick being the
      entry at the j-th marked position. */
  lemma {:induction false} PickedAt<T>(xs: seq<T>, keep: seq<bool>)
    requires |xs| == |keep|
    ensures |Picked(xs, keep)| == |Indices(keep)|
    ensures forall j :: 0 <= j < |Indices(keep)| ==> Picked(xs, keep)[j] == xs[Indices(keep)[j]]
  {
    if xs != [] {
      var n := |xs| - 1;
      assert keep[..n + 1] == keep;
      PickedAt(xs[..n], keep[..n]);
    }
  }

  /** Marking one more position appends its entry when it is marked. */
  lemma PickedSnoc<T>(xs: seq<T>, keep: seq<bool>, i: nat)
    requires |xs| == |keep| && i < |xs|
    ensures Picked(xs[..i + 1], keep[..i + 1]) == Picked(xs[..i], keep[..i]) + (if keep[i] then [xs[i]] else [])
  {
    assert xs[..i + 1][..i] == xs[..i];
    assert keep[..i + 1][..i] == keep[..i];
  }

  /** The feedback condition of one test sample: low quality or
      misclassified. */
  function Flags(quality: seq<bool>, predictions: seq<Label>, labels: seq<Label>): (keep: seq<bool>)
    requires |quality| == |predictions| == |labels|
    ensures |keep| == |labels|
    ensures forall i :: 0 <= i < |keep| ==> (keep[i] <==> !quality[i] || predictions[i] != labels[i])
  {
    seq(|labels|, i requires 0 <= i < |labels| => !quality[i] || predictions[i] != labels[i])
  }

  /** The test samples classifier c sends to the buffer. Sample i is sent
      exactly when the entropy of its predicted probabilities exceeds
      1 - critic_threshold, or its predicted label is not its true label. */
  function Keep(env: Env, test: Dataset, c: Classifier): (keep: seq<bool>)
    requires Aligned(test)
    ensures |keep| == |test.X|
    ensures forall i :: 0 <= i < |keep| ==>
      (keep[i] <==>
        RowEntropy(env.log2, env.learner.predictProba(c, test.X[i])) > 1.0 - env.config.criticThreshold ||
        env.learner.predict(c, test.X[i]) != test.y[i])
  {
    var predictions := Predictions(env.learner, Some(c), test.X).value;
    var quality := Evaluate(env.log2, NewCritic(env.config), Probabilities(env.learner, Some(c), test.X).value);
    Flags(quality, predictions, test.y)
  }

  /** The loop's variables between iterations: the model's abstract state,
      the two feedback lists and the reports printed so far. */
  datatype LoopState = LoopState(model: ModelState, feedbackX: seq<Row>, feedbackY: seq<Label>, reports: seq<Report>)

  /** An iteration either completes or raises; `Abort` keeps the state at
      the point of the exception. */
  datatype Step = Continue(state: LoopState) | Abort(state: LoopState, fault: Fault)

  /** The first half of an iteration, once the loaded state m holds a
      classifier: collect this iteration's feedback onto the buffer and
      report. */
  function Collect(env: Env, test: Dataset, s: LoopState, m: ModelState, k: nat): (u: LoopState)
    requires Aligned(test) && m.held.Some?
  {
    var keep := Keep(env, test, m.held.value);
    var feedbackX := s.feedbackX + Picked(test.X, keep);
    var feedbackY := s.feedbackY + Picked(test.y, keep);
    var predictions := Predictions(env.learner, m.held, test.X).value;
    LoopState(m, feedbackX, feedbackY, s.reports + [Report(k, Accuracy(predictions, test.y), |feedbackX|)])
  }

  /** The second half: retrain and empty the buffer when it holds at least
      retrain_batch_size samples. */
  function RetrainStep(env: Env, u: LoopState): Step
  {
    if |u.feedbackX| >= env.config.retrainBatchSize then
      match Retrained(u.model, ModelPath, env.config, Canonical(env), u.feedbackX, u.feedbackY)
      case Failure(e) => Abort(u, e)
      case Success(t) => Continue(LoopState(t, [], [], u.reports))
    else Continue(u)
  }

  /** One pass of the outer loop, iteration number k. */
  function Iteration(env: Env, test: Dataset, s: LoopState, k: nat): Step
    requires Aligned(test)
  {
    var m := Loaded(s.model, ModelPath);
    if m.held.None? then Abort(s.(model := m), NoModel)
    else RetrainStep(env, Collect(env, test, s, m, k))
  }

  /** Iterations k through 4. */
  function RunFrom(env: Env, test: Dataset, s: LoopState, k: nat): Step
    requires Aligned(test) && k <= 5
    decreases 5 - k
  {
    if k == 5 then Continue(s)
    else
      match Iteration(env, test, s, k)
      case Abort(t, e) => Abort(t, e)
      case Continue(t) => RunFrom(env, test, t, k + 1)
  }

  /** The initial train-and-save, which happens only when nothing is stored. */
  function Bootstrap(env: Env, s: ModelState): ModelState
  {
    if ModelPath !in s.files then Saved(Trained(s, env.config, Canonical(env).X, Canonical(env).y), ModelPath)
    else s
  }

  /** `main`: a fresh base model over the given disk, the bootstrap, the test
      split, then five iterations from an empty buffer. */
  function Run(env: Env, files: map<string, Option<Classifier>>): Step
    requires Aligned(TestSet(env))
  {
    RunFrom(env, TestSet(env), LoopState(Bootstrap(env, ModelState(None, files)), [], [], []), 0)
  }

  /** The bootstrap trains on the canonical data and stores the result when
      no model is stored, and does nothing otherwise. */
  lemma BootstrapOnlyWhenAbsent(env: Env, s: ModelState)
    ensures ModelPath in s.files ==> Bootstrap(env, s) == s
    ensures ModelPath !in s.files ==>
      (var c := Some(Fit(env.config, Canonical(env).X, Canonical(env).y));
       Bootstrap(env, s).held == c && Bootstrap(env, s).files == s.files[ModelPath := c])
  {
  }

  /** Each iteration reloads the stored model before predicting: when a
      model is stored, the classifier held on entry makes no difference. */
  lemma IterationReloads(env: Env, test: Dataset, s: LoopState, k: nat, other: Option<Classifier>)
    requires Aligned(test)
    requires ModelPath in s.model.files
    ensures Iteration(env, test, s, k) == Iteration(env, test, s.(model := s.model.(held := other)), k)
  {
    assert Loaded(s.model, ModelPath) == Loaded(s.model.(held := other), ModelPath);
  }

  /** Collection appends the test samples Keep marks to each buffer, with
      their true labels, and holds the loaded state. */
  lemma CollectPicks(env: Env, test: Dataset, s: LoopState, m: ModelState, k: nat)
    requires Aligned(test) && m.held.Some?
    ensures Collect(env, test, s, m, k).model == m
    ensures Collect(env, test, s, m, k).feedbackX == s.feedbackX + Picked(test.X, Keep(env, test, m.held.value))
    ensures Collect(env, test, s, m, k).feedbackY == s.feedbackY + Picked(test.y, Keep(env, test, m.held.value))
  {
  }

  /** `after` is `before` followed by the entries of xs at the positions idx,
      in that order, and nothing else. */
  ghost predicate AppendsAt<T>(before: seq<T>, after: seq<T>, xs: seq<T>, idx: seq<int>)
  {
    |after| == |before| + |idx| && after[..|before|] == before &&
    forall j :: 0 <= j < |idx| ==> 0 <= idx[j] < |xs| && after[|before| + j] == xs[idx[j]]
  }

  /** Collection keeps the old buffer as a prefix and appends, in index
      order, every test sample that Keep marks and no other, each with its
      true label; the two lists grow by the same amount. */
  lemma CollectAppends(env: Env, test: Dataset, s: LoopState, m: ModelState, k: nat)
    requires Aligned(test) && m.held.Some?
    ensures Collect(env, test, s, m, k).model == m
    ensures AppendsAt(s.feedbackX, Collect(env, test, s, m, k).feedbackX, test.X, Indices(Keep(env, test, m.held.value)))
    ensures AppendsAt(s.feedbackY, Collect(env, test, s, m, k).feedbackY, test.y, Indices(Keep(env, test, m.held.value)))
  {
    var keep := Keep(env, test, m.held.value);
    CollectPicks(env, test, s, m, k);
    AppendPicks(s.feedbackX, test.X, keep);
    AppendPicks(s.feedbackY, test.y, keep);
  }

  /** A buffer extended by picks keeps its old entries as a prefix, and its
      j-th new entry is the entry at the j-th marked position. */
  lemma AppendPicks<T>(acc: seq<T>, xs: seq<T>, keep: seq<bool>)
    requires |xs| == |keep|
    ensures AppendsAt(acc, acc + Picked(xs, keep), xs, Indices(keep))
  {
    PickedAt(xs, keep);
    var r := acc + Picked(xs, keep);
    assert r[..|acc|] == acc;
    forall j | 0 <= j < |Indices(keep)| ensures r[|acc| + j] == xs[Indices(keep)[j]] {
      assert r[|acc| + j] == Picked(xs, keep)[j];
    }
  }

  /** An iteration that completes appends exactly one report, numbered k. */
  lemma IterationReport(env: Env, test: Dataset, s: LoopState, k: nat)
    requires Aligned(test)
    requires Iteration(env, test, s, k).Continue?
    ensures
      var t := Iteration(env, test, s, k).state;
      |t.reports| == |s.reports| + 1 && t.reports[..|s.reports|] == s.reports &&
      t.reports[|s.reports|].iteration == k
  {
    var t := Iteration(env, test, s, k).state;
    assert t.reports == Collect(env, test, s, Loaded(s.model, ModelPath), k).reports;
  }

  /** Retrain fires exactly when the buffer, after this iteration's
      collection, holds at least retrain_batch_size samples; the buffer is
      then empty and the stored artifact is the classifier trained on the
      canonical data followed by the buffer. Otherwise the state after
      collection carries over unchanged. */
  lemma RetrainIffThreshold(env: Env, test: Dataset, s: LoopState, k: nat)
    requires Aligned(test)
    requires Iteration(env, test, s, k).Continue?
    ensures Loaded(s.model, ModelPath).held.Some?
    ensures
      var u := Collect(env, test, s, Loaded(s.model, ModelPath), k);
      var t := Iteration(env, test, s, k).state;
      t.reports == u.reports &&
      (|u.feedbackX| >= env.config.retrainBatchSize ==>
        t.feedbackX == [] && t.feedbackY == [] &&
        t.model.held == Some(Fit(env.config, Canonical(env).X + FeedbackBlock(u.feedbackX), Canonical(env).y + u.feedbackY)) &&
        t.model.files == u.model.files[ModelPath := t.model.held]) &&
      (|u.feedbackX| < env.config.retrainBatchSize ==> t == u)
  {
    var u := Collect(env, test, s, Loaded(s.model, ModelPath), k);
    if |u.feedbackX| >= env.config.retrainBatchSize {
      RetrainedStoresNewClassifier(u.model, ModelPath, env.config, Canonical(env), u.feedbackX, u.feedbackY);
    }
  }

  /** No de-duplication: two iterations in a row that end with a non-empty
      buffer (so neither retrained) run the same classifier and append the
      same samples twice. */
  lemma RepeatedFlagsDuplicate(env: Env, test: Dataset, s: LoopState, k: nat)
    requires Aligned(test)
    requires Iteration(env, test, s, k).Continue?
    requires Iteration(env, test, Iteration(env, test, s, k).state, k + 1).Continue?
    requires |Iteration(env, test, s, k).state.feedbackX| > 0
    requires |Iteration(env, test, Iteration(env, test, s, k).state, k + 1).state.feedbackX| > 0
    ensures
      var c := Loaded(s.model, ModelPath).held.value;
      var added := Picked(test.X, Keep(env, test, c));
      Iteration(env, test, Iteration(env, test, s, k).state, k + 1).state.feedbackX == s.feedbackX + added + added
  {
    var t := Iteration(env, test, s, k).state;
    RetrainIffThreshold(env, test, s, k);
    RetrainIffThreshold(env, test, t, k + 1);
    var m := Loaded(s.model, ModelPath);
    assert t.model == m;
    assert Loaded(m, ModelPath) == m;
  }

  /** feedback_X and feedback_y keep equal lengths through an iteration,
      whether it completes or raises. */
  lemma IterationKeepsBufferAligned(env: Env, test: Dataset, s: LoopState, k: nat)
    requires Aligned(test)
    requires |s.feedbackX| == |s.feedbackY|
    ensures |Iteration(env, test, s, k).state.feedbackX| == |Iteration(env, test, s, k).state.feedbackY|
  {
    var m := Loaded(s.model, ModelPath);
    if m.held.Some? {
      CollectAppends(env, test, s, m, k);
    }
  }

  /** A run that completes from iteration k prints one report per remaining
      iteration, numbered k to 4, after the earlier reports; and the two
      buffers stay equally long throughout. */
  lemma {:induction false} RunFromReports(env: Env, test: Dataset, s: LoopState, k: nat)
    requires Aligned(test) && k <= 5
    requires |s.feedbackX| == |s.feedbackY|
    requires RunFrom(env, test, s, k).Continue?
    ensures
      var t := RunFrom(env, test, s, k).state;
      |t.reports| == |s.reports| + 5 - k && t.reports[..|s.reports|] == s.reports &&
      (forall i :: |s.reports| <= i < |t.reports| ==> t.reports[i].iteration == k + i - |s.reports|) &&
      |t.feedbackX| == |t.feedbackY|
    decreases 5 - k
  {
    if k < 5 {
      var u := Iteration(env, test, s, k).state;
      assert RunFrom(env, test, s, k) == RunFrom(env, test, u, k + 1);
      IterationReport(env, test, s, k);
      IterationKeepsBufferAligned(env, test, s, k);
      RunFromReports(env, test, u, k + 1);
      var t := RunFrom(env, test, u, k + 1).state;
      assert t.reports[..|s.reports|] == u.reports[..|s.reports|];
      forall i | |s.reports| <= i < |t.reports| ensures t.reports[i].iteration == k + i - |s.reports| {
        if i == |s.reports| {
          assert t.reports[i] == t.reports[..|u.reports|][i] == u.reports[i];
        }
      }
    }
  }

  /** A run that completes prints exactly five reports, numbered 0 to 4. */
  lemma RunFiveReports(env: Env, files: map<string, Option<Classifier>>)
    requires Aligned(TestSet(env))
    requires Run(env, files).Continue?
    ensures |Run(env, files).state.reports| == 5
    ensures forall i :: 0 <= i < 5 ==> Run(env, files).state.reports[i].iteration == i
    ensures |Run(env, files).state.feedbackX| == |Run(env, files).state.feedbackY|
  {
    var s0 := LoopState(Bootstrap(env, ModelState(None, files)), [], [], []);
    var t := RunFrom(env, TestSet(env), s0, 0).state;
    assert Run(env, files).state == t;
    RunFromReports(env, TestSet(env), s0, 0);
    assert |t.reports| == 5;
    forall i | 0 <= i < 5 ensures t.reports[i].iteration == i {
      assert |s0.reports| <= i < |t.reports|;
    }
  }

  /** The environment in which nothing the model can raise is raised: the
      test set is non-empty, its rows are as wide as the canonical rows, that
      width is positive, labels match rows, and the batch size is at least
      1. */
  predicate WellFormed(env: Env) {
    var test := TestSet(env);
    Aligned(test) && |test.X| > 0 && Canonical(env).width > 0 && env.config.retrainBatchSize >= 1 &&
    forall i :: 0 <= i < |test.X| ==> |test.X[i]| == Canonical(env).width
  }

  /** Between iterations: a classifier is stored, and every buffered row is
      as wide as the canonical rows. */
  predicate Healthy(env: Env, s: LoopState) {
    ModelPath in s.model.files && s.model.files[ModelPath].Some? &&
    forall i :: 0 <= i < |s.feedbackX| ==> |s.feedbackX[i]| == Canonical(env).width
  }

  /** In a well-formed environment an iteration that starts healthy
      completes and ends healthy: the stored model can always predict, and
      the buffer handed to retrain is non-empty and of the right width. */
  lemma IterationCompletes(env: Env, s: LoopState, k: nat)
    requires WellFormed(env) && Healthy(env, s)
    ensures Iteration(env, TestSet(env), s, k).Continue?
    ensures Healthy(env, Iteration(env, TestSet(env), s, k).state)
  {
    var test := TestSet(env);
    var m := Loaded(s.model, ModelPath);
    assert m.held.Some?;
    var u := Collect(env, test, s, m, k);
    CollectAppends(env, test, s, m, k);
    WidthKept(s.feedbackX, u.feedbackX, test.X, Indices(Keep(env, test, m.held.value)), Canonical(env).width);
    assert Iteration(env, test, s, k) == RetrainStep(env, u);
    if |u.feedbackX| >= env.config.retrainBatchSize {
      CombineSucceeds(Canonical(env), u.feedbackX, u.feedbackY);
    }
  }

  /** Appending rows of width w to rows of width w leaves rows of width w. */
  lemma WidthKept(before: seq<Row>, after: seq<Row>, xs: seq<Row>, idx: seq<int>, w: nat)
    requires AppendsAt(before, after, xs, idx)
    requires forall i :: 0 <= i < |before| ==> |before[i]| == w
    requires forall i :: 0 <= i < |xs| ==> |xs[i]| == w
    ensures forall i :: 0 <= i < |after| ==> |after[i]| == w
  {
    forall i | 0 <= i < |after| ensures |after[i]| == w {
      if i < |before| {
        assert after[i] == after[..|before|][i];
      } else {
        assert after[i] == xs[idx[i - |before|]];
      }
    }
  }

  lemma {:induction false} RunFromCompletes(env: Env, s: LoopState, k: nat)
    requires WellFormed(env) && Healthy(env, s) && k <= 5
    ensures RunFrom(env, TestSet(env), s, k).Continue?
    decreases 5 - k
  {
    if k < 5 {
      IterationCompletes(env, s, k);
      RunFromCompletes(env, Iteration(env, TestSet(env), s, k).state, k + 1);
    }
  }

  /** In a well-formed environment, starting from a disk that holds a
      classifier at the model path or nothing there, the run raises nothing
      and prints its five reports. */
  lemma RunCompletes(env: Env, files: map<string, Option<Classifier>>)
    requires WellFormed(env)
    requires ModelPath in files ==> files[ModelPath].Some?
    ensures Run(env, files).Continue?
    ensures |Run(env, files).state.reports| == 5
  {
    var s := LoopState(Bootstrap(env, ModelState(None, files)), [], [], []);
    RunFromCompletes(env, s, 0);
    RunFiveReports(env, files);
  }

  /** The inner loop: walk the test samples in order and append each one
      whose quality flag is false or whose prediction is wrong, with its true
      label. */
  method CollectFeedback(
    test: Dataset,
    quality: seq<bool>,
    predictions: seq<Label>,
    feedbackX: seq<Row>,
    feedbackY: seq<Label>)
    returns (newX: seq<Row>, newY: seq<Label>)
    requires Aligned(test) && |quality| == |predictions| == |test.X|
    ensures newX == feedbackX + Picked(test.X, Flags(quality, predictions, test.y))
    ensures newY == feedbackY + Picked(test.y, Flags(quality, predictions, test.y))
  {
    ghost var keep := Flags(quality, predictions, test.y);
    newX, newY := feedbackX, feedbackY;
    var i := 0;
    while i < |test.X|
      invariant 0 <= i <= |test.X|
      invariant newX == feedbackX + Picked(test.X[..i], keep[..i])
      invariant newY == feedbackY + Picked(test.y[..i], keep[..i])
    {
      ghost var (oldX, oldY) := (newX, newY);
      if !quality[i] || predictions[i] != test.y[i] {
        newX := newX + [test.X[i]];
        newY := newY + [test.y[i]];
      }
      AppendMarked(feedbackX, test.X, keep, i, oldX, newX);
      AppendMarked(feedbackY, test.y, keep, i, oldY, newY);
      i := i + 1;
    }
    assert test.X[..|test.X|] == test.X && test.y[..|test.y|] == test.y && keep[..|keep|] == keep;
  }

  /** One step of the inner loop: appending entry i when it is marked, and
      nothing otherwise, extends the picks of the first i positions to the
      picks of the first i + 1. */
  lemma AppendMarked<T>(acc: seq<T>, xs: seq<T>, keep: seq<bool>, i: nat, before: seq<T>, after: seq<T>)
    requires |xs| == |keep| && i < |xs|
    requires before == acc + Picked(xs[..i], keep[..i])
    requires after == if keep[i] then before + [xs[i]] else before
    ensures after == acc + Picked(xs[..i + 1], keep[..i + 1])
  {
    PickedSnoc(xs, keep, i);
    if !keep[i] {
      assert Picked(xs[..i], keep[..i]) + [] == Picked(xs[..i], keep[..i]);
    }
  }

  /** One pass of the outer loop on the objects: load, predict, evaluate,
      collect, report, and retrain-and-reset when the buffer is full
      enough. It ends in the state Iteration describes, and raises exactly
      when Iteration aborts. */
  method RunIteration(
    ghost env: Env,
    log2: real -> real,
    baseModel: BaseModel,
    critic: Critic,
    retrainer: Retrainer,
    test: Dataset,
    feedbackX: seq<Row>,
    feedbackY: seq<Label>,
    reports: seq<Report>,
    iteration: nat)
    returns (newX: seq<Row>, newY: seq<Label>, newReports: seq<Report>, fault: Option<Fault>)
    requires Aligned(test)
    requires env.config == baseModel.config && env.config == retrainer.config && critic == NewCritic(env.config)
    requires env.learner == baseModel.learner && env.sampler == baseModel.sampler && env.log2 == log2
    requires baseModel.modelPath == ModelPath
    modifies baseModel, baseModel.disk
    ensures
      var step := Iteration(env, test, LoopState(old(baseModel.State()), feedbackX, feedbackY, reports), iteration);
      LoopState(baseModel.State(), newX, newY, newReports) == step.state &&
      (step.Continue? <==> fault == None) &&
      (step.Abort? ==> fault == Some(step.fault))
  {
    ghost var s := LoopState(baseModel.State(), feedbackX, feedbackY, reports);
    baseModel.Load();
    ghost var m := baseModel.State();
    var predictions := baseModel.Predict(test.X);
    if predictions.Failure? {
      return feedbackX, feedbackY, reports, Some(NoModel);
    }
    var proba := baseModel.PredictProba(test.X);
    var quality := Evaluate(log2, critic, proba.value);
    assert Flags(quality, predictions.value, test.y) == Keep(env, test, m.held.value);
    newX, newY := CollectFeedback(test, quality, predictions.value, feedbackX, feedbackY);
    newReports := reports + [Report(iteration, Accuracy(predictions.value, test.y), |newX|)];
    ghost var u := LoopState(m, newX, newY, newReports);
    assert u == Collect(env, test, s, m, iteration);
    if |newX| >= retrainer.config.retrainBatchSize {
      var outcome := retrainer.Retrain(baseModel, newX, newY);
      if outcome.Fail? {
        return newX, newY, newReports, Some(outcome.error);
      }
      newX, newY := [], [];
    }
    fault := None;
  }

  /** The script. The disk is the only state that outlives it; it returns
      the reports it printed and the fault it raised, if any. */
  method RunFeedbackLoop(
    config: Config,
    learner: Learner,
    log2: real -> real,
    sampler: DataConfig -> Dataset,
    split: Dataset -> Dataset,
    disk: Disk)
    returns (reports: seq<Report>, fault: Option<Fault>)
    requires Aligned(split(sampler(config.data)))
    modifies disk
    ensures
      var env := Env(config, learner, log2, sampler, split);
      match Run(env, old(disk.files))
      case Continue(t) => fault == None && reports == t.reports && disk.files == t.model.files
      case Abort(t, e) => fault == Some(e) && reports == t.reports && disk.files == t.model.files
  {
    ghost var env := Env(config, learner, log2, sampler, split);
    var baseModel := new BaseModel(config, learner, sampler, disk);
    var critic := NewCritic(config);
    var retrainer := new Retrainer(config);

    if baseModel.modelPath !in disk.files {
      var data := baseModel.GenerateData();
      baseModel.Train(data.X, data.y);
      baseModel.Save();
    }
    ghost var start := LoopState(baseModel.State(), [], [], []);
    assert start.model == Bootstrap(env, ModelState(None, old(disk.files)));

    var data := baseModel.GenerateData();
    var test := split(data);
    assert RunFrom(env, test, start, 0) == Run(env, old(disk.files));
    var feedbackX: seq<Row> := [];
    var feedbackY: seq<Label> := [];
    reports := [];
    var iteration := 0;
    while iteration < 5
      invariant 0 <= iteration <= 5
      invariant baseModel.disk == disk && fresh(baseModel)
      invariant RunFrom(env, test, LoopState(baseModel.State(), feedbackX, feedbackY, reports), iteration)
        == Run(env, old(disk.files))
    {
      ghost var s := LoopState(baseModel.State(), feedbackX, feedbackY, reports);
      ghost var step := Iteration(env, test, s, iteration);
      feedbackX, feedbackY, reports, fault :=
        RunIteration(env, log2, baseModel, critic, retrainer, test, feedbackX, feedbackY, reports, iteration);
      if fault.Some? {
        assert RunFrom(env, test, s, iteration) == Abort(step.state, step.fault);
        return;
      }
      assert RunFrom(env, test, s, iteration) == RunFrom(env, test, step.state, iteration + 1);
      iteration := iteration + 1;
    }
    fault := None;
  }
}
