/** The state machine of models/base_model.py: the held classifier
    (`self.model`, None until trained or loaded) and the pickled artifact at
    the fixed path models/base_model.pkl.

    scikit-learn is opaque. A classifier is the record of what it was built
    from (its constructor arguments and the data it was fitted on), and its
    predict and predict_proba behaviour is a pair of function values, the
    `Learner`. The file system is a map from paths to what was pickled
    there. */
module BaseModels {
  import opened Wrappers
  import opened Configuration

  type Row = seq<real>
  type Label = int

  /** A feature matrix of `width` columns with its label vector. The width is
      kept apart from the rows because a numpy array with no rows still has
      one. */
  datatype Dataset = Dataset(X: seq<Row>, y: seq<Label>, width: nat)

  /** Every row has the matrix's width. */
  predicate Rectangular(d: Dataset) {
    forall i :: 0 <= i < |d.X| ==> |d.X[i]| == d.width
  }

  /** Rows and labels pair up one to one. */
  predicate Aligned(d: Dataset) {
    |d.X| == |d.y|
  }

  /** What `self.model` holds once trained: a LogisticRegression built with
      the training section of the configuration and fitted on X and y. */
  datatype Classifier = LogisticRegression(maxIter: int, randomState: int, X: seq<Row>, y: seq<Label>)

  /** The fitted model's predict and predict_proba on a single row. */
  datatype Learner = Learner(predict: (Classifier, Row) -> Label, predictProba: (Classifier, Row) -> seq<real>)

  /** How a step of the pipeline fails: a method called on `self.model` while
      it is None, or np.vstack on blocks of different widths. */
  datatype Fault = NoModel | ShapeMismatch

  /** The storage location, the same for every instance. */
  const ModelPath: string := "models/base_model.pkl"

  /** The held classifier and the contents of the file system. */
  datatype ModelState = ModelState(held: Option<Classifier>, files: map<string, Option<Classifier>>)

  /** A new LogisticRegression fitted on X and y. */
  function Fit(config: Config, X: seq<Row>, y: seq<Label>): (c: Classifier)
    ensures c.X == X && c.y == y
    ensures c.maxIter == config.training.maxIter && c.randomState == config.training.randomState
  {
    LogisticRegression(config.training.maxIter, config.training.randomState, X, y)
  }

  /** `train`: the held classifier is replaced by a fresh fit. */
  function Trained(s: ModelState, config: Config, X: seq<Row>, y: seq<Label>): ModelState
  {
    s.(held := Some(Fit(config, X, y)))
  }

  /** `save`: the held classifier, None included, is pickled over whatever
      the path held. */
  function Saved(s: ModelState, path: string): ModelState
  {
    s.(files := s.files[path := s.held])
  }

  /** `load`: the artifact replaces the held classifier when the path exists;
      otherwise nothing changes. */
  function Loaded(s: ModelState, path: string): ModelState
  {
    if path in s.files then s.(held := s.files[path]) else s
  }

  /** `predict`: fails while no classifier is held; otherwise one label per
      row, each a function of that row alone. */
  function Predictions(learner: Learner, held: Option<Classifier>, X: seq<Row>): (r: Result<seq<Label>, Fault>)
    ensures r.Failure? <==> held.None?
    ensures r.Failure? ==> r.error == NoModel
    ensures r.Success? ==> |r.value| == |X|
    ensures r.Success? ==> forall i :: 0 <= i < |X| ==> r.value[i] == learner.predict(held.value, X[i])
  {
    if held.None? then Failure(NoModel)
    else Success(seq(|X|, i requires 0 <= i < |X| => learner.predict(held.value, X[i])))
  }

  /** `predict_proba`: fails while no classifier is held; otherwise one row of
      class probabilities per input row. */
  function Probabilities(learner: Learner, held: Option<Classifier>, X: seq<Row>): (r: Result<seq<seq<real>>, Fault>)
    ensures r.Failure? <==> held.None?
    ensures r.Failure? ==> r.error == NoModel
    ensures r.Success? ==> |r.value| == |X|
    ensures r.Success? ==> forall i :: 0 <= i < |X| ==> r.value[i] == learner.predictProba(held.value, X[i])
  {
    if held.None? then Failure(NoModel)
    else Success(seq(|X|, i requires 0 <= i < |X| => learner.predictProba(held.value, X[i])))
  }

  /** After `train`, the held classifier is fitted on the given data alone:
      it is the same whatever was held or stored before. */
  lemma TrainForgetsPrevious(s: ModelState, t: ModelState, config: Config, X: seq<Row>, y: seq<Label>)
    ensures Trained(s, config, X, y).held == Trained(t, config, X, y).held
    ensures Trained(s, config, X, y).held.value.X == X && Trained(s, config, X, y).held.value.y == y
    ensures Trained(s, config, X, y).files == s.files
  {
  }

  /** `save` overwrites: the artifact is the held classifier, whatever was
      saved there before; the path exists afterwards, no other path is
      created, and no other path changes. */
  lemma SaveOverwrites(s: ModelState, earlier: Option<Classifier>, path: string)
    ensures Saved(s, path).files.Keys == s.files.Keys + {path}
    ensures Saved(s, path).files[path] == s.held
    ensures Saved(s.(files := s.files[path := earlier]), path) == Saved(s, path)
    ensures forall p :: p in s.files && p != path ==> p in Saved(s, path).files && Saved(s, path).files[p] == s.files[p]
  {
  }

  /** `load` without an artifact leaves everything as it was. */
  lemma LoadWithoutArtifact(s: ModelState, path: string)
    requires path !in s.files
    ensures Loaded(s, path) == s
  {
  }

  /** `load` after `save` restores exactly the classifier that was saved, even
      after the held one has since been replaced (by another instance, or
      by a later `train`). */
  lemma LoadRestoresSaved(s: ModelState, path: string, since: Option<Classifier>)
    ensures Loaded(Saved(s, path).(held := since), path) == Saved(s, path)
    ensures Loaded(Saved(s, path).(held := since), path).held == s.held
  {
  }

  /** Predictions made by a classifier that went through save and load are
      the ones it made before. */
  lemma SaveLoadPredictions(learner: Learner, s: ModelState, path: string, since: Option<Classifier>, X: seq<Row>)
    ensures Predictions(learner, Loaded(Saved(s, path).(held := since), path).held, X) == Predictions(learner, s.held, X)
  {
    LoadRestoresSaved(s, path, since);
  }

  /** The disk: every path that exists and what was pickled there. */
  class Disk {
    var files: map<string, Option<Classifier>>

    constructor (files: map<string, Option<Classifier>>)
      ensures this.files == files
    {
      this.files := files;
    }
  }

  /** The BaseModel object. */
  class BaseModel {
    const config: Config
    const modelPath: string
    const learner: Learner
    const sampler: DataConfig -> Dataset
    const disk: Disk
    var model: Option<Classifier>

    /** `__init__`: no classifier yet, and the fixed storage path. */
    constructor (config: Config, learner: Learner, sampler: DataConfig -> Dataset, disk: Disk)
      ensures this.config == config && this.learner == learner && this.sampler == sampler && this.disk == disk
      ensures model == None
      ensures modelPath == ModelPath
    {
      this.config := config;
      this.learner := learner;
      this.sampler := sampler;
      this.disk := disk;
      this.model := None;
      this.modelPath := ModelPath;
    }

    /** The abstract state: the held classifier and the disk. */
    ghost function State(): ModelState
      reads this, disk
    {
      ModelState(model, disk.files)
    }

    /** `generate_data`: the data section of the configuration alone decides
        the dataset, so every call returns the same one. */
    method GenerateData() returns (data: Dataset)
      ensures data == sampler(config.data)
    {
      data := sampler(config.data);
    }

    /** `train`. */
    method Train(X: seq<Row>, y: seq<Label>)
      modifies this
      ensures State() == Trained(old(State()), config, X, y)
    {
      model := Some(Fit(config, X, y));
    }

    /** `predict`. */
    method Predict(X: seq<Row>) returns (r: Result<seq<Label>, Fault>)
      ensures r == Predictions(learner, model, X)
    {
      if model.None? {
        return Failure(NoModel);
      }
      var c := model.value;
      r := Success(seq(|X|, i requires 0 <= i < |X| => learner.predict(c, X[i])));
    }

    /** `predict_proba`. */
    method PredictProba(X: seq<Row>) returns (r: Result<seq<seq<real>>, Fault>)
      ensures r == Probabilities(learner, model, X)
    {
      if model.None? {
        return Failure(NoModel);
      }
      var c := model.value;
      r := Success(seq(|X|, i requires 0 <= i < |X| => learner.predictProba(c, X[i])));
    }

    /** `save`. */
    method Save()
      modifies disk
      ensures State() == Saved(old(State()), modelPath)
    {
      disk.files := disk.files[modelPath := model];
    }

    /** `load`. */
    method Load()
      modifies this
      ensures State() == Loaded(old(State()), modelPath)
    {
      if modelPath in disk.files {
        model := disk.files[modelPath];
      }
    }
  }

  /** A fresh instance can neither predict nor give probabilities until it
      trains or loads. */
  method FreshModelCannotPredict(config: Config, learner: Learner, sampler: DataConfig -> Dataset, disk: Disk, X: seq<Row>)
    returns (p: Result<seq<Label>, Fault>, q: Result<seq<seq<real>>, Fault>)
    ensures p == Failure(NoModel) && q == Failure(NoModel)
  {
    var m := new BaseModel(config, learner, sampler, disk);
    p := m.Predict(X);
    q := m.PredictProba(X);
  }
}
