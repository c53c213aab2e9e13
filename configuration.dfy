/** The configuration record that every component reads from config/config.yaml.
    It is loaded once and never changed, so it is an immutable value here. */
module Configuration {

  /** The `data` section: the arguments of the synthetic data generator. */
  datatype DataConfig = DataConfig(nSamples: int, nFeatures: int, nClasses: int, randomState: int)

  /** The `training` section: the arguments of the LogisticRegression constructor. */
  datatype TrainingConfig = TrainingConfig(maxIter: int, randomState: int)

  /** The whole file: `data`, `training`, `model.critic_threshold` and
      `feedback.retrain_batch_size`. */
  datatype Config = Config(
    data: DataConfig,
    training: TrainingConfig,
    criticThreshold: real,
    retrainBatchSize: int)
}
