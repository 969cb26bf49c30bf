/** The numeric settings of the prediction server. */
module Config {

  /** Days in one input window of the sequence model. */
  const SEQ_LENGTH: nat := 60

  /** Most recent days used to fit (and later to apply) a symbol's scaler. */
  const NORMALIZE_DAYS: nat := 500

  /** Epochs when a model is trained from scratch. */
  const EPOCHS_NEW: nat := 100

  /** Epochs when an existing model is fine-tuned. */
  const EPOCHS_UPDATE: nat := 5

  /** The trailing period requested from the quote source when a symbol has no cache. */
  const DEFAULT_PERIOD: string := "5y"
}
