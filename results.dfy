/** Optional values, results and the errors the server can raise. */
module Results {

  datatype Option<+T> = None | Some(value: T)

  /** The exceptions the modelled server code raises, one constructor each. */
  datatype Error =
    | NoData(symbol: string)           // ValueError "No data found for ..." when neither cache nor remote has rows
    | UnreadableCache(symbol: string)  // pandas cannot parse an empty cache file
    | ScalerMissing(path: string)      // opening the scaler file of an existing model fails
    | NotEnoughData(symbol: string)    // ValueError "Not enough data for ..." before a prediction

  datatype Result<+T> = Ok(value: T) | Err(error: Error)
}
