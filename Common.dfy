/** Optional values, the widget's failure kinds and the result types that carry them. */
module Common {

  /** A value that may be absent: JavaScript's `undefined` (or `NaN` for a parsed number). */
  datatype Option<+T> = None | Some(value: T)

  /** Each failure stands for an exception the source would throw, or for an input the model
      does not represent (see UnsupportedViewBox). */
  datatype Error =
    | NotCalibrated                 // `dimensions` read before any background calibration
    | NoViewport                    // `zoomInfo.viewBox.current` read before an SVG background
    | NoSuchMode                    // `state.mode` names no registered mode
    | CannotReplay(mode: string)    // a shape whose mode is unknown or has no `draw`
    | MissingImageSize              // raster background without a loaded `originalImage`
    | UnsupportedViewBox            // a viewBox that is not four numbers (NaN is not modelled)

  datatype Result<+T> = Ok(value: T) | Err(error: Error)

  /** The outcome of an operation that returns nothing. */
  datatype Status = Done | Failed(error: Error)
}
