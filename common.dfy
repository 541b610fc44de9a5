/** Shared vocabulary: optional values, results carrying the Python exception that the
    source would raise, and an RGB triple. */
module Common {

  datatype Option<+T> = None | Some(value: T)

  /** The exceptions the source raises, named after their cause. */
  datatype Error =
    | NotDivisible        // ValueError: shape not divisible by the rebin factor
    | BadFactor           // ValueError: boost factor below one
    | BadShape            // ValueError from numpy reshape or padding (negative factor)
    | ZeroDivision        // ZeroDivisionError
    | NanStep             // ValueError: a grid step of 0/0 is NaN, and its length cannot be rounded
    | EmptyImage          // ValueError: reduction over a zero-size array
    | ShapeMismatch       // ValueError: operands that do not have the same shape
    | NonFiniteFactor     // numpy divides by a zero maximum and stores inf/NaN
    | NoFirstMask         // TypeError: item assignment on the mask None
    | MaskOutOfBounds     // IndexError: a later mask marks a pixel outside the first mask
    | MissingExptime      // TypeError: division involving an exposure time of None
    | MissingKey(key: string)           // KeyError
    | MissingScale                      // TypeError: None * array
    | ShortScales                       // IndexError: fewer than three scales
    | BadCampaign(campaign: string)     // ValueError: campaign not in the table
    | UnsupportedSystem(system: string) // ValueError: batch system other than wq and lsf
    | UndefinedName(name: string)       // NameError
    | MissingAttribute(name: string)    // AttributeError

  datatype Result<+T> = Ok(value: T) | Err(error: Error)

  /** One value per output colour channel. */
  datatype Rgb<+T> = Rgb(r: T, g: T, b: T)
}
