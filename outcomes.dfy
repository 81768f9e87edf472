/** The ways one analysis request can end without a report, and the result
    types that carry them.
    - InvalidImage: the uploaded picture is empty or has neither three nor four channels,
      so the colour conversion of preprocess_image fails.
    - ClassificationFailure: resizing, tensor conversion or inference raised.
    - UnrecognizedLabel: the classifier's top-1 class name is neither of the two
      known ones, so no diagnosis message is bound and its first use raises.
    - ReportGenerationFailure: drawing or writing the report raised, after the
      message was already shown. */
module Outcomes {

  datatype Failure = InvalidImage | ClassificationFailure | UnrecognizedLabel(className: string)
                 | ReportGenerationFailure

  datatype Result<T> = Ok(value: T) | Err(error: Failure)

  datatype Option<T> = None | Some(value: T)
}
