/** What may become of an effect on a store that can fail. */
module Effects {

  /** Applied and confirmed, not applied and reported as failed, or applied although an error is
      reported. */
  datatype Fault = Ok | Lost | Ambiguous
}
