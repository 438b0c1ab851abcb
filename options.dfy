/** The options both examples take (`ProductSearchOptions` and
    `PredictionOptions` have the same three optional fields) and the guard
    each example runs before anything else. */
module Options {
  import opened Wrappers
  import opened Strings
  import opened Client

  /** `{ datasetId?, apiKey?, serverUrl? }`; the default argument `{}` is
      `NoOptions`. */
  datatype RunOptions = RunOptions(datasetId: Option<string>, apiKey: Option<string>, serverUrl: Option<string>)

  const NoOptions := RunOptions(None, None, None)

  const MissingFieldsMessage := "Missing required fields. Please provide them in the input fields above."

  /** Every required field is present and not the empty string. */
  predicate HasRequiredFields(options: RunOptions)
  {
    options.datasetId.Some? && options.datasetId.value != "" &&
    options.apiKey.Some? && options.apiKey.value != "" &&
    options.serverUrl.Some? && options.serverUrl.value != ""
  }

  /** The guard at the start of each example: it yields the three values,
      or the fixed message when any of them is falsy. */
  function ValidateOptions(options: RunOptions): (r: Result<Credentials, string>)
    ensures r.Failure? <==> !HasRequiredFields(options)
    ensures r.Failure? ==> r.error == MissingFieldsMessage
    ensures r.Success? ==> r.value.datasetId == options.datasetId.value &&
                           r.value.apiKey == options.apiKey.value &&
                           r.value.serverUrl == options.serverUrl.value
    ensures r.Success? ==> r.value.datasetId != "" && r.value.apiKey != "" && r.value.serverUrl != ""
  {
    if !IsNonEmpty(options.datasetId) || !IsNonEmpty(options.apiKey) || !IsNonEmpty(options.serverUrl) then
      Failure(MissingFieldsMessage)
    else
      Success(Credentials(options.datasetId.value, options.apiKey.value, options.serverUrl.value))
  }

  /** The default `{}` argument, and any single empty field, fail the guard. */
  lemma MissingFieldCases(d: Option<string>, k: Option<string>, u: Option<string>)
    ensures ValidateOptions(NoOptions) == Failure(MissingFieldsMessage)
    ensures ValidateOptions(RunOptions(Some(""), k, u)) == Failure(MissingFieldsMessage)
    ensures ValidateOptions(RunOptions(d, Some(""), u)) == Failure(MissingFieldsMessage)
    ensures ValidateOptions(RunOptions(d, k, Some(""))) == Failure(MissingFieldsMessage)
  {
  }
}
