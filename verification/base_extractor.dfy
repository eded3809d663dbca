// backend/etl/extractors/base_extractor.py: the template every extractor
// follows (check the source URL, fetch with retries, parse, validate). Every
// failure surfaces as an ExtractionError.

module BaseExtractor {
  import opened Common
  import opened Strings
  import opened JsonValue

  const DefaultTimeout: nat := 30
  const DefaultRetryCount: int := 3

  /**
   * What one successful HTTP GET brought back: the body decoded as text,
   * its length in bytes, and the JSON document it decodes to (None when
   * the body is not JSON).
   */
  datatype Payload = Payload(text: string, size: nat, json: Option<Json>)

  /** The step of `extract` at which an ExtractionError was raised. */
  datatype Stage = BadSource | FetchFailed | ParseFailed | ValidationFailed

  datatype Extracted<+T> = Extracted(value: T) | ExtractionError(stage: Stage)

  datatype FetchResult = Fetched(payload: Payload, attempts: nat) | FetchError(attempts: nat)

  /** `_validate_source`: a non-empty text starting with `http://` or `https://`. */
  function ValidateSource(source: string): (ok: bool)
    ensures ok ==> |source| >= 7
    ensures ok <==> StartsWith(source, "http://") || StartsWith(source, "https://")
  {
    if source == [] then false
    else StartsWith(source, "http://") || StartsWith(source, "https://")
  }

  /** The first attempt below `n` whose request succeeded. */
  function FirstSuccess(attempt: nat -> Option<Payload>, n: nat): (r: Option<nat>)
    ensures r.Some? ==> r.value < n && attempt(r.value).Some?
                        && forall j :: 0 <= j < r.value ==> attempt(j).None?
    ensures r.None? ==> forall j :: 0 <= j < n ==> attempt(j).None?
  {
    if n == 0 then None
    else
      var earlier := FirstSuccess(attempt, n - 1);
      if earlier.Some? then earlier
      else if attempt(n - 1).Some? then Some(n - 1)
      else None
  }

  /**
   * `_fetch_data`: up to `retryCount` requests; `attempt(i)` is the outcome
   * of request `i`, None for a RequestException (an HTTP error status
   * included). The first body wins. When every request fails, or when
   * `retryCount` is not positive, the fetch raises.
   */
  method FetchData(retryCount: int, attempt: nat -> Option<Payload>) returns (r: FetchResult)
    ensures r.Fetched? <==> FirstSuccess(attempt, Max(retryCount, 0)).Some?
    ensures r.Fetched? ==> r.attempts == FirstSuccess(attempt, Max(retryCount, 0)).value + 1
                           && attempt(r.attempts - 1) == Some(r.payload)
    ensures r.FetchError? ==> r.attempts == Max(retryCount, 0)
  {
    var i: nat := 0;
    while i < retryCount
      invariant i <= Max(retryCount, 0)
      invariant FirstSuccess(attempt, i).None?
    {
      var response := attempt(i);
      if response.Some? {
        return Fetched(response.value, i + 1);
      }
      i := i + 1;
    }
    return FetchError(i);
  }

  /** The outcome of the template for a given source, as a value. */
  function ExtractSpec<T>(source: string, retryCount: int, attempt: nat -> Option<Payload>,
                          parse: Payload -> Result<T>, validate: T -> bool): Extracted<T>
  {
    if !ValidateSource(source) then ExtractionError(BadSource)
    else
      var first := FirstSuccess(attempt, Max(retryCount, 0));
      if first.None? then ExtractionError(FetchFailed)
      else
        var parsed := parse(attempt(first.value).value);
        if parsed.Failed? then ExtractionError(ParseFailed)
        else if !validate(parsed.value) then ExtractionError(ValidationFailed)
        else Extracted(parsed.value)
  }

  /**
   * `extract`: an invalid source raises before any request is made;
   * otherwise the first fetched body is parsed and the parsed record must
   * pass `validate`.
   */
  method Extract<T>(source: string, retryCount: int, attempt: nat -> Option<Payload>,
                    parse: Payload -> Result<T>, validate: T -> bool)
    returns (r: Extracted<T>, requests: nat)
    ensures r == ExtractSpec(source, retryCount, attempt, parse, validate)
    ensures !ValidateSource(source) ==> requests == 0
    ensures r.ExtractionError? && r.stage == FetchFailed ==> requests == Max(retryCount, 0)
  {
    if !ValidateSource(source) {
      return ExtractionError(BadSource), 0;
    }
    var fetched := FetchData(retryCount, attempt);
    requests := fetched.attempts;
    if fetched.FetchError? {
      return ExtractionError(FetchFailed), requests;
    }
    var parsed := parse(fetched.payload);
    if parsed.Failed? {
      return ExtractionError(ParseFailed), requests;
    }
    if !validate(parsed.value) {
      return ExtractionError(ValidationFailed), requests;
    }
    return Extracted(parsed.value), requests;
  }

  /** Whatever `extract` returns passed validation and is the parse of a fetched body. */
  lemma ExtractedIsValidated<T>(source: string, retryCount: int, attempt: nat -> Option<Payload>,
                                parse: Payload -> Result<T>, validate: T -> bool)
    requires ExtractSpec(source, retryCount, attempt, parse, validate).Extracted?
    ensures var v := ExtractSpec(source, retryCount, attempt, parse, validate).value;
      validate(v) && ValidateSource(source)
      && exists i :: 0 <= i < retryCount && attempt(i).Some? && parse(attempt(i).value) == Ok(v)
  {
    var i := FirstSuccess(attempt, Max(retryCount, 0)).value;
    assert attempt(i).Some?;
  }

  /** A source that fails the check never reaches the network. */
  lemma BadSourceNeverFetches<T>(source: string, retryCount: int, attempt: nat -> Option<Payload>,
                                 parse: Payload -> Result<T>, validate: T -> bool)
    requires !StartsWith(source, "http://") && !StartsWith(source, "https://")
    ensures ExtractSpec(source, retryCount, attempt, parse, validate) == ExtractionError(BadSource)
  {
  }

  /** `validate` of the base class: the parsed dictionary exists and is not empty. */
  function DefaultValidate(data: Option<map<string, Json>>): (ok: bool)
    ensures ok <==> data.Some? && |data.value| > 0
  {
    data.Some? && |data.value| > 0
  }
}
