/**
 * What a payment-creation call gives back: the success record, the API's
 * error record with its human-readable text, and the rule that decides which
 * of the two a response body is.
 */
module Responses {
  import opened Wrappers

  /** A raw response body. */
  type Bytes = seq<bv8>

  /** Why a body could not be decoded into a given shape; its text is the decoder's. */
  datatype DecodeError = DecodeError(reason: string)

  /** Why the request could not be sent or its body read; its text is the transport's. */
  datatype TransportError = TransportError(reason: string)

  /** A point in time as the API writes it; never inspected. */
  datatype Timestamp = Timestamp(text: string)

  datatype ResponseAmount = ResponseAmount(value: string, currency: string)

  datatype ResponseConfirmation = ResponseConfirmation(kind: string, confirmationURL: string)

  datatype Recipient = Recipient(accountID: string, gatewayID: string)

  /** The success shape of a payment-creation response. */
  datatype PaymentResponse = PaymentResponse(
    id: string,
    status: string,
    paid: bool,
    amount: ResponseAmount,
    confirmation: ResponseConfirmation,
    createdAt: Timestamp,
    description: string,
    recipient: Recipient,
    refundable: bool,
    test: bool)

  const ErrorPrefix: string := "api returned error: "
  const ParameterPrefix: string := " (in parameter "
  const ParameterSuffix: string := ")"

  /** The error shape; `kind` is the discriminant, the literal "error" on failure. */
  datatype ErrorResponse = ErrorResponse(
    kind: string,
    id: string,
    code: string,
    description: string,
    parameter: string)
  {
    /** The error's text: the description and the offending parameter, in a fixed frame. */
    function Error(): (m: string)
      ensures |m| == |ErrorPrefix| + |description| + |ParameterPrefix| + |parameter| + |ParameterSuffix|
      ensures m[..|ErrorPrefix|] == ErrorPrefix
      ensures m[|ErrorPrefix|..|ErrorPrefix| + |description|] == description
      ensures m[|ErrorPrefix| + |description|..|ErrorPrefix| + |description| + |ParameterPrefix|] == ParameterPrefix
      ensures m[|m| - |ParameterSuffix| - |parameter|..|m| - |ParameterSuffix|] == parameter
      ensures m[|m| - |ParameterSuffix|..] == ParameterSuffix
    {
      ErrorPrefix + description + ParameterPrefix + parameter + ParameterSuffix
    }
  }

  /** Every way a payment-creation call can fail. */
  datatype Failure =
    | TransportFailure(transport: TransportError)
    | DecodeFailure(decode: DecodeError)
    | ApiFailure(api: ErrorResponse)

  /**
   * The decision made on a response body: decode it as an error record first
   * and stop on a decoding failure; a record whose discriminant is "error" is
   * the failure; anything else is decoded again as the success shape.
   */
  function Route(raw: Bytes,
                 decodeError: Bytes -> Result<ErrorResponse, DecodeError>,
                 decodeSuccess: Bytes -> Result<PaymentResponse, DecodeError>)
    : (r: Result<PaymentResponse, Failure>)
    ensures (r.Failure? && r.error.ApiFailure?) <==>
              (decodeError(raw).Success? && decodeError(raw).value.kind == "error")
    ensures r.Failure? && r.error.ApiFailure? ==> r.error.api == decodeError(raw).value
    ensures r.Success? <==>
              (decodeError(raw).Success? && decodeError(raw).value.kind != "error" &&
               decodeSuccess(raw).Success?)
    ensures r.Success? ==> r.value == decodeSuccess(raw).value
    ensures r.Failure? && r.error.DecodeFailure? ==>
              (decodeError(raw).Failure? && r.error.decode == decodeError(raw).error) ||
              (decodeError(raw).Success? && decodeError(raw).value.kind != "error" &&
               decodeSuccess(raw).Failure? && r.error.decode == decodeSuccess(raw).error)
    ensures !(r.Failure? && r.error.TransportFailure?)
  {
    match decodeError(raw)
    case Failure(e) => Failure(DecodeFailure(e))
    case Success(probe) =>
      if probe.kind == "error" then Failure(ApiFailure(probe))
      else match decodeSuccess(raw)
        case Failure(e) => Failure(DecodeFailure(e))
        case Success(resp) => Success(resp)
  }

  /** A failed error-shape decode is reported as it is, whatever the success decoder would say. */
  lemma RouteProbeFailureWins(raw: Bytes,
                              decodeError: Bytes -> Result<ErrorResponse, DecodeError>,
                              decodeSuccess: Bytes -> Result<PaymentResponse, DecodeError>)
    requires decodeError(raw).Failure?
    ensures Route(raw, decodeError, decodeSuccess) == Failure(DecodeFailure(decodeError(raw).error))
  {
  }

  /**
   * Once the discriminant says "error", the success shape is never consulted:
   * the outcome is the same for any success decoder.
   */
  lemma RouteApiErrorIgnoresSuccessDecoder(raw: Bytes,
                                           decodeError: Bytes -> Result<ErrorResponse, DecodeError>,
                                           decodeSuccess: Bytes -> Result<PaymentResponse, DecodeError>,
                                           other: Bytes -> Result<PaymentResponse, DecodeError>)
    requires decodeError(raw).Success? && decodeError(raw).value.kind == "error"
    ensures Route(raw, decodeError, decodeSuccess) == Route(raw, decodeError, other)
    ensures Route(raw, decodeError, decodeSuccess) == Failure(ApiFailure(decodeError(raw).value))
  {
  }

  /** The error text depends on the description and the parameter only. */
  lemma ErrorIgnoresKindIdCode(e: ErrorResponse, kind: string, id: string, code: string)
    ensures e.(kind := kind, id := id, code := code).Error() == e.Error()
  {
  }

  /**
   * Knowing how long the description is, the text gives back both the
   * description and the parameter.
   */
  lemma ErrorDeterminesFields(e: ErrorResponse, f: ErrorResponse)
    requires e.Error() == f.Error()
    requires |e.description| == |f.description|
    ensures e.description == f.description && e.parameter == f.parameter
  {
  }

  /**
   * Without that length the text is ambiguous: a description that itself
   * contains the parameter frame reads the same as a shorter description with
   * a longer parameter.
   */
  lemma ErrorTextAmbiguous(e: ErrorResponse, a: string, b: string, c: string)
    ensures e.(description := a + ParameterPrefix + b, parameter := c).Error() ==
            e.(description := a, parameter := b + ParameterPrefix + c).Error()
  {
  }

  /** The documented example: an error body surfaces as the failure with this exact text. */
  lemma RouteErrorExample(raw: Bytes,
                          decodeError: Bytes -> Result<ErrorResponse, DecodeError>,
                          decodeSuccess: Bytes -> Result<PaymentResponse, DecodeError>)
    requires decodeError(raw) ==
             Success(ErrorResponse("error", "x", "invalid_request", "bad field", "amount.value"))
    ensures Route(raw, decodeError, decodeSuccess).Failure?
    ensures Route(raw, decodeError, decodeSuccess).error.api.Error() ==
            "api returned error: bad field (in parameter amount.value)"
  {
    var e := ErrorResponse("error", "x", "invalid_request", "bad field", "amount.value");
    assert Route(raw, decodeError, decodeSuccess) == Failure(ApiFailure(e));
    assert ErrorPrefix + "bad field" + ParameterPrefix + "amount.value" + ParameterSuffix ==
           "api returned error: bad field (in parameter amount.value)";
  }
}
