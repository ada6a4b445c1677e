# goyookassa payment core in Dafny

A model of the payment package of the goyookassa client library for the
YooKassa payment API. It covers the parts of `payment/payment.go` that hold
logic:

- the two mutable records with fluent setters: `Kassa`, the merchant account
  whose shop ID and secret key sign requests, and `Payment`, which collects the
  idempotence key, amount, capture flag, confirmation and description;
- the `ConfirmationType` enumeration and its lowercase tokens;
- the request body that Go's JSON encoder produces from the struct tags
  (`json:"-"`, `omitempty`), as a tree of JSON values;
- the error text of `YooKassaErrorResponse`;
- the way `Do` turns a response body into exactly one of a success record and
  an error.

Files:

- `wrappers.dfy` (`Wrappers`): `Option` and `Result`.
- `json.dfy` (`Json`): JSON values, struct fields with their tags, the
  encoder `EncodeStruct` and its lemmas. `Keys` and `Lookup` read objects.
- `confirmations.dfy` (`Confirmations`): the scenarios, `String` and its
  inverse `Parse`.
- `responses.dfy` (`Responses`): the success and error shapes,
  `ErrorResponse.Error`, the failure kinds and `Route`, which is the decision
  at the end of `Do`.
- `payments.dfy` (`Payments`): the classes `Kassa` and `Payment`, the field
  tables of `Amount`, `Confirmation` and `Payment`, the `Body` function, the
  reference decoder `DecodeBody`, `NewRequest`, `Submit` and `Payment.Do`.

Things outside the program are parameters. `Do` takes three of them:

- `transport` receives the request that `NewRequest` builds and stands for
  sending it with `http.DefaultClient.Do` and reading the body with
  `io.ReadAll` (payment/payment.go:295-304), together with the error path of
  `http.NewRequest`, which cannot occur for the constant URL;
- `decodeError` stands for `json.Unmarshal` into the error shape;
- `decodeSuccess` stands for `json.Unmarshal` into the success shape.

The model follows the code:

- `capture` is omitted from the body when false, because of `omitempty` at
  payment/payment.go:46. It is not sent as an explicit `false`.
- A `Confirmation` always carries `enforce` and `return_url`, with no
  `omitempty`. Nothing requires a return URL for the redirect scenario.
- Nothing checks that an amount is non-negative.
- The 128-character limit on descriptions is documented in the source
  comments (payment/payment.go:56 and 273) but not enforced, so the model
  stores any description.

## Model

| member | source | states |
|---|---|---|
| Confirmations.OrdinalInjective | payment/payment.go:136-167 | the five scenarios are numbered 0 to 4 in declaration order; distinct scenarios have distinct numbers and distinct tokens |
| Confirmations.Ordinal | payment/payment.go:136-167 | the `iota` number of a scenario lies in 0..4, inside the token table; OrdinalInjective states that distinct scenarios get distinct numbers |
| Confirmations.String | payment/payment.go:169-171 | defined only for 0 <= c < 5, since other values index outside the table; the token is one of the five table entries and is non-empty lowercase letters and underscores |
| Confirmations.StringTable | payment/payment.go:138-171 | Embedded, External, MobileApplication, QR and Redirect render as "embedded", "external", "mobile_application", "qr" and "redirect" |
| Confirmations.StringInjective | payment/payment.go:169-171 | two scenario numbers with the same token are the same number |
| Confirmations.ParseString | payment/payment.go:169-171 | parsing a rendered token gives its number back; a token parses to c exactly when String(c) is that token |
| Confirmations.TokensDistinct | payment/payment.go:170 | the five tokens are pairwise different |
| Responses.ErrorResponse.Error | payment/payment.go:83-85 | the text is "api returned error: ", then the description, then " (in parameter ", then the parameter, then ")": each part is fixed at its position and the length is the sum of the parts |
| Responses.ErrorIgnoresKindIdCode | payment/payment.go:83-85 | the text does not depend on type, id or code |
| Responses.ErrorDeterminesFields | payment/payment.go:83-85 | two errors with the same text and same-length descriptions have the same description and parameter |
| Responses.ErrorTextAmbiguous | payment/payment.go:83-85 | without that length the text is ambiguous: a description `a + " (in parameter " + b` with parameter `c` gives the same text as description `a` with parameter `b + " (in parameter " + c`, for all a, b and c |
| Responses.Route | payment/payment.go:306-322 | an API error is returned iff the error-shape decode succeeds with type "error"; success is returned iff that decode succeeds, type is not "error" and the success decode succeeds, with that value; every decode failure is the failing decoder's own error |
| Responses.RouteProbeFailureWins | payment/payment.go:306-310 | when the error-shape decode fails, that decode error is the result, whatever the success decoder would return |
| Responses.RouteApiErrorIgnoresSuccessDecoder | payment/payment.go:312-314 | when the discriminant is "error", the result is that error record and is the same for every success decoder, so the success shape is never consulted |
| Responses.RouteErrorExample | payment/payment.go:306-314 | an error body with description "bad field" and parameter "amount.value" fails with the text "api returned error: bad field (in parameter amount.value)" |
| Json.EncodeStruct | payment/payment.go:25-58 | the encoder writes at most one member per field; EncodeStructMembers and EncodeStructAppend state which members appear and in what order |
| Json.EncodeStructMembers | payment/payment.go:25-58 | a member is in the encoded object iff it comes from a field with a tag that is not omitted as empty: the encoder neither invents nor drops keys |
| Json.EncodeStructAppend | payment/payment.go:25-58 | encoding a field list split in two gives the two encodings concatenated, so member order follows declaration order |
| Json.IgnoredFieldInvisible | payment/payment.go:26-37 | a `json:"-"` field adds nothing to the object, wherever it stands |
| Payments.Body | payment/payment.go:25-58 | the body that `json.Marshal` produces at payment/payment.go:281 from the tags is a JSON object; BodyMembers gives its exact members and BodyOnlyTaggedKeys its possible keys |
| Payments.AmountMembers | payment/payment.go:98-103 | the amount object is `value`, followed by `currency` only when the currency is non-empty |
| Payments.ConfirmationMembers | payment/payment.go:108-121 | the confirmation object always carries `type`, `enforce` and `return_url`, in that order |
| Payments.BodyMembers | payment/payment.go:25-58 | the encoder run over the payment's field table gives exactly the member list `amount`, then `capture` only when true, then `confirmation`, then `description` only when non-empty; neither the account nor the idempotence key appears |
| Payments.BodyOnlyTaggedKeys | payment/payment.go:25-58 | every key of the body is one of `amount`, `capture`, `confirmation` and `description`, the tagged fields; nothing of the account or the idempotence key can appear |
| Payments.BodyKeys | payment/payment.go:39-57 | `amount` and `confirmation` are always keys; `capture` is a key iff capture is true; `description` is a key iff it is non-empty; `amount.currency` is present iff non-empty; confirmation keys are exactly type, enforce, return_url |
| Payments.BodyIgnoresTransportFields | payment/payment.go:26-37 | changing the account or the idempotence key leaves the body unchanged |
| Payments.BodyLookups | payment/payment.go:39-57 | each body key holds its field's value, or is absent when omitempty drops the field |
| Payments.DecodeAmountRoundTrip | payment/payment.go:98-103 | an amount object reads back as the amount it was written from, an omitted currency reading back as "" |
| Payments.DecodeConfirmationRoundTrip | payment/payment.go:108-121 | a confirmation object reads back as the confirmation it was written from |
| Payments.DecodeFromLookups | payment/payment.go:39-57 | any object whose four keys hold what the body's keys hold reads back as the payment without account and idempotence key |
| Payments.DecodeBodyInvertsBody | payment/payment.go:25-58 | reading a body back gives the payment without its account and idempotence key; omitted keys read back as false and "" |
| Payments.BodyRoundTrip | payment/payment.go:25-58 | writing a body, reading it back and writing it again gives the identical body |
| Payments.RedirectConfirmationType | payment/payment.go:108-121 | a confirmation whose type is the Redirect token is written with "type" = "redirect" inside the body's `confirmation` |
| Payments.NewRequest | payment/payment.go:281-293 | the request is a POST to the endpoint plus "payments", signed with the account's credentials, with the idempotence key in the Idempotence-Key header and JSON content type; its body reads back as the payment minus account and key |
| Payments.Submit | payment/payment.go:280-322 | a transport failure is returned iff sending fails, carrying the transport's own error; otherwise the outcome is the routing of the response body; an API failure always carries type "error" |
| Payments.Kassa.constructor | payment/payment.go:212-215 | a new account has an empty shop ID and secret key |
| Payments.Kassa.SetShopID | payment/payment.go:217-221 | the shop ID becomes the argument, the secret key is unchanged, and the receiver itself is returned |
| Payments.Kassa.SetSecretKey | payment/payment.go:223-229 | the secret key becomes the argument, the shop ID is unchanged, and the receiver itself is returned |
| Payments.KassaBuilderEquivalence | payment/payment_test.go:13-56 | setting the shop ID and then the secret key through the chain gives the same account as assigning both fields directly |
| Payments.Payment.constructor | payment/payment.go:231-236 | a new payment is all zero: no account, empty strings, zero amount, no capture, empty confirmation |
| Payments.Payment.SetKassa | payment/payment.go:238-242 | the account reference itself is stored, not a copy; every other field is unchanged; the receiver is returned |
| Payments.Payment.SetIdempotenceKey | payment/payment.go:244-248 | only the idempotence key changes; the receiver is returned |
| Payments.Payment.SetAmount | payment/payment.go:250-259 | the whole amount is replaced by the given value and currency; nothing else changes; the receiver is returned |
| Payments.Payment.SetCapture | payment/payment.go:261-265 | only the capture flag changes; the receiver is returned |
| Payments.Payment.SetConfirmation | payment/payment.go:267-271 | only the confirmation changes; the receiver is returned |
| Payments.Payment.SetDescription | payment/payment.go:273-277 | only the description changes, stored as given with no length check; the receiver is returned |
| Payments.ChainedPayment | payment/payment.go:234-277 | chaining every setter on a new payment gives the same fields as a payment literal with those values |
| Payments.SharedKassa | payment/payment.go:238-242 | after the account is attached, a later change to the account shows in the credentials the payment's request is signed with |
| Payments.Payment.Do | payment/payment.go:280-323 | requires an attached account; exactly one of response and error is present, and it is the outcome of sending the request and routing the body; a transport failure is returned as it is |

## Left out

- `Kassa.ListPayments` (payment/payment.go:325-345) is not modelled. It is a
  GET request followed by a decode, with no decision logic; every failure
  turns into a nil list.
- Sending the request and reading the response (payment/payment.go:295-304)
  is the `transport` parameter of `Do`. `http.NewRequest` cannot fail on the
  constant URL, so its error path is folded into the transport failure.
- JSON bytes are not modelled. The body is a tree of values. `json.Marshal`
  of a payment cannot fail, so `Do` has no path for it. The two response
  decoders are parameters. Go's case-insensitive key matching is not
  modelled.
- `DecodeBody` is a reference decoder used to state the round trip. It
  matches keys exactly, and a missing key gives the zero value.
- Decimal arithmetic and its two-digit text form belong to the decimal
  library. `Decimal` is an opaque record.
- Timestamps are opaque. `List`, `Items`, `Method`, `Card` and `Metadata` are
  not modelled; they hold no logic.
- The endpoint URL and the header name are copied into constants. The test
  card numbers in consts/consts.go are not part of this model.
