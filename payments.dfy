/**
 * The payment-creation request: the merchant account holding the basic-auth
 * credentials, the payment being configured, the JSON body its struct tags
 * give, the request it is sent as, and the submission that routes the answer.
 */
module Payments {
  import opened Wrappers
  import opened Json
  import opened Responses
  import Confirmations

  /** The API's base URL and the header that carries the idempotence key. */
  const Endpoint: string := "https://api.yookassa.ru/v3/"
  const IdempotentHeader: string := "Idempotence-Key"

  /** A shop ID and secret key, as a value. */
  datatype Credentials = Credentials(shopID: string, secretKey: string)

  /** How much, and in what currency (a three-letter code, not checked). */
  datatype Amount = Amount(value: Decimal, currency: string)

  /** The confirmation scenario requested; `kind` is a free string such as "redirect". */
  datatype Confirmation = Confirmation(kind: string, enforce: bool, returnURL: string)

  /**
   * A payment's fields, in declaration order. The account is a reference,
   * shared with whoever else holds it.
   */
  datatype PaymentRecord = PaymentRecord(
    kassa: Kassa?,
    idempotenceKey: string,
    amount: Amount,
    capture: bool,
    confirmation: Confirmation,
    description: string)

  const ZeroAmount: Amount := Amount(Decimal(0, 0), "")
  const ZeroConfirmation: Confirmation := Confirmation("", false, "")
  const ZeroPayment: PaymentRecord := PaymentRecord(null, "", ZeroAmount, false, ZeroConfirmation, "")

  // ---------------------------------------------------------------------------
  // The body: each struct's field table, as its tags declare it.

  function AmountFields(a: Amount): seq<Field> {
    [ Tagged("value", false, Num(a.value)),
      Tagged("currency", true, Str(a.currency)) ]
  }

  function ConfirmationFields(c: Confirmation): seq<Field> {
    [ Tagged("type", false, Str(c.kind)),
      Tagged("enforce", false, Bool(c.enforce)),
      Tagged("return_url", false, Str(c.returnURL)) ]
  }

  function PaymentFields(p: PaymentRecord): seq<Field> {
    [ Ignored,   // the account
      Ignored,   // the idempotence key
      Tagged("amount", false, Obj(EncodeStruct(AmountFields(p.amount)))),
      Tagged("capture", true, Bool(p.capture)),
      Tagged("confirmation", false, Obj(EncodeStruct(ConfirmationFields(p.confirmation)))),
      Tagged("description", true, Str(p.description)) ]
  }

  /** The JSON body of a payment-creation request. */
  function Body(p: PaymentRecord): (v: Value)
    ensures v.Obj?
  {
    Obj(EncodeStruct(PaymentFields(p)))
  }

  /**
   * The body's keys are only those of the tagged fields: nothing of the
   * account or the idempotence key can show up in it.
   */
  lemma BodyOnlyTaggedKeys(p: PaymentRecord, m: Member)
    requires m in Body(p).members
    ensures m.key == "amount" || m.key == "capture" || m.key == "confirmation" || m.key == "description"
  {
    EncodeStructMembers(PaymentFields(p), m);
  }

  /** The amount object: `currency` only when there is one. */
  lemma AmountMembers(a: Amount)
    ensures EncodeStruct(AmountFields(a)) ==
      [Member("value", Num(a.value))] +
      (if a.currency != "" then [Member("currency", Str(a.currency))] else [])
  {
  }

  /** The confirmation object always carries all three keys. */
  lemma {:induction false} ConfirmationMembers(c: Confirmation)
    ensures EncodeStruct(ConfirmationFields(c)) ==
      [Member("type", Str(c.kind)), Member("enforce", Bool(c.enforce)), Member("return_url", Str(c.returnURL))]
  {
    var fs := ConfirmationFields(c);
    assert fs == [fs[0]] + [fs[1]] + [fs[2]];
    EncodeStructAppend([fs[0]] + [fs[1]], [fs[2]]);
    EncodeStructAppend([fs[0]], [fs[1]]);
    assert EncodeField(fs[0]) == [Member("type", Str(c.kind))];
    assert EncodeField(fs[1]) == [Member("enforce", Bool(c.enforce))];
    assert EncodeField(fs[2]) == [Member("return_url", Str(c.returnURL))];
  }

  /** The JSON object an amount becomes. */
  function AmountValue(a: Amount): Value {
    Obj([Member("value", Num(a.value))] +
        (if a.currency != "" then [Member("currency", Str(a.currency))] else []))
  }

  /** The JSON object a confirmation becomes. */
  function ConfirmationValue(c: Confirmation): Value {
    Obj([Member("type", Str(c.kind)), Member("enforce", Bool(c.enforce)), Member("return_url", Str(c.returnURL))])
  }

  /**
   * The body, member by member: `amount` and `confirmation` always, `capture`
   * only when set, `description` only when non-empty, in declaration order;
   * nothing from the account or the idempotence key.
   */
  function BodyShape(p: PaymentRecord): seq<Member> {
    [Member("amount", AmountValue(p.amount))] +
    (if p.capture then [Member("capture", Bool(true))] else []) +
    [Member("confirmation", ConfirmationValue(p.confirmation))] +
    (if p.description != "" then [Member("description", Str(p.description))] else [])
  }

  /** The encoder, run over the payment's field table, writes exactly that shape. */
  lemma {:induction false} BodyMembers(p: PaymentRecord)
    ensures Body(p) == Obj(BodyShape(p))
  {
    var fs := PaymentFields(p);
    assert fs == [fs[0]] + [fs[1]] + [fs[2]] + [fs[3]] + [fs[4]] + [fs[5]];
    EncodeStructAppend([fs[0]] + [fs[1]] + [fs[2]] + [fs[3]] + [fs[4]], [fs[5]]);
    EncodeStructAppend([fs[0]] + [fs[1]] + [fs[2]] + [fs[3]], [fs[4]]);
    EncodeStructAppend([fs[0]] + [fs[1]] + [fs[2]], [fs[3]]);
    EncodeStructAppend([fs[0]] + [fs[1]], [fs[2]]);
    EncodeStructAppend([fs[0]], [fs[1]]);
    AmountMembers(p.amount);
    ConfirmationMembers(p.confirmation);
    assert EncodeField(fs[0]) == [] && EncodeField(fs[1]) == [];
    assert EncodeField(fs[2]) == [Member("amount", AmountValue(p.amount))];
    assert EncodeField(fs[3]) == (if p.capture then [Member("capture", Bool(true))] else []);
    assert EncodeField(fs[4]) == [Member("confirmation", ConfirmationValue(p.confirmation))];
    assert EncodeField(fs[5]) ==
      (if p.description != "" then [Member("description", Str(p.description))] else []);
  }

  /** The body's keys, in order. */
  lemma BodyKeyList(p: PaymentRecord)
    ensures Body(p).Obj?
    ensures Keys(Body(p).members) ==
      ["amount"] + (if p.capture then ["capture"] else []) + ["confirmation"] +
      (if p.description != "" then ["description"] else [])
  {
    BodyMembers(p);
    ShapeKeys(p);
  }

  lemma ShapeKeys(p: PaymentRecord)
    ensures Keys(BodyShape(p)) ==
      ["amount"] + (if p.capture then ["capture"] else []) + ["confirmation"] +
      (if p.description != "" then ["description"] else [])
  {
    var a := [Member("amount", AmountValue(p.amount))];
    var c := if p.capture then [Member("capture", Bool(true))] else [];
    var f := [Member("confirmation", ConfirmationValue(p.confirmation))];
    var d := if p.description != "" then [Member("description", Str(p.description))] else [];
    KeysAppend(a + c + f, d);
    KeysAppend(a + c, f);
    KeysAppend(a, c);
  }

  /** Which keys the body has: each optional key exactly when its field is non-empty. */
  lemma BodyKeys(p: PaymentRecord)
    ensures Body(p).Obj?
    ensures "amount" in Keys(Body(p).members) && "confirmation" in Keys(Body(p).members)
    ensures "capture" in Keys(Body(p).members) <==> p.capture
    ensures "description" in Keys(Body(p).members) <==> p.description != ""
    ensures Keys(AmountValue(p.amount).members) ==
      ["value"] + (if p.amount.currency != "" then ["currency"] else [])
    ensures Keys(ConfirmationValue(p.confirmation).members) == ["type", "enforce", "return_url"]
  {
    BodyKeyList(p);
  }

  /** The body does not depend on the account or the idempotence key. */
  lemma BodyIgnoresTransportFields(p: PaymentRecord, kassa: Kassa?, key: string)
    ensures Body(p.(kassa := kassa, idempotenceKey := key)) == Body(p)
  {
  }

  // ---------------------------------------------------------------------------
  // Reading a body back, field by field; a missing key leaves the zero value.

  function StringOr(v: Option<Value>, zero: string): Option<string> {
    match v
    case None => Some(zero)
    case Some(Str(s)) => Some(s)
    case Some(_) => None
  }

  function BoolOr(v: Option<Value>): Option<bool> {
    match v
    case None => Some(false)
    case Some(Bool(b)) => Some(b)
    case Some(_) => None
  }

  function DecodeAmount(v: Option<Value>): Option<Amount> {
    match v
    case None => Some(ZeroAmount)
    case Some(Obj(ms)) =>
      var value := match Lookup(ms, "value")
                   case None => Some(ZeroAmount.value)
                   case Some(Num(d)) => Some(d)
                   case Some(_) => None;
      var currency := StringOr(Lookup(ms, "currency"), "");
      if value.Some? && currency.Some? then Some(Amount(value.value, currency.value)) else None
    case Some(_) => None
  }

  function DecodeConfirmation(v: Option<Value>): Option<Confirmation> {
    match v
    case None => Some(ZeroConfirmation)
    case Some(Obj(ms)) =>
      var kind := StringOr(Lookup(ms, "type"), "");
      var enforce := BoolOr(Lookup(ms, "enforce"));
      var url := StringOr(Lookup(ms, "return_url"), "");
      if kind.Some? && enforce.Some? && url.Some?
      then Some(Confirmation(kind.value, enforce.value, url.value)) else None
    case Some(_) => None
  }

  /** A body read back into a payment with no account and no idempotence key. */
  function DecodeBody(v: Value): Option<PaymentRecord> {
    match v
    case Obj(ms) =>
      var amount := DecodeAmount(Lookup(ms, "amount"));
      var capture := BoolOr(Lookup(ms, "capture"));
      var confirmation := DecodeConfirmation(Lookup(ms, "confirmation"));
      var description := StringOr(Lookup(ms, "description"), "");
      if amount.Some? && capture.Some? && confirmation.Some? && description.Some?
      then Some(PaymentRecord(null, "", amount.value, capture.value, confirmation.value, description.value))
      else None
    case _ => None
  }

  /** An amount object reads back as the amount it was written from. */
  lemma DecodeAmountRoundTrip(a: Amount)
    ensures DecodeAmount(Some(AmountValue(a))) == Some(a)
  {
  }

  /** A confirmation object reads back as the confirmation it was written from. */
  lemma DecodeConfirmationRoundTrip(c: Confirmation)
    ensures DecodeConfirmation(Some(ConfirmationValue(c))) == Some(c)
  {
    var cm := ConfirmationValue(c).members;
    assert Lookup(cm, "type") == Some(Str(c.kind));
    assert Lookup(cm, "enforce") == Some(Bool(c.enforce));
    assert Lookup(cm, "return_url") == Some(Str(c.returnURL));
  }

  /**
   * Any object whose keys hold what the body's keys hold reads back as the
   * payment minus its transport-only fields.
   */
  lemma DecodeFromLookups(ms: seq<Member>, p: PaymentRecord)
    requires Lookup(ms, "amount") == Some(AmountValue(p.amount))
    requires Lookup(ms, "capture") == if p.capture then Some(Bool(true)) else None
    requires Lookup(ms, "confirmation") == Some(ConfirmationValue(p.confirmation))
    requires Lookup(ms, "description") == if p.description != "" then Some(Str(p.description)) else None
    ensures DecodeBody(Obj(ms)) == Some(p.(kassa := null, idempotenceKey := ""))
  {
    DecodeAmountRoundTrip(p.amount);
    DecodeConfirmationRoundTrip(p.confirmation);
    DecodeFromFields(ms, p);
  }

  lemma DecodeFromFields(ms: seq<Member>, p: PaymentRecord)
    requires DecodeAmount(Lookup(ms, "amount")) == Some(p.amount)
    requires BoolOr(Lookup(ms, "capture")) == Some(p.capture)
    requires DecodeConfirmation(Lookup(ms, "confirmation")) == Some(p.confirmation)
    requires StringOr(Lookup(ms, "description"), "") == Some(p.description)
    ensures DecodeBody(Obj(ms)) == Some(p.(kassa := null, idempotenceKey := ""))
  {
  }

  /** Reading a body back gives the payment minus its transport-only fields. */
  lemma DecodeBodyInvertsBody(p: PaymentRecord)
    ensures DecodeBody(Body(p)) == Some(p.(kassa := null, idempotenceKey := ""))
  {
    BodyMembers(p);
    ShapeLookups(p);
    DecodeFromLookups(BodyShape(p), p);
  }

  /** Writing a body, reading it back and writing it again gives the same body. */
  lemma BodyRoundTrip(p: PaymentRecord)
    ensures DecodeBody(Body(p)).Some?
    ensures Body(DecodeBody(Body(p)).value) == Body(p)
  {
    DecodeBodyInvertsBody(p);
    BodyIgnoresTransportFields(p, null, "");
  }

  /** Each key of the body answers with its field's value, or is absent when the field is omitted. */
  lemma BodyLookups(p: PaymentRecord)
    ensures Body(p).Obj?
    ensures Lookup(Body(p).members, "amount") == Some(AmountValue(p.amount))
    ensures Lookup(Body(p).members, "capture") == if p.capture then Some(Bool(true)) else None
    ensures Lookup(Body(p).members, "confirmation") == Some(ConfirmationValue(p.confirmation))
    ensures Lookup(Body(p).members, "description") ==
              if p.description != "" then Some(Str(p.description)) else None
  {
    BodyMembers(p);
    ShapeLookups(p);
  }

  lemma ShapeLookups(p: PaymentRecord)
    ensures Lookup(BodyShape(p), "amount") == Some(AmountValue(p.amount))
    ensures Lookup(BodyShape(p), "capture") == if p.capture then Some(Bool(true)) else None
    ensures Lookup(BodyShape(p), "confirmation") == Some(ConfirmationValue(p.confirmation))
    ensures Lookup(BodyShape(p), "description") ==
              if p.description != "" then Some(Str(p.description)) else None
  {
    var a := [Member("amount", AmountValue(p.amount))];
    var c := if p.capture then [Member("capture", Bool(true))] else [];
    var f := [Member("confirmation", ConfirmationValue(p.confirmation))];
    var d := if p.description != "" then [Member("description", Str(p.description))] else [];
    LookupInFour(a, c, f, d, "amount");
    LookupInFour(a, c, f, d, "capture");
    LookupInFour(a, c, f, d, "confirmation");
    LookupInFour(a, c, f, d, "description");
  }

  lemma LookupInFour(a: seq<Member>, c: seq<Member>, f: seq<Member>, d: seq<Member>, key: string)
    ensures Lookup(a + c + f + d, key) ==
              if key in Keys(a) then Lookup(a, key)
              else if key in Keys(c) then Lookup(c, key)
              else if key in Keys(f) then Lookup(f, key)
              else Lookup(d, key)
  {
    LookupAppend(a + c + f, d, key);
    LookupAppend(a + c, f, key);
    LookupAppend(a, c, key);
    KeysAppend(a + c, f);
    KeysAppend(a, c);
  }

  // ---------------------------------------------------------------------------
  // The request a payment is sent as.

  /** An HTTP request: verb, URL, basic-auth credentials, headers and JSON body. */
  datatype Request = Request(
    verb: string,
    url: string,
    auth: Credentials,
    headers: map<string, string>,
    body: Value)

  /**
   * The POST that creates a payment: signed with the account's credentials,
   * the idempotence key in its own header and nowhere else.
   */
  function NewRequest(p: PaymentRecord, auth: Credentials): (r: Request)
    ensures r.verb == "POST" && r.url == Endpoint + "payments"
    ensures r.auth == auth
    ensures IdempotentHeader in r.headers && r.headers[IdempotentHeader] == p.idempotenceKey
    ensures "Content-Type" in r.headers && r.headers["Content-Type"] == "application/json"
    ensures DecodeBody(r.body) == Some(p.(kassa := null, idempotenceKey := ""))
  {
    DecodeBodyInvertsBody(p);
    Request("POST", Endpoint + "payments", auth,
            map[IdempotentHeader := p.idempotenceKey, "Content-Type" := "application/json"],
            Body(p))
  }

  /**
   * The whole outcome of submitting a payment: a transport failure as it is,
   * otherwise the routing of the response body.
   */
  function Submit(p: PaymentRecord, auth: Credentials,
                  transport: Request -> Result<Bytes, TransportError>,
                  decodeError: Bytes -> Result<ErrorResponse, DecodeError>,
                  decodeSuccess: Bytes -> Result<PaymentResponse, DecodeError>)
    : (r: Result<PaymentResponse, Failure>)
    ensures (r.Failure? && r.error.TransportFailure?) <==> transport(NewRequest(p, auth)).Failure?
    ensures r.Failure? && r.error.TransportFailure? ==> r.error.transport == transport(NewRequest(p, auth)).error
    ensures transport(NewRequest(p, auth)).Success? ==>
              r == Route(transport(NewRequest(p, auth)).value, decodeError, decodeSuccess)
    ensures r.Failure? && r.error.ApiFailure? ==> r.error.api.kind == "error"
  {
    match transport(NewRequest(p, auth))
    case Failure(e) => Failure(TransportFailure(e))
    case Success(raw) => Route(raw, decodeError, decodeSuccess)
  }

  // ---------------------------------------------------------------------------
  // The mutable records.

  /** A merchant account: the shop ID and secret key used for basic auth. */
  class Kassa {
    var shopID: string
    var secretKey: string

    function Value(): Credentials
      reads this
    {
      Credentials(shopID, secretKey)
    }

    /** A fresh account with both fields empty. */
    constructor ()
      ensures Value() == Credentials("", "")
    {
      shopID := "";
      secretKey := "";
    }

    method SetShopID(id: string) returns (self: Kassa)
      modifies this
      ensures self == this
      ensures Value() == old(Value()).(shopID := id)
    {
      shopID := id;
      self := this;
    }

    method SetSecretKey(key: string) returns (self: Kassa)
      modifies this
      ensures self == this
      ensures Value() == old(Value()).(secretKey := key)
    {
      secretKey := key;
      self := this;
    }
  }

  /** A payment being configured; every setter changes one field and returns the payment. */
  class Payment {
    var kassa: Kassa?
    var idempotenceKey: string
    var amount: Amount
    var capture: bool
    var confirmation: Confirmation
    var description: string

    function Record(): PaymentRecord
      reads this
    {
      PaymentRecord(kassa, idempotenceKey, amount, capture, confirmation, description)
    }

    /** A fresh payment with every field zero: no account, empty strings, no capture. */
    constructor ()
      ensures Record() == ZeroPayment
    {
      kassa := null;
      idempotenceKey := "";
      amount := ZeroAmount;
      capture := false;
      confirmation := ZeroConfirmation;
      description := "";
    }

    /** Attaches the account itself, not a copy of it. */
    method SetKassa(k: Kassa?) returns (self: Payment)
      modifies this
      ensures self == this
      ensures Record() == old(Record()).(kassa := k)
    {
      kassa := k;
      self := this;
    }

    method SetIdempotenceKey(key: string) returns (self: Payment)
      modifies this
      ensures self == this
      ensures Record() == old(Record()).(idempotenceKey := key)
    {
      idempotenceKey := key;
      self := this;
    }

    /** Replaces the whole amount, value and currency together. */
    method SetAmount(value: Decimal, moneyType: string) returns (self: Payment)
      modifies this
      ensures self == this
      ensures Record() == old(Record()).(amount := Amount(value, moneyType))
    {
      amount := Amount(value, moneyType);
      self := this;
    }

    method SetCapture(cap: bool) returns (self: Payment)
      modifies this
      ensures self == this
      ensures Record() == old(Record()).(capture := cap)
    {
      capture := cap;
      self := this;
    }

    method SetConfirmation(conf: Confirmation) returns (self: Payment)
      modifies this
      ensures self == this
      ensures Record() == old(Record()).(confirmation := conf)
    {
      confirmation := conf;
      self := this;
    }

    /** Stores the description as given; the documented 128-character limit is not enforced. */
    method SetDescription(desc: string) returns (self: Payment)
      modifies this
      ensures self == this
      ensures Record() == old(Record()).(description := desc)
    {
      description := desc;
      self := this;
    }

    /**
     * Sends the payment and reports exactly one of a response and an error,
     * as Go's `(*YooKassaResponse, error)` pair. The account must be attached:
     * its credentials sign the request. The outcome is `Submit`'s: the network
     * round trip is `transport`, the two JSON decoders are `decodeError` and
     * `decodeSuccess`.
     */
    method Do(transport: Request -> Result<Bytes, TransportError>,
              decodeError: Bytes -> Result<ErrorResponse, DecodeError>,
              decodeSuccess: Bytes -> Result<PaymentResponse, DecodeError>)
      returns (resp: Option<PaymentResponse>, err: Option<Failure>)
      requires kassa != null
      ensures resp.Some? != err.Some?
      ensures resp.Some? ==>
                Submit(Record(), kassa.Value(), transport, decodeError, decodeSuccess) == Success(resp.value)
      ensures err.Some? ==>
                Submit(Record(), kassa.Value(), transport, decodeError, decodeSuccess) == Failure(err.value)
    {
      var outcome := Submit(Record(), kassa.Value(), transport, decodeError, decodeSuccess);
      if outcome.Success? {
        resp, err := Some(outcome.value), None;
      } else {
        resp, err := None, Some(outcome.error);
      }
    }
  }

  // ---------------------------------------------------------------------------
  // What callers can rely on when they chain the setters.

  /**
   * Configuring an account through the chained setters and by assigning its
   * fields directly give equal accounts.
   */
  method KassaBuilderEquivalence(id: string, key: string) returns (chained: Kassa, direct: Kassa)
    ensures chained.Value() == direct.Value() == Credentials(id, key)
  {
    var k := new Kassa();
    k := k.SetShopID(id);
    chained := k.SetSecretKey(key);
    direct := new Kassa();
    direct.shopID := id;
    direct.secretKey := key;
  }

  /** A fully chained payment holds exactly what a literal with the same fields holds. */
  method ChainedPayment(kassa: Kassa?, key: string, value: Decimal, currency: string,
                        cap: bool, conf: Confirmation, desc: string)
    returns (p: Payment)
    ensures p.Record() == PaymentRecord(kassa, key, Amount(value, currency), cap, conf, desc)
  {
    p := new Payment();
    p := p.SetKassa(kassa);
    p := p.SetIdempotenceKey(key);
    p := p.SetAmount(value, currency);
    p := p.SetCapture(cap);
    p := p.SetConfirmation(conf);
    p := p.SetDescription(desc);
  }

  /**
   * The payment keeps the account by reference: a change made to the account
   * after it was attached shows in the request the payment is sent with.
   */
  method SharedKassa(p: Payment, kassa: Kassa, newSecret: string)
    modifies p, kassa
    ensures p.kassa == kassa && kassa.secretKey == newSecret
    ensures NewRequest(p.Record(), p.kassa.Value()).auth == Credentials(old(kassa.shopID), newSecret)
  {
    var q := p.SetKassa(kassa);
    var k := kassa.SetSecretKey(newSecret);
  }

  /** A redirect confirmation is written with the token "redirect" under "type". */
  lemma RedirectConfirmationType(p: PaymentRecord)
    requires p.confirmation.kind == Confirmations.String(Confirmations.Ordinal(Confirmations.Redirect))
    ensures Lookup(Body(p).members, "confirmation") == Some(ConfirmationValue(p.confirmation))
    ensures Lookup(ConfirmationValue(p.confirmation).members, "type") == Some(Str("redirect"))
  {
    BodyLookups(p);
  }
}
