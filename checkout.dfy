/** The checkout page's state and its transitions. The page keeps its state
    in separate fields that event handlers update (`useState`); network
    answers and timers arrive here as events. Each event is a method of
    `CheckoutFlow`, tied to a transition function on `FlowState` values, and
    the lemmas state what each transition promises. */
module Checkout {
  import opened Wrappers
  import opened Text
  import opened JsonValues
  import opened Validators
  import opened Masks
  import opened Gateway

  datatype Step = Form | PaymentProcessing | PixScreen | PaymentError | Success

  datatype PaymentMethod = Pix | Card

  datatype Address = Address(street: string, neighborhood: string, city: string,
                             state: string, number: string, complement: string)

  datatype AddressField = StreetField | NeighborhoodField | CityField | StateField | NumberField | ComplementField

  /** A shipping choice; prices are in centavos. */
  datatype ShippingOption = ShippingOption(id: string, name: string, price: int, time: string)

  const Standard := ShippingOption("standard", "Entrega Padrão (Correios)", 0, "7-10 dias úteis")
  const Express := ShippingOption("express", "Entrega Expressa (Sedex)", 1973, "2-3 dias úteis")
  const ShippingOptions: seq<ShippingOption> := [Standard, Express]

  /** The messages the page shows; `GatewayNotice` carries the gateway's
      own text. The state records which message is shown, and `Wording` gives
      its wording. */
  datatype Notice =
    | NameNotice | EmailNotice | PhoneNotice | CpfNotice | CepNotice
    | CpfInvalidNotice | QrCodeNotice | ConnectionNotice | CepNotFoundNotice | CepLookupNotice
    | GatewayNotice(text: string)

  function Wording(n: Notice): string {
    match n
    case NameNotice => "Por favor, informe seu nome completo."
    case EmailNotice => "Por favor, informe um e-mail válido (ex: nome@email.com)."
    case PhoneNotice => "Por favor, informe um telefone válido com DDD."
    case CpfNotice => "Por favor, informe um CPF válido."
    case CepNotice => "Por favor, preencha um CEP válido."
    case CpfInvalidNotice => "CPF inválido. Verifique os números digitados."
    case QrCodeNotice => "Erro ao processar QR Code PIX. Tente novamente."
    case ConnectionNotice => "Erro de conexão com o servidor de pagamentos. Tente novamente em instantes."
    case CepNotFoundNotice => "CEP não encontrado."
    case CepLookupNotice => "Erro ao buscar CEP. Tente novamente."
    case GatewayNotice(t) => t
  }

  /** `totalWithShipping`, in centavos: shipping is charged only once the
      CEP has been validated. */
  function OrderTotal(cartTotal: int, cepValidated: bool, option: ShippingOption): (total: int)
    ensures total == cartTotal <==> !cepValidated || option.price == 0
  {
    cartTotal + (if cepValidated then option.price else 0)
  }

  /** Shipping never lowers the total; only a validated CEP with express
      shipping raises it, by R$ 19,73. */
  lemma OrderTotalShipping(cartTotal: int, cepValidated: bool, option: ShippingOption)
    requires option in ShippingOptions
    ensures OrderTotal(cartTotal, cepValidated, option) >= cartTotal
    ensures OrderTotal(cartTotal, cepValidated, option) ==
              (if cepValidated && option == Express then cartTotal + 1973 else cartTotal)
  {
  }

  // --------------------------------------------------------- the gate

  /** The checks of `handleProcessOrder`, in the order they run. */
  datatype Gate = NameGate | EmailGate | PhoneGate | CpfGate | CepGate

  /** The position of a check in that order. */
  function Rank(g: Gate): nat {
    match g
    case NameGate => 0
    case EmailGate => 1
    case PhoneGate => 2
    case CpfGate => 3
    case CepGate => 4
  }

  /** The verdict of every check on the current form. */
  datatype Verdicts = Verdicts(name: bool, email: bool, phone: bool, cpf: bool, cep: bool)

  function Judge(form: Customer, cepValidated: bool): (v: Verdicts)
    ensures v.name == (JsLength(Trim(form.name)) >= 3)
    ensures v.email == ValidateEmail(form.email) && v.phone == ValidatePhone(form.phone)
    ensures v.cpf == IsValidCpf(form.cpf) && v.cep == cepValidated
  {
    Verdicts(JsLength(Trim(form.name)) >= 3, ValidateEmail(form.email), ValidatePhone(form.phone),
             IsValidCpf(form.cpf), cepValidated)
  }

  predicate Passes(v: Verdicts, g: Gate) {
    match g
    case NameGate => v.name
    case EmailGate => v.email
    case PhoneGate => v.phone
    case CpfGate => v.cpf
    case CepGate => v.cep
  }

  function GateMessage(g: Gate): Notice {
    match g
    case NameGate => NameNotice
    case EmailGate => EmailNotice
    case PhoneGate => PhoneNotice
    case CpfGate => CpfNotice
    case CepGate => CepNotice
  }

  /** The check that stops the order: the first one, in order, that fails. */
  function FirstFailedGate(v: Verdicts): (g: Option<Gate>)
    ensures g.None? <==> forall h: Gate :: Passes(v, h)
    ensures g.Some? ==> !Passes(v, g.value)
    ensures g.Some? ==> forall h: Gate :: Rank(h) < Rank(g.value) ==> Passes(v, h)
  {
    if !v.name then assert !Passes(v, NameGate); Some(NameGate)
    else if !v.email then assert !Passes(v, EmailGate); Some(EmailGate)
    else if !v.phone then assert !Passes(v, PhoneGate); Some(PhoneGate)
    else if !v.cpf then assert !Passes(v, CpfGate); Some(CpfGate)
    else if !v.cep then assert !Passes(v, CepGate); Some(CepGate)
    else None
  }

  /** Which check stops an order, spelled out: each check stops it exactly
      when every earlier one passed and it fails. */
  lemma FailedGateMeaning(form: Customer, cepValidated: bool)
    ensures var f := FirstFailedGate(Judge(form, cepValidated));
      && (f == Some(NameGate) <==> JsLength(Trim(form.name)) < 3)
      && (f == Some(EmailGate) <==> JsLength(Trim(form.name)) >= 3 && !ValidateEmail(form.email))
      && (f == Some(PhoneGate) <==>
            JsLength(Trim(form.name)) >= 3 && ValidateEmail(form.email) && !ValidatePhone(form.phone))
      && (f == Some(CpfGate) <==>
            JsLength(Trim(form.name)) >= 3 && ValidateEmail(form.email) && ValidatePhone(form.phone)
            && !IsValidCpf(form.cpf))
      && (f == Some(CepGate) <==>
            JsLength(Trim(form.name)) >= 3 && ValidateEmail(form.email) && ValidatePhone(form.phone)
            && IsValidCpf(form.cpf) && !cepValidated)
  {
  }

  /** The name check counts UTF-16 code units: two emoji, four code units,
      pass it although they are only two characters. */
  lemma AstralNamePasses(form: Customer, cepValidated: bool)
    requires form.name == "\U{1F600}\U{1F600}"
    ensures Judge(form, cepValidated).name
  {
    TrimUnchanged(form.name);
    assert form.name[1..] == "\U{1F600}";
    assert JsLength(form.name) == 4;
  }

  /** Distinct checks show distinct texts, so the text shown names the
      check that failed. */
  lemma GateMessagesDistinct(g: Gate, h: Gate)
    ensures Wording(GateMessage(g)) == Wording(GateMessage(h)) <==> g == h
  {
    if g != h {
      var m, n := Wording(GateMessage(g)), Wording(GateMessage(h));
      assert |m| != |n|;
    }
  }

  // ---------------------------------------------------------- the state

  /** The answer to a charge request: the parsed response or a throw (the
      network, the JSON parse, or the extraction). */
  datatype ChargeOutcome = Responded(response: ChargeResponse) | Threw

  /** The answer of the CEP service: a parsed document or a failure. */
  datatype LookupOutcome = LookupAnswer(data: Json) | LookupFailed

  /** What the page reads from the CEP service's answer: the address
      fields, "not found", or a failure (the call failed, or the document is
      `null` and reading `data.erro` throws). */
  datatype CepReply =
    | AddressFound(street: string, neighborhood: string, city: string, state: string)
    | CepUnknown
    | CepFailed

  function ReadLookup(outcome: LookupOutcome): (r: CepReply)
    ensures outcome.LookupFailed? ==> r.CepFailed?
    ensures r.AddressFound? ==> outcome.LookupAnswer? && !Truthy(Get(outcome.data, "erro"))
  {
    match outcome
    case LookupAnswer(data) =>
      if data.Null? then CepFailed
      else if Truthy(Get(data, "erro")) then CepUnknown
      else AddressFound(FieldText(data, "logradouro"), FieldText(data, "bairro"),
                        FieldText(data, "localidade"), FieldText(data, "uf"))
    case LookupFailed => CepFailed
  }

  /** An image source the payment screen can show. */
  predicate QrSourceOk(q: string) {
    StartsWith(q, "http") || StartsWith(q, "data:")
  }

  /** What `generatePixCharge` makes of the gateway's answer: the payment
      data, no usable QR code, a failure (a throw, or an image that is not
      a string), or a refusal with the gateway's text. */
  datatype ChargeReply = PixReady(info: PixPaymentData) | QrCodeMissing | ChargeFailed | Refused(text: string)

  function ReadCharge(outcome: ChargeOutcome): (r: ChargeReply)
    ensures r.PixReady? ==> QrSourceOk(r.info.qrcode)
  {
    match outcome
    case Threw => ChargeFailed
    case Responded(response) =>
      if response.success && Truthy(response.data) then
        match ExtractPixData(response.data.value)
        case Extracted(info) => PixReady(info)
        case NoPixData => QrCodeMissing
        case ImageTypeError => ChargeFailed
      else Refused(FormatApiError(response))
  }

  /** Every field of the page state, plus the calls in flight and the charge
      requests sent so far. */
  datatype FlowState = FlowState(
    step: Step,
    paymentMethod: PaymentMethod,
    isSearchingCep: bool,
    isCepValidated: bool,
    copied: bool,
    pixData: Option<PixPaymentData>,
    apiError: Option<Notice>,
    isProcessingPix: bool,
    form: Customer,
    cpfError: Option<Notice>,
    cep: string,
    address: Address,
    selectedShipping: ShippingOption,
    cepError: Option<Notice>,
    cartCleared: bool,
    pendingLookups: seq<string>,
    declineScheduled: bool,
    chargeRequests: seq<ChargeRequest>,
    copyTimers: nat)

  /** The screens, the charge in flight and the cart agree. */
  predicate StepsAgree(s: FlowState) {
    && (s.pixData.Some? <==> (s.step == PixScreen || s.step == Success))
    && (s.pixData.Some? ==> QrSourceOk(s.pixData.value.qrcode))
    && (s.isProcessingPix ==> s.step == PaymentProcessing && s.paymentMethod == Pix)
    && (s.declineScheduled ==> s.step == PaymentProcessing && s.paymentMethod == Card)
    && (s.step == PaymentProcessing ==> s.isProcessingPix || s.declineScheduled)
    && (s.cartCleared <==> s.step == Success)
    && s.selectedShipping in ShippingOptions
  }

  /** The masked inputs hold what their masks produce. */
  predicate InputsMasked(s: FlowState) {
    MaskCep(s.cep) == s.cep && MaskCpf(s.form.cpf) == s.form.cpf && MaskPhone(s.form.phone) == s.form.phone
  }

  /** The CPF input is flagged only when its CPF fails the check. */
  predicate CpfFlagSound(s: FlowState) {
    s.cpfError.Some? ==> s.cpfError == Some(CpfInvalidNotice) && !IsValidCpf(s.form.cpf)
  }

  /** The spinner shows only while a lookup is in flight, and every lookup
      is for an eight-digit CEP. */
  predicate LookupsSound(s: FlowState) {
    && (s.isSearchingCep ==> s.pendingLookups != [])
    && (forall i :: 0 <= i < |s.pendingLookups| ==> |s.pendingLookups[i]| == 8 && AllDigits(s.pendingLookups[i]))
  }

  /** What holds of every state the page can reach. */
  predicate Consistent(s: FlowState) {
    StepsAgree(s) && InputsMasked(s) && CpfFlagSound(s) && LookupsSound(s)
  }

  /** The frame lemmas: a transition that leaves the fields a part of
      `Consistent` reads alone keeps that part. */
  lemma StepsKept(s: FlowState, t: FlowState)
    requires StepsAgree(s)
    requires t.step == s.step && t.pixData == s.pixData && t.paymentMethod == s.paymentMethod
    requires t.isProcessingPix == s.isProcessingPix && t.declineScheduled == s.declineScheduled
    requires t.cartCleared == s.cartCleared && t.selectedShipping == s.selectedShipping
    ensures StepsAgree(t)
  {
  }

  lemma InputsKept(s: FlowState, t: FlowState)
    requires InputsMasked(s) && CpfFlagSound(s)
    requires t.cep == s.cep && t.form == s.form && t.cpfError == s.cpfError
    ensures InputsMasked(t) && CpfFlagSound(t)
  {
  }

  lemma LookupsKept(s: FlowState, t: FlowState)
    requires LookupsSound(s)
    requires t.isSearchingCep == s.isSearchingCep && t.pendingLookups == s.pendingLookups
    ensures LookupsSound(t)
  {
  }

  const EmptyCustomer := Customer("", "", "", "")
  const EmptyAddress := Address("", "", "", "", "", "")

  /** The state on arrival: the form, Pix selected, standard shipping. */
  function Initial(): (s: FlowState)
    ensures Consistent(s) && s.step == Form && s.paymentMethod == Pix
  {
    FlowState(Form, Pix, false, false, false, None, None, false, EmptyCustomer, None, "",
              EmptyAddress, Standard, None, false, [], false, [], 0)
  }

  // ------------------------------------------------------- transitions

  /** The CPF input: masked, then flagged when 11 digits fail the check. */
  function CpfEdited(s: FlowState, value: string): (t: FlowState)
    ensures t.form.cpf == MaskCpf(value)
    ensures t.(form := s.form, cpfError := s.cpfError) == s && t.form.(cpf := s.form.cpf) == s.form
  {
    var masked := MaskCpf(value);
    s.(form := s.form.(cpf := masked),
       cpfError := if |Digits(masked)| == 11 && !IsValidCpf(masked) then Some(CpfInvalidNotice) else None)
  }

  /** The CEP effect, run after the CEP changed: eight digits start a
      lookup, anything shorter marks the CEP unvalidated. */
  function CepEffect(s: FlowState): (t: FlowState)
    ensures t.cepError.None?
    ensures t.(isSearchingCep := s.isSearchingCep, isCepValidated := s.isCepValidated,
               cepError := s.cepError, pendingLookups := s.pendingLookups) == s
  {
    var clean := Digits(s.cep);
    if |clean| == 8 then s.(isSearchingCep := true, cepError := None, pendingLookups := s.pendingLookups + [clean])
    else s.(isCepValidated := false, cepError := None)
  }

  /** The CEP input: masked, and the effect runs only if the value changed. */
  function CepEdited(s: FlowState, value: string): (t: FlowState)
    ensures t.cep == MaskCep(value)
    ensures t.form == s.form && t.step == s.step && t.address == s.address
  {
    var masked := MaskCep(value);
    if masked == s.cep then s else CepEffect(s.(cep := masked))
  }

  /** `data.key || ''` as the address inputs show it. */
  function FieldText(data: Json, key: string): (t: string)
    ensures !Truthy(Get(data, key)) ==> t == ""
    ensures (exists v :: Get(data, key) == Some(Str(v)) && v != "") ==> Get(data, key) == Some(Str(t))
  {
    var v := Get(data, key);
    if Truthy(v) then ToJsString(v.value) else ""
  }

  /** The lookup at position `i` settles. */
  function LookupSettled(s: FlowState, i: nat, reply: CepReply): (t: FlowState)
    requires i < |s.pendingLookups|
    ensures !t.isSearchingCep
    ensures multiset(t.pendingLookups) + multiset{s.pendingLookups[i]} == multiset(s.pendingLookups)
    ensures t.cep == s.cep && t.form == s.form && t.step == s.step
  {
    assert s.pendingLookups == s.pendingLookups[..i] + [s.pendingLookups[i]] + s.pendingLookups[i + 1..];
    var rest := s.pendingLookups[..i] + s.pendingLookups[i + 1..];
    var t :=
      match reply
      case AddressFound(street, neighborhood, city, state) =>
        s.(address := s.address.(street := street, neighborhood := neighborhood, city := city, state := state),
           isCepValidated := true)
      case CepUnknown => s.(cepError := Some(CepNotFoundNotice), isCepValidated := false)
      case CepFailed => s.(cepError := Some(CepLookupNotice), isCepValidated := false);
    t.(isSearchingCep := false, pendingLookups := rest)
  }

  /** The first half of `generatePixCharge`: the request goes out. */
  function ChargeStarted(s: FlowState, cartTotal: int, productId: string): (t: FlowState)
    ensures t.isProcessingPix
    ensures |t.chargeRequests| == |s.chargeRequests| + 1 && t.chargeRequests[..|s.chargeRequests|] == s.chargeRequests
    ensures t.(isProcessingPix := s.isProcessingPix, chargeRequests := s.chargeRequests) == s
  {
    var cents := OrderTotal(cartTotal, s.isCepValidated, s.selectedShipping);
    s.(isProcessingPix := true, chargeRequests := s.chargeRequests + [ChargeBody(s.form, cents, productId)])
  }

  /** `handleProcessOrder`, given the check that stopped the order, if any
      (`FirstFailedGate`). */
  function Submitted(s: FlowState, failed: Option<Gate>, cartTotal: int, productId: string): (t: FlowState)
    ensures t.form == s.form && t.cep == s.cep && t.paymentMethod == s.paymentMethod
    ensures failed.Some? ==> t.step == s.step && t.chargeRequests == s.chargeRequests
    ensures failed.None? ==> t.step == PaymentProcessing && t.apiError.None?
  {
    match failed
    case Some(g) =>
      s.(apiError := Some(GateMessage(g)), cpfError := if g == CpfGate then Some(CpfInvalidNotice) else s.cpfError)
    case None =>
      var started := s.(apiError := None, step := PaymentProcessing);
      if s.paymentMethod == Card then started.(declineScheduled := true)
      else ChargeStarted(started, cartTotal, productId)
  }

  /** The second half of `generatePixCharge`: the answer arrives. */
  function ChargeAnswered(s: FlowState, reply: ChargeReply): (t: FlowState)
    ensures !t.isProcessingPix
    ensures t.form == s.form && t.cep == s.cep && t.chargeRequests == s.chargeRequests
  {
    var t :=
      match reply
      case PixReady(info) => s.(pixData := Some(info), step := PixScreen)
      case QrCodeMissing => s.(apiError := Some(QrCodeNotice), step := Form)
      case ChargeFailed => s.(apiError := Some(ConnectionNotice), step := Form)
      case Refused(text) => s.(apiError := Some(GatewayNotice(text)), step := Form);
    t.(isProcessingPix := false)
  }

  /** The recovery button of the card-failure screen: switch to Pix and
      charge at once, without running the checks again. */
  function Retried(s: FlowState, cartTotal: int, productId: string): (t: FlowState)
    ensures t.paymentMethod == Pix && t.step == PaymentProcessing && t.isProcessingPix
    ensures t.form == s.form
  {
    ChargeStarted(s.(paymentMethod := Pix, step := PaymentProcessing), cartTotal, productId)
  }

  // --------------------------------------------- what transitions keep

  lemma CpfEditedConsistent(s: FlowState, value: string)
    requires Consistent(s)
    ensures Consistent(CpfEdited(s, value))
  {
    var t := CpfEdited(s, value);
    var masked := MaskCpf(value);
    assert t.form == s.form.(cpf := masked);
    StepsKept(s, t);
    LookupsKept(s, t);
    MaskCpfIdempotent(value);
    assert t.cep == s.cep && t.form.phone == s.form.phone;
    assert t.cpfError.Some? ==> !IsValidCpf(masked);
  }

  lemma CepEditedConsistent(s: FlowState, value: string)
    requires Consistent(s)
    ensures Consistent(CepEdited(s, value))
  {
    var masked := MaskCep(value);
    if masked != s.cep {
      var u := s.(cep := masked);
      var t := CepEffect(u);
      var clean := Digits(masked);
      StepsKept(s, t);
      MaskCepIdempotent(value);
      assert t.form == s.form && t.cpfError == s.cpfError && t.cep == masked;
      if |clean| == 8 {
        assert t == u.(isSearchingCep := true, cepError := None, pendingLookups := s.pendingLookups + [clean]);
        forall k | 0 <= k < |t.pendingLookups|
          ensures |t.pendingLookups[k]| == 8 && AllDigits(t.pendingLookups[k])
        {
          if k < |s.pendingLookups| { assert t.pendingLookups[k] == s.pendingLookups[k]; }
        }
      } else {
        assert t == u.(isCepValidated := false, cepError := None);
        LookupsKept(s, t);
      }
    }
  }

  lemma {:induction false} LookupSettledConsistent(s: FlowState, i: nat, reply: CepReply)
    requires Consistent(s) && i < |s.pendingLookups|
    ensures Consistent(LookupSettled(s, i, reply))
  {
    var t := LookupSettled(s, i, reply);
    var rest := s.pendingLookups[..i] + s.pendingLookups[i + 1..];
    assert t.pendingLookups == rest && !t.isSearchingCep;
    assert t.cep == s.cep && t.form == s.form && t.cpfError == s.cpfError;
    assert t.step == s.step && t.pixData == s.pixData && t.paymentMethod == s.paymentMethod;
    assert t.isProcessingPix == s.isProcessingPix && t.declineScheduled == s.declineScheduled;
    assert t.cartCleared == s.cartCleared && t.selectedShipping == s.selectedShipping;
    StepsKept(s, t);
    InputsKept(s, t);
    forall k | 0 <= k < |rest|
      ensures |rest[k]| == 8 && AllDigits(rest[k])
    {
      if k < i { assert rest[k] == s.pendingLookups[k]; }
      else { assert rest[k] == s.pendingLookups[k + 1]; }
    }
  }

  lemma SubmittedConsistent(s: FlowState, failed: Option<Gate>, cartTotal: int, productId: string)
    requires Consistent(s) && s.step == Form
    requires failed == Some(CpfGate) ==> !IsValidCpf(s.form.cpf)
    ensures Consistent(Submitted(s, failed, cartTotal, productId))
  {
    var t := Submitted(s, failed, cartTotal, productId);
    LookupsKept(s, t);
    match failed
    case Some(g) =>
      assert t == s.(apiError := Some(GateMessage(g)), cpfError := if g == CpfGate then Some(CpfInvalidNotice) else s.cpfError);
      StepsKept(s, t);
    case None =>
      var started := s.(apiError := None, step := PaymentProcessing);
      InputsKept(s, started);
      if s.paymentMethod == Card {
        assert t == started.(declineScheduled := true);
      } else {
        assert t == ChargeStarted(started, cartTotal, productId);
        assert t.isProcessingPix && t.step == PaymentProcessing && t.paymentMethod == Pix;
      }
  }

  lemma ChargeAnsweredConsistent(s: FlowState, reply: ChargeReply)
    requires Consistent(s) && s.isProcessingPix
    requires reply.PixReady? ==> QrSourceOk(reply.info.qrcode)
    ensures Consistent(ChargeAnswered(s, reply))
  {
    var t := ChargeAnswered(s, reply);
    assert t.cep == s.cep && t.form == s.form && t.cpfError == s.cpfError;
    assert t.isSearchingCep == s.isSearchingCep && t.pendingLookups == s.pendingLookups;
    InputsKept(s, t);
    LookupsKept(s, t);
  }

  lemma RetriedConsistent(s: FlowState, cartTotal: int, productId: string)
    requires Consistent(s) && s.step == PaymentError
    ensures Consistent(Retried(s, cartTotal, productId))
  {
    var u := s.(paymentMethod := Pix, step := PaymentProcessing);
    var t := Retried(s, cartTotal, productId);
    assert t == ChargeStarted(u, cartTotal, productId);
    assert t.cep == s.cep && t.form == s.form && t.cpfError == s.cpfError;
    assert t.isSearchingCep == s.isSearchingCep && t.pendingLookups == s.pendingLookups;
    InputsKept(s, t);
    LookupsKept(s, t);
  }

  // ---------------------------------------- what transitions promise

  /** A failed check shows the message of the first check that failed and
      changes nothing else, except that a CPF failure also flags the CPF
      input; the step stays the form and nothing is charged. */
  lemma GateFailureStops(s: FlowState, g: Gate, cartTotal: int, productId: string)
    ensures var t := Submitted(s, Some(g), cartTotal, productId);
      && t.apiError == Some(GateMessage(g))
      && (g == CpfGate ==> t.cpfError == Some(CpfInvalidNotice))
      && t.(apiError := s.apiError, cpfError := s.cpfError) == s
  {
  }

  /** An order paid by card never reaches the gateway: it waits on the
      processing screen for the decline timer. */
  lemma CardOrderDeclined(s: FlowState, cartTotal: int, productId: string)
    requires s.paymentMethod == Card && !s.isProcessingPix
    ensures var t := Submitted(s, None, cartTotal, productId);
      && t.apiError.None? && t.step == PaymentProcessing && t.declineScheduled && !t.isProcessingPix
      && t.chargeRequests == s.chargeRequests
  {
  }

  /** An order paid by Pix sends one charge request, for the total with
      shipping, built from the form as it stands. */
  lemma PixOrderCharged(s: FlowState, cartTotal: int, productId: string)
    requires s.paymentMethod == Pix
    ensures var t := Submitted(s, None, cartTotal, productId);
      && t.apiError.None? && t.step == PaymentProcessing && t.isProcessingPix
      && t.declineScheduled == s.declineScheduled
      && t.chargeRequests == s.chargeRequests
           + [ChargeBody(s.form, OrderTotal(cartTotal, s.isCepValidated, s.selectedShipping), productId)]
  {
  }

  /** A form that passes every check yields a charge body with an 11-digit
      valid CPF, a 10- or 11-digit phone, a name at least three UTF-16 code
      units long, a well-formed e-mail and the single item at the amount
      charged. */
  lemma PassedChecksCharge(form: Customer, cepValidated: bool, cents: int, productId: string)
    requires FirstFailedGate(Judge(form, cepValidated)).None?
    ensures var b := ChargeBody(form, cents, productId);
      && |b.cpf| == 11 && IsValidCpf(b.cpf) && ValidatePhone(b.phone) && JsLength(b.name) >= 3
      && ValidateEmail(b.email) && b.amount == cents && b.items == [ChargeItem(productId, cents, 1)]
  {
    var v := Judge(form, cepValidated);
    assert Passes(v, NameGate) && Passes(v, EmailGate) && Passes(v, PhoneGate) && Passes(v, CpfGate);
    CheckedCustomerBody(form, cents, productId);
  }

  /** How the gateway's answer is read: the payment data when the gateway
      reports success with data a QR code can be extracted from, and the
      gateway's own text exactly when it refused the charge. */
  lemma ReadChargeCases(outcome: ChargeOutcome)
    ensures var r := ReadCharge(outcome);
      && (r.PixReady? <==>
            outcome.Responded? && outcome.response.success && Truthy(outcome.response.data)
            && ExtractPixData(outcome.response.data.value).Extracted?)
      && (r.PixReady? ==> r.info == ExtractPixData(outcome.response.data.value).info)
      && (r.Refused? <==> outcome.Responded? && !(outcome.response.success && Truthy(outcome.response.data)))
      && (r.Refused? ==> r.text == FormatApiError(outcome.response))
  {
  }

  /** The Pix screen is reached exactly with payment data; every other reply
      returns to the form with an error set, and only a refusal shows the
      gateway's own text. Nothing is charged and the form is kept. */
  lemma ChargeAnsweredEffects(s: FlowState, reply: ChargeReply)
    ensures var t := ChargeAnswered(s, reply);
      && !t.isProcessingPix
      && (t.step == PixScreen <==> reply.PixReady?)
      && (reply.PixReady? ==> t.pixData == Some(reply.info) && t.apiError == s.apiError)
      && (!reply.PixReady? ==> t.step == Form && t.apiError.Some? && t.pixData == s.pixData)
      && (!reply.PixReady? ==> (t.apiError.value.GatewayNotice? <==> reply.Refused?))
      && (reply.Refused? ==> t.apiError == Some(GatewayNotice(reply.text)))
      && (!reply.PixReady? ==> Wording(t.apiError.value) != "" || (reply.Refused? && reply.text == ""))
      && t.chargeRequests == s.chargeRequests && t.form == s.form
  {
  }

  /** A refusal shows the gateway's message when it sent one, and its field
      errors otherwise; the text shown is empty, so that nothing appears, in
      one case only: no message, and field errors that are one empty string. */
  lemma RefusalShowsGatewayText(s: FlowState, r: ChargeResponse)
    requires !(r.success && Truthy(r.data))
    ensures ChargeAnswered(s, ReadCharge(Responded(r))).apiError == Some(GatewayNotice(FormatApiError(r)))
    ensures r.message.Some? && r.message.value != "" ==>
              Wording(ChargeAnswered(s, ReadCharge(Responded(r))).apiError.value) == r.message.value
    ensures Wording(ChargeAnswered(s, ReadCharge(Responded(r))).apiError.value) == "" <==>
              (r.message.None? || r.message.value == "")
              && r.errors.Some? && Flatten(ErrorLists(r.errors.value)) == [""]
  {
    assert ReadCharge(Responded(r)) == Refused(FormatApiError(r));
    ChargeAnsweredEffects(s, Refused(FormatApiError(r)));
    FormatApiErrorEmptyIff(r);
  }

  /** The recovery charges by Pix for the current total, and the form is
      not checked again. */
  lemma RetryCharges(s: FlowState, cartTotal: int, productId: string)
    ensures var t := Retried(s, cartTotal, productId);
      && t.paymentMethod == Pix && t.step == PaymentProcessing && t.isProcessingPix
      && t.chargeRequests == s.chargeRequests
           + [ChargeBody(s.form, OrderTotal(cartTotal, s.isCepValidated, s.selectedShipping), productId)]
  {
  }

  /** Editing the CPF flags it exactly when at least 11 digits were typed
      and the first 11 fail the check digits. */
  lemma CpfEditFlag(s: FlowState, value: string)
    ensures var t := CpfEdited(s, value);
      && (t.cpfError.Some? <==> |Digits(value)| >= 11 && !IsValidCpf(Prefix(Digits(value), CpfDigits)))
      && (t.cpfError.Some? ==> t.cpfError == Some(CpfInvalidNotice))
      && Digits(t.form.cpf) == Prefix(Digits(value), CpfDigits)
  {
    MaskCpfDigits(value);
    MaskedCpfVerdict(value);
  }

  /** A CEP edit that leaves fewer than eight digits clears the error and
      the validation; eight digits start a lookup and leave the validation
      as it was until the lookup settles; an edit the mask absorbs does
      nothing. */
  lemma CepEditEffects(s: FlowState, value: string)
    ensures var t := CepEdited(s, value);
      && (MaskCep(value) == s.cep ==> t == s)
      && (MaskCep(value) != s.cep && |Digits(value)| < 8 ==>
            t.cep == MaskCep(value) && !t.isCepValidated && t.cepError.None?
            && t.pendingLookups == s.pendingLookups && t.isSearchingCep == s.isSearchingCep)
      && (MaskCep(value) != s.cep && |Digits(value)| >= 8 ==>
            t.cep == MaskCep(value) && t.isSearchingCep && t.cepError.None?
            && t.pendingLookups == s.pendingLookups + [Prefix(Digits(value), CepDigits)]
            && t.isCepValidated == s.isCepValidated)
  {
    MaskCepDigits(value);
  }

  /** How the CEP service's answer is read: a failure or a `null`
      document fails, a truthy `erro` is "not found", and otherwise the four
      address fields are taken as the inputs show them. */
  lemma ReadLookupCases(outcome: LookupOutcome)
    ensures var r := ReadLookup(outcome);
      && (r.CepFailed? <==> outcome.LookupFailed? || outcome.data.Null?)
      && (r.CepUnknown? <==> outcome.LookupAnswer? && !outcome.data.Null? && Truthy(Get(outcome.data, "erro")))
      && (r.AddressFound? ==>
            && r.street == FieldText(outcome.data, "logradouro")
            && r.neighborhood == FieldText(outcome.data, "bairro")
            && r.city == FieldText(outcome.data, "localidade")
            && r.state == FieldText(outcome.data, "uf"))
  {
  }

  /** How a lookup settles: "not found" and failures unvalidate with their
      message, an address validates the CEP and fills street,
      neighbourhood, city and state (number and complement are kept), and
      the spinner stops in every case. */
  lemma LookupOutcomes(s: FlowState, i: nat, reply: CepReply)
    requires i < |s.pendingLookups|
    ensures var t := LookupSettled(s, i, reply);
      && !t.isSearchingCep
      && |t.pendingLookups| == |s.pendingLookups| - 1
      && (reply.CepFailed? ==> !t.isCepValidated && t.cepError == Some(CepLookupNotice) && t.address == s.address)
      && (reply.CepUnknown? ==> !t.isCepValidated && t.cepError == Some(CepNotFoundNotice) && t.address == s.address)
      && (reply.AddressFound? ==>
            t.isCepValidated && t.cepError == s.cepError
            && t.address == Address(reply.street, reply.neighborhood, reply.city, reply.state,
                                    s.address.number, s.address.complement))
      && t.cep == s.cep && t.step == s.step && t.form == s.form
  {
  }

  /** Lookups are not matched against the CEP they were started for: a
      lookup that settles after the CEP was shortened still validates it. */
  lemma StaleLookupValidates(s: FlowState, value: string, data: Json)
    requires |s.pendingLookups| == 1 && !data.Null? && !Truthy(Get(data, "erro"))
    requires MaskCep(value) != s.cep && |Digits(value)| < 8
    ensures var t := LookupSettled(CepEdited(s, value), 0, ReadLookup(LookupAnswer(data)));
      t.isCepValidated && |Digits(t.cep)| < 8
  {
    MaskCepDigits(value);
    assert ReadLookup(LookupAnswer(data)).AddressFound?;
  }

  // ------------------------------------------------------- the page

  /** The checkout page. `cartTotal` and `config` are what the page reads
      from the cart and from the build environment. */
  class CheckoutFlow {
    var step: Step
    var paymentMethod: PaymentMethod
    var isSearchingCep: bool
    var isCepValidated: bool
    var copied: bool
    var pixData: Option<PixPaymentData>
    var apiError: Option<Notice>
    var isProcessingPix: bool
    var form: Customer
    var cpfError: Option<Notice>
    var cep: string
    var address: Address
    var selectedShipping: ShippingOption
    var cepError: Option<Notice>
    var cartCleared: bool
    var pendingLookups: seq<string>
    var declineScheduled: bool
    var chargeRequests: seq<ChargeRequest>
    var copyTimers: nat
    const cartTotal: int
    const config: ClientConfig

    function Snapshot(): FlowState
      reads this
    {
      FlowState(step, paymentMethod, isSearchingCep, isCepValidated, copied, pixData, apiError,
                isProcessingPix, form, cpfError, cep, address, selectedShipping, cepError,
                cartCleared, pendingLookups, declineScheduled, chargeRequests, copyTimers)
    }

    predicate Valid()
      reads this
    {
      Consistent(Snapshot())
    }

    constructor (cartTotal: int, config: ClientConfig)
      ensures Snapshot() == Initial()
      ensures Valid()
      ensures this.cartTotal == cartTotal && this.config == config
    {
      this.cartTotal := cartTotal;
      this.config := config;
      step := Form;
      paymentMethod := Pix;
      isSearchingCep := false;
      isCepValidated := false;
      copied := false;
      pixData := None;
      apiError := None;
      isProcessingPix := false;
      form := EmptyCustomer;
      cpfError := None;
      cep := "";
      address := EmptyAddress;
      selectedShipping := Standard;
      cepError := None;
      cartCleared := false;
      pendingLookups := [];
      declineScheduled := false;
      chargeRequests := [];
      copyTimers := 0;
    }

    method EditName(value: string)
      requires Valid() && step == Form
      modifies this
      ensures Snapshot() == old(Snapshot()).(form := old(form).(name := value))
      ensures Valid()
    {
      form := form.(name := value);
    }

    method EditEmail(value: string)
      requires Valid() && step == Form
      modifies this
      ensures Snapshot() == old(Snapshot()).(form := old(form).(email := value))
      ensures Valid()
    {
      form := form.(email := value);
    }

    /** The CPF input's change handler. */
    method EditCpf(value: string)
      requires Valid() && step == Form
      modifies this
      ensures Snapshot() == CpfEdited(old(Snapshot()), value)
      ensures Valid()
    {
      CpfEditedConsistent(Snapshot(), value);
      var masked := MaskCpf(value);
      form := form.(cpf := masked);
      var digits := Digits(masked);
      if |digits| == 11 {
        var ok := ValidateCpf(masked);
        cpfError := if ok then None else Some(CpfInvalidNotice);
      } else {
        cpfError := None;
      }
    }

    /** The phone input's change handler. */
    method EditPhone(value: string)
      requires Valid() && step == Form
      modifies this
      ensures Snapshot() == old(Snapshot()).(form := old(form).(phone := MaskPhone(value)))
      ensures Valid()
    {
      MaskPhoneIdempotent(value);
      form := form.(phone := MaskPhone(value));
    }

    /** The CEP input's change handler, followed by the effect on `cep`. */
    method EditCep(value: string)
      requires Valid() && step == Form
      modifies this
      ensures Snapshot() == CepEdited(old(Snapshot()), value)
      ensures Valid()
    {
      ghost var before := Snapshot();
      var masked := MaskCep(value);
      if masked == cep {
        return;
      }
      cep := masked;
      CepChanged();
      CepEditedConsistent(before, value);
    }

    /** The effect that runs when `cep` changed. */
    method CepChanged()
      modifies this
      ensures Snapshot() == CepEffect(old(Snapshot()))
    {
      var cleanCep := Digits(cep);
      if |cleanCep| == 8 {
        isSearchingCep := true;
        cepError := None;
        pendingLookups := pendingLookups + [cleanCep];
      } else {
        isCepValidated := false;
        cepError := None;
      }
    }

    /** The CEP service answers the lookup at position `i`. */
    method CepLookupSettled(i: nat, outcome: LookupOutcome)
      requires Valid() && i < |pendingLookups|
      modifies this
      ensures Snapshot() == LookupSettled(old(Snapshot()), i, ReadLookup(outcome))
      ensures Valid()
    {
      ghost var before := Snapshot();
      var reply := ReadLookup(outcome);
      var rest := pendingLookups[..i] + pendingLookups[i + 1..];
      match reply {
        case AddressFound(street, neighborhood, city, state) =>
          FillAddress(street, neighborhood, city, state);
        case CepUnknown =>
          RejectCep(CepNotFoundNotice);
        case CepFailed =>
          RejectCep(CepLookupNotice);
      }
      FinishLookup(rest);
      LookupSettledConsistent(before, i, reply);
    }

    /** A found address fills the four address inputs it carries and
        validates the CEP. */
    method FillAddress(street: string, neighborhood: string, city: string, state: string)
      modifies this
      ensures Snapshot() == old(Snapshot()).(
        address := old(address).(street := street, neighborhood := neighborhood, city := city, state := state),
        isCepValidated := true)
    {
      address := address.(street := street, neighborhood := neighborhood, city := city, state := state);
      isCepValidated := true;
    }

    /** An unknown CEP or a failed lookup shows its message and leaves the
        CEP unvalidated. */
    method RejectCep(notice: Notice)
      modifies this
      ensures Snapshot() == old(Snapshot()).(cepError := Some(notice), isCepValidated := false)
    {
      cepError := Some(notice);
      isCepValidated := false;
    }

    /** The `finally` of the lookup: the search indicator goes off and the
        lookup leaves the pending list. */
    method FinishLookup(rest: seq<string>)
      modifies this
      ensures Snapshot() == old(Snapshot()).(isSearchingCep := false, pendingLookups := rest)
    {
      isSearchingCep := false;
      pendingLookups := rest;
    }

    /** One of the address inputs. */
    method EditAddress(field: AddressField, value: string)
      requires Valid() && step == Form
      modifies this
      ensures Snapshot() == old(Snapshot()).(address := match field
        case StreetField => old(address).(street := value)
        case NeighborhoodField => old(address).(neighborhood := value)
        case CityField => old(address).(city := value)
        case StateField => old(address).(state := value)
        case NumberField => old(address).(number := value)
        case ComplementField => old(address).(complement := value))
      ensures Valid()
    {
      match field {
        case StreetField => address := address.(street := value);
        case NeighborhoodField => address := address.(neighborhood := value);
        case CityField => address := address.(city := value);
        case StateField => address := address.(state := value);
        case NumberField => address := address.(number := value);
        case ComplementField => address := address.(complement := value);
      }
    }

    /** The shipping buttons, shown once the CEP is validated. */
    method SelectShipping(option: ShippingOption)
      requires Valid() && step == Form && isCepValidated && option in ShippingOptions
      modifies this
      ensures Snapshot() == old(Snapshot()).(selectedShipping := option)
      ensures Valid()
    {
      selectedShipping := option;
    }

    /** The Pix and card buttons. */
    method SelectPaymentMethod(m: PaymentMethod)
      requires Valid() && step == Form
      modifies this
      ensures Snapshot() == old(Snapshot()).(paymentMethod := m)
      ensures Valid()
    {
      paymentMethod := m;
    }

    /** The request half of `generatePixCharge`. */
    method StartPixCharge()
      requires step == PaymentProcessing
      modifies this
      ensures Snapshot() == ChargeStarted(old(Snapshot()), cartTotal, config.productId)
    {
      ghost var before := Snapshot();
      var totalCents := OrderTotal(cartTotal, isCepValidated, selectedShipping);
      var call := CreatePixCharge(config, form, totalCents);
      isProcessingPix := true;
      chargeRequests := chargeRequests + [call.body];
      assert Snapshot() == before.(isProcessingPix := true, chargeRequests := before.chargeRequests + [call.body]);
    }

    /** The checks of `handleProcessOrder`, run in order until one fails. */
    method CheckForm() returns (failed: Option<Gate>)
      ensures failed == FirstFailedGate(Judge(form, isCepValidated))
      ensures failed == Some(CpfGate) ==> !IsValidCpf(form.cpf)
    {
      FailedGateMeaning(form, isCepValidated);
      if JsLength(Trim(form.name)) < 3 {
        return Some(NameGate);
      }
      if !ValidateEmail(form.email) {
        return Some(EmailGate);
      }
      if !ValidatePhone(form.phone) {
        return Some(PhoneGate);
      }
      var cpfOk := ValidateCpf(form.cpf);
      if !cpfOk {
        return Some(CpfGate);
      }
      if !isCepValidated {
        return Some(CepGate);
      }
      return None;
    }

    /** What `handleProcessOrder` does once the checks have run: show the
        message of the failed check, or start the payment. */
    method Submit(failed: Option<Gate>)
      requires Valid() && step == Form
      requires failed == Some(CpfGate) ==> !IsValidCpf(form.cpf)
      modifies this
      ensures Snapshot() == Submitted(old(Snapshot()), failed, cartTotal, config.productId)
      ensures Valid()
    {
      ghost var before := Snapshot();
      if failed.Some? {
        ShowGateFailure(failed.value);
        SubmittedConsistent(before, failed, cartTotal, config.productId);
        return;
      }
      apiError := None;
      step := PaymentProcessing;
      ghost var started := before.(apiError := None, step := PaymentProcessing);
      assert Snapshot() == started;
      if paymentMethod == Card {
        declineScheduled := true;
        assert Snapshot() == started.(declineScheduled := true);
      } else {
        StartPixCharge();
        assert Snapshot() == ChargeStarted(started, cartTotal, config.productId);
      }
      SubmittedConsistent(before, failed, cartTotal, config.productId);
    }

    /** A failed check shows its message; a failed CPF check also flags
        the CPF input. */
    method ShowGateFailure(g: Gate)
      modifies this
      ensures Snapshot() == old(Snapshot()).(apiError := Some(GateMessage(g)),
                                             cpfError := if g == CpfGate then Some(CpfInvalidNotice) else old(cpfError))
    {
      if g == CpfGate {
        cpfError := Some(CpfInvalidNotice);
      }
      apiError := Some(GateMessage(g));
    }

    /** `handleProcessOrder`: the submit button is enabled while the CEP is
        validated or being looked up. Returns the check that stopped the
        order, if any. */
    method ProcessOrder() returns (failed: Option<Gate>)
      requires Valid() && step == Form && (isCepValidated || isSearchingCep)
      modifies this
      ensures failed == FirstFailedGate(Judge(old(form), old(isCepValidated)))
      ensures Snapshot() == Submitted(old(Snapshot()), failed, cartTotal, config.productId)
      ensures Valid()
    {
      failed := CheckForm();
      Submit(failed);
    }

    /** The answer half of `generatePixCharge`. */
    method PixChargeSettled(outcome: ChargeOutcome)
      requires Valid() && isProcessingPix
      modifies this
      ensures Snapshot() == ChargeAnswered(old(Snapshot()), ReadCharge(outcome))
      ensures Valid()
    {
      ghost var before := Snapshot();
      var reply := ReadCharge(outcome);
      match reply {
        case PixReady(info) => ShowPix(info);
        case QrCodeMissing => ReturnToForm(QrCodeNotice);
        case ChargeFailed => ReturnToForm(ConnectionNotice);
        case Refused(text) => ReturnToForm(GatewayNotice(text));
      }
      ChargeAnsweredConsistent(before, reply);
    }

    /** A charge with a QR code opens the payment screen; the `finally`
        clears the processing flag. */
    method ShowPix(info: PixPaymentData)
      modifies this
      ensures Snapshot() == old(Snapshot()).(pixData := Some(info), step := PixScreen, isProcessingPix := false)
    {
      isProcessingPix := false;
      pixData := Some(info);
      step := PixScreen;
    }

    /** A charge that failed shows its message on the form; the `finally`
        clears the processing flag. */
    method ReturnToForm(notice: Notice)
      modifies this
      ensures Snapshot() == old(Snapshot()).(apiError := Some(notice), step := Form, isProcessingPix := false)
    {
      isProcessingPix := false;
      apiError := Some(notice);
      step := Form;
    }

    /** The card-decline timer fires. */
    method CardDeclineTimeout()
      requires Valid() && declineScheduled
      modifies this
      ensures Snapshot() == old(Snapshot()).(step := PaymentError, declineScheduled := false)
      ensures Valid()
    {
      step := PaymentError;
      declineScheduled := false;
    }

    /** The "pay with Pix now" button of the card-failure screen. */
    method RetryWithPix()
      requires Valid() && step == PaymentError
      modifies this
      ensures Snapshot() == Retried(old(Snapshot()), cartTotal, config.productId)
      ensures Valid()
    {
      ghost var before := Snapshot();
      paymentMethod := Pix;
      step := PaymentProcessing;
      assert Snapshot() == before.(paymentMethod := Pix, step := PaymentProcessing);
      StartPixCharge();
      RetriedConsistent(before, cartTotal, config.productId);
    }

    /** `handleCopyPix`: returns what is written to the clipboard and
        starts one more 3000 ms timer; earlier timers keep running. */
    method CopyPix() returns (written: string)
      requires Valid() && step == PixScreen
      modifies this
      ensures Snapshot() == old(Snapshot()).(copied := true, copyTimers := old(copyTimers) + 1)
      ensures Valid()
      ensures written == ToJsString(pixData.value.qrcodeText)
    {
      written := ToJsString(pixData.value.qrcodeText);
      copied := true;
      copyTimers := copyTimers + 1;
    }

    /** One of the "copied" timers fires; each copy started one. */
    method CopiedTimeout()
      requires Valid() && copyTimers > 0
      modifies this
      ensures Snapshot() == old(Snapshot()).(copied := false, copyTimers := old(copyTimers) - 1)
      ensures Valid()
    {
      copied := false;
      copyTimers := copyTimers - 1;
    }

    /** The "I have paid" button: the cart is cleared and the order shown
        as confirmed. */
    method ConfirmPayment()
      requires Valid() && step == PixScreen
      modifies this
      ensures Snapshot() == old(Snapshot()).(cartCleared := true, step := Success)
      ensures Valid()
    {
      cartCleared := true;
      step := Success;
    }
  }
}
