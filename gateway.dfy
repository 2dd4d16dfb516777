/** The browser-side client of the Fruitfy PIX gateway: the build-time
    configuration, the charge-request body and headers sent to the
    `/api/pix/charge` route, the extraction of the QR code and the
    copy-and-paste code from the gateway's answer, and the error text shown
    when the gateway refuses a charge. */
module Gateway {
  import opened Wrappers
  import opened Text
  import opened JsonValues
  import opened Uri
  import opened Validators

  // ------------------------------------------------------ configuration

  /** The client's configuration, read from the build environment. */
  datatype ClientConfig = ClientConfig(token: string, storeId: string, productId: string, isDev: bool)

  const DefaultProductId := "produto-loja"

  /** `env.X || default` for an environment entry that may be missing. */
  function EnvOr(v: Option<string>, default: string): (r: string)
    ensures (v.Some? && v.value != "") ==> r == v.value
    ensures (v.None? || v.value == "") ==> r == default
  {
    if v.Some? && v.value != "" then v.value else default
  }

  /** A configured, non-empty entry is used as it is; otherwise the token
      and store id default to "", the product id to "produto-loja".
      `isDev` is the development-build flag. */
  function ConfigFromEnv(token: Option<string>, storeId: Option<string>,
                         productId: Option<string>, isDev: bool): (cfg: ClientConfig)
    ensures cfg.isDev == isDev
    ensures cfg.productId != ""
    ensures cfg.productId == DefaultProductId <==>
              (productId.None? || productId.value == "" || productId.value == DefaultProductId)
    ensures (token.None? || token.value == "") ==> cfg.token == ""
    ensures (storeId.None? || storeId.value == "") ==> cfg.storeId == ""
    ensures (token.Some? && token.value != "") ==> cfg.token == token.value
    ensures (storeId.Some? && storeId.value != "") ==> cfg.storeId == storeId.value
    ensures (productId.Some? && productId.value != "") ==> cfg.productId == productId.value
  {
    ClientConfig(EnvOr(token, ""), EnvOr(storeId, ""), EnvOr(productId, DefaultProductId), isDev)
  }

  // ------------------------------------------------------- the request

  /** The customer fields of the checkout form. */
  datatype Customer = Customer(name: string, email: string, phone: string, cpf: string)

  datatype ChargeItem = ChargeItem(id: string, value: int, quantity: int)

  /** The JSON body of a charge request; amounts are in centavos. */
  datatype ChargeRequest = ChargeRequest(
    name: string, email: string, phone: string, cpf: string,
    amount: int, items: seq<ChargeItem>)

  /** The body `createPixCharge` builds: name and e-mail trimmed, phone and
      CPF reduced to their digits, and a single item worth the whole amount. */
  function ChargeBody(customer: Customer, totalCents: int, productId: string): (b: ChargeRequest)
    ensures b.name == Trim(customer.name) && b.email == Trim(customer.email)
    ensures AllDigits(b.phone) && Digits(b.phone) == Digits(customer.phone)
    ensures AllDigits(b.cpf) && Digits(b.cpf) == Digits(customer.cpf)
    ensures b.amount == totalCents
    ensures |b.items| == 1 && b.items[0] == ChargeItem(productId, b.amount, 1)
  {
    DigitsIdempotent(customer.phone);
    DigitsIdempotent(customer.cpf);
    ChargeRequest(
      Trim(customer.name), Trim(customer.email),
      Digits(customer.phone), Digits(customer.cpf),
      totalCents, [ChargeItem(productId, totalCents, 1)])
  }

  /** A customer who passed the checkout's checks yields a body with an
      11-digit valid CPF, a 10- or 11-digit phone, a name at least three UTF-16
      code units long and an e-mail of the expected shape. */
  lemma CheckedCustomerBody(customer: Customer, totalCents: int, productId: string)
    requires JsLength(Trim(customer.name)) >= 3
    requires ValidateEmail(customer.email)
    requires ValidatePhone(customer.phone)
    requires IsValidCpf(customer.cpf)
    ensures var b := ChargeBody(customer, totalCents, productId);
      && JsLength(b.name) >= 3 && ValidateEmail(b.email)
      && 10 <= |b.phone| <= 11 && ValidatePhone(b.phone)
      && |b.cpf| == 11 && IsValidCpf(b.cpf)
  {
    var b := ChargeBody(customer, totalCents, productId);
    TrimIdempotent(customer.email);
    CpfVerdictDependsOnlyOnDigits(customer.cpf);
    CpfVerdictDependsOnlyOnDigits(b.cpf);
    DigitsOfDigits(b.phone);
    DigitsOfDigits(b.cpf);
  }

  const ChargeRoute := "/api/pix/charge"

  /** The request headers: JSON in both directions and Brazilian Portuguese
      always; the credentials only in a development build, where no server
      route adds them. */
  method ClientHeaders(cfg: ClientConfig) returns (headers: map<string, string>)
    ensures headers.Keys == {"Content-Type", "Accept", "Accept-Language"}
                            + (if cfg.isDev then {"Authorization", "Store-Id"} else {})
    ensures headers["Content-Type"] == "application/json" && headers["Accept"] == "application/json"
    ensures headers["Accept-Language"] == "pt_BR"
    ensures cfg.isDev ==> headers["Authorization"] == "Bearer " + cfg.token
                          && headers["Store-Id"] == cfg.storeId
  {
    headers := map["Content-Type" := "application/json",
                   "Accept" := "application/json",
                   "Accept-Language" := "pt_BR"];
    if cfg.isDev {
      headers := headers["Authorization" := "Bearer " + cfg.token];
      headers := headers["Store-Id" := cfg.storeId];
    }
  }

  /** The call `createPixCharge` hands to `fetch`. */
  datatype ClientCall = ClientCall(url: string, verb: string,
                                   headers: map<string, string>, body: ChargeRequest)

  /** `createPixCharge` up to the network call: a POST of the charge body to
      the charge route. The response is an input of the checkout flow. */
  method CreatePixCharge(cfg: ClientConfig, customer: Customer, totalCents: int)
    returns (call: ClientCall)
    ensures call.url == ChargeRoute && call.verb == "POST"
    ensures call.body == ChargeBody(customer, totalCents, cfg.productId)
    ensures call.body.items[0].id == cfg.productId && call.body.amount == totalCents
    ensures call.headers.Keys == {"Content-Type", "Accept", "Accept-Language"}
                                 + (if cfg.isDev then {"Authorization", "Store-Id"} else {})
    ensures call.headers["Content-Type"] == "application/json" && call.headers["Accept"] == "application/json"
    ensures call.headers["Accept-Language"] == "pt_BR"
    ensures cfg.isDev ==> call.headers["Authorization"] == "Bearer " + cfg.token
                          && call.headers["Store-Id"] == cfg.storeId
  {
    var body := ChargeBody(customer, totalCents, cfg.productId);
    var headers := ClientHeaders(cfg);
    call := ClientCall(ChargeRoute, "POST", headers, body);
  }

  // ------------------------------------------------------ the response

  /** The gateway's answer, as the TypeScript interface declares it; the
      `errors` record is kept as its properties in enumeration order. */
  datatype ChargeResponse = ChargeResponse(
    success: bool,
    message: Option<string>,
    data: Option<Json>,
    errors: Option<seq<(string, seq<string>)>>)

  /** What the payment screen shows: the QR image source, the
      copy-and-paste code, and the order id when one came back. */
  datatype PixPaymentData = PixPaymentData(qrcode: string, qrcodeText: Json, orderId: Option<Json>)

  /** The outcome of `extractPixData`: the data, `null`, or the TypeError
      `startsWith` raises when the image alias holds a truthy non-string. */
  datatype Extraction = Extracted(info: PixPaymentData) | NoPixData | ImageTypeError

  /** `a || b || ...` over property reads: the first truthy value. */
  function FirstTruthy(cands: seq<Option<Json>>): (r: Option<Json>)
    ensures r.None? <==> forall i :: 0 <= i < |cands| ==> !Truthy(cands[i])
    ensures r.Some? ==> Truthy(r)
    ensures r.Some? ==> exists i :: 0 <= i < |cands| && cands[i] == r
                           && forall j :: 0 <= j < i ==> !Truthy(cands[j])
  {
    if cands == [] then None
    else if Truthy(cands[0]) then cands[0]
    else
      var r := FirstTruthy(cands[1..]);
      assert forall i :: 1 <= i < |cands| ==> cands[i] == cands[1..][i - 1];
      r
  }

  /** The first truthy value of a concatenation comes from the first part
      whenever that part has one. */
  lemma {:induction false} FirstTruthyAppend(a: seq<Option<Json>>, b: seq<Option<Json>>)
    ensures FirstTruthy(a + b) == (if FirstTruthy(a).Some? then FirstTruthy(a) else FirstTruthy(b))
  {
    if a == [] {
      assert a + b == b;
    } else {
      assert (a + b)[0] == a[0];
      assert (a + b)[1..] == a[1..] + b;
      FirstTruthyAppend(a[1..], b);
    }
  }

  /** The values of `doc` under each of `keys`, in order. */
  function Candidates(doc: Json, keys: seq<string>): (r: seq<Option<Json>>)
    ensures |r| == |keys| && forall i :: 0 <= i < |keys| ==> r[i] == Get(doc, keys[i])
  {
    seq(|keys|, i requires 0 <= i < |keys| => Get(doc, keys[i]))
  }

  const NestedTextKeys: seq<string> := ["code", "qrcode_text", "pix_code", "copy_paste", "emv", "brcode"]
  const TopTextKeys: seq<string> := ["qrcode_text", "pix_code"]
  const NestedImageKeys: seq<string> := ["qr_code_base64", "qrcode", "qr_code", "qr_code_url", "qr_code_image"]
  const TopImageKeys: seq<string> := ["qr_code_base64", "qrcode", "qr_code"]
  const OrderIdKeys: seq<string> := ["order_id", "id", "charge_id"]

  /** `data.pix || {}`. */
  function PixDoc(data: Json): (pix: Json)
    ensures Truthy(Get(data, "pix")) ==> pix == Get(data, "pix").value
    ensures !Truthy(Get(data, "pix")) ==> pix == Obj([])
  {
    var p := Get(data, "pix");
    if Truthy(p) then p.value else Obj([])
  }

  /** The copy-and-paste aliases in priority order: nested first. */
  function TextCandidates(data: Json): seq<Option<Json>> {
    Candidates(PixDoc(data), NestedTextKeys) + Candidates(data, TopTextKeys)
  }

  /** The image aliases in priority order: nested first. */
  function ImageCandidates(data: Json): seq<Option<Json>> {
    Candidates(PixDoc(data), NestedImageKeys) + Candidates(data, TopImageKeys)
  }

  /** The chain ending in `|| ''`: the first truthy alias, otherwise "". */
  function Resolve(cands: seq<Option<Json>>): (v: Json)
    ensures Truthy(Some(v)) <==> exists i :: 0 <= i < |cands| && Truthy(cands[i])
    ensures Truthy(Some(v)) ==> exists i :: 0 <= i < |cands| && cands[i] == Some(v)
                                  && forall j :: 0 <= j < i ==> !Truthy(cands[j])
    ensures !Truthy(Some(v)) ==> v == Str("")
  {
    var r := FirstTruthy(cands);
    if r.Some? then r.value else Str("")
  }

  /** Section 3 of RFC 2397: `data:[<mediatype>][;base64],<data>`. */
  const DataUriPrefix := "data:image/png;base64,"
  /** One URL; the scheme is its own literal so that the verifier, which does
      not unfold a literal this long, sees that it starts with `http`. */
  const QrServerUrl := "https://" + "api.qrserver.com/v1/create-qr-code/?size=300x300&data="

  /** The image source once the code or the image is known to be present:
      an `http` or `data:` string is kept, any other string becomes a base64
      PNG data URI, and a missing image becomes a link to the QR rendering
      service for the code. */
  function QrcodeSource(image: Json, text: Json): (src: string)
    requires image.Str? || !Truthy(Some(image))
    ensures src != ""
    ensures StartsWith(src, "http") || StartsWith(src, "data:")
  {
    if Truthy(Some(image)) then
      if StartsWith(image.s, "http") || StartsWith(image.s, "data:") then image.s
      else
        assert (DataUriPrefix + image.s)[..5] == "data:";
        DataUriPrefix + image.s
    else
      var url := QrServerUrl + EncodeUriComponent(ToJsString(text));
      assert url[..4] == "http";
      url
  }

  /** `extractPixData`: the code is the resolved text alias, unchanged, and
      the image source is non-empty and a link or a data URI. */
  function ExtractPixData(data: Json): (r: Extraction)
    ensures r.Extracted? ==> r.info.qrcode != ""
    ensures r.Extracted? ==> StartsWith(r.info.qrcode, "http") || StartsWith(r.info.qrcode, "data:")
    ensures r.Extracted? ==> r.info.qrcodeText == Resolve(TextCandidates(data))
  {
    var text := Resolve(TextCandidates(data));
    var image := Resolve(ImageCandidates(data));
    if !Truthy(Some(text)) && !Truthy(Some(image)) then NoPixData
    else if Truthy(Some(image)) && !image.Str? then ImageTypeError
    else Extracted(PixPaymentData(QrcodeSource(image, text), text,
                                  FirstTruthy(Candidates(data, OrderIdKeys))))
  }

  /** `null` comes back exactly when every copy-and-paste alias and every
      image alias is missing or falsy. */
  lemma NoPixDataIff(data: Json)
    ensures ExtractPixData(data).NoPixData? <==>
      (forall i :: 0 <= i < |TextCandidates(data)| ==> !Truthy(TextCandidates(data)[i]))
      && (forall i :: 0 <= i < |ImageCandidates(data)| ==> !Truthy(ImageCandidates(data)[i]))
  {
  }

  /** An alias under `pix` beats every top-level alias, for the code and for
      the image alike. */
  lemma NestedAliasesWin(data: Json)
    ensures FirstTruthy(Candidates(PixDoc(data), NestedTextKeys)).Some? ==>
      Resolve(TextCandidates(data)) == FirstTruthy(Candidates(PixDoc(data), NestedTextKeys)).value
    ensures FirstTruthy(Candidates(PixDoc(data), NestedImageKeys)).Some? ==>
      Resolve(ImageCandidates(data)) == FirstTruthy(Candidates(PixDoc(data), NestedImageKeys)).value
    ensures FirstTruthy(Candidates(PixDoc(data), NestedTextKeys)).None? ==>
      Resolve(TextCandidates(data)) == Resolve(Candidates(data, TopTextKeys))
    ensures FirstTruthy(Candidates(PixDoc(data), NestedImageKeys)).None? ==>
      Resolve(ImageCandidates(data)) == Resolve(Candidates(data, TopImageKeys))
  {
    FirstTruthyAppend(Candidates(PixDoc(data), NestedTextKeys), Candidates(data, TopTextKeys));
    FirstTruthyAppend(Candidates(PixDoc(data), NestedImageKeys), Candidates(data, TopImageKeys));
  }

  /** How the image source is chosen: an `http` or `data:` value is kept, any
      other string becomes a base64 PNG data URI, and with no image the code
      is sent to the QR rendering service. A truthy non-string image throws. */
  lemma ImageChoice(data: Json)
    ensures var text := Resolve(TextCandidates(data));
      var image := Resolve(ImageCandidates(data));
      var r := ExtractPixData(data);
      && (r.ImageTypeError? <==> (Truthy(Some(image)) && !image.Str?))
      && ((image.Str? && image.s != "" && (StartsWith(image.s, "http") || StartsWith(image.s, "data:")))
          ==> r.Extracted? && r.info.qrcode == image.s)
      && ((image.Str? && image.s != "" && !StartsWith(image.s, "http") && !StartsWith(image.s, "data:"))
          ==> r.Extracted? && r.info.qrcode == DataUriPrefix + image.s)
      && ((!Truthy(Some(image)) && Truthy(Some(text)))
          ==> r.Extracted? && r.info.qrcode == QrServerUrl + EncodeUriComponent(ToJsString(text)))
  {
  }

  /** The order id is the first truthy of `order_id`, `id`, `charge_id`,
      and absent when none is. */
  lemma OrderIdChoice(data: Json)
    requires ExtractPixData(data).Extracted?
    ensures var id := ExtractPixData(data).info.orderId;
      && (id.None? <==> forall i :: 0 <= i < |OrderIdKeys| ==> !Truthy(Get(data, OrderIdKeys[i])))
      && (id.Some? ==> exists i :: 0 <= i < |OrderIdKeys| && Get(data, OrderIdKeys[i]) == id
                         && forall j :: 0 <= j < i ==> !Truthy(Get(data, OrderIdKeys[j])))
  {
    var c := Candidates(data, OrderIdKeys);
    var id := FirstTruthy(c);
    if id.Some? {
      var i :| 0 <= i < |c| && c[i] == id && forall j :: 0 <= j < i ==> !Truthy(c[j]);
      assert Get(data, OrderIdKeys[i]) == id;
    }
  }

  // ------------------------------------------------------------ errors

  const FallbackError := "Erro ao processar pagamento. Verifique seus dados e tente novamente."

  /** `Object.values(errors)`. */
  function ErrorLists(errors: seq<(string, seq<string>)>): (r: seq<seq<string>>)
    ensures |r| == |errors| && forall i :: 0 <= i < |errors| ==> r[i] == errors[i].1
  {
    seq(|errors|, i requires 0 <= i < |errors| => errors[i].1)
  }

  /** `formatApiError`: a non-empty message wins; otherwise every field's
      messages joined by ". "; otherwise a fixed fallback. */
  function FormatApiError(response: ChargeResponse): (r: string)
    ensures response.message.Some? && response.message.value != "" ==> r == response.message.value
    ensures (response.message.None? || response.message.value == "") ==>
      if response.errors.Some? && Flatten(ErrorLists(response.errors.value)) != []
      then r == Join(Flatten(ErrorLists(response.errors.value)), ". ")
      else r == FallbackError
  {
    if response.message.Some? && response.message.value != "" then response.message.value
    else if response.errors.Some? && Flatten(ErrorLists(response.errors.value)) != [] then
      Join(Flatten(ErrorLists(response.errors.value)), ". ")
    else FallbackError
  }

  /** `s` holds `t` at offset `k`. */
  predicate OccursAt(s: string, t: string, k: nat) {
    k + |t| <= |s| && s[k..k + |t|] == t
  }

  /** Every item of a join occurs in it. */
  lemma {:induction false} JoinContainsItem(xs: seq<string>, sep: string, i: nat)
    requires i < |xs|
    ensures exists k: nat :: OccursAt(Join(xs, sep), xs[i], k)
    decreases |xs|
  {
    if |xs| == 1 {
      assert OccursAt(Join(xs, sep), xs[i], 0);
    } else if i == 0 {
      assert Join(xs, sep) == xs[0] + (sep + Join(xs[1..], sep));
      assert OccursAt(Join(xs, sep), xs[i], 0);
    } else {
      JoinContainsItem(xs[1..], sep, i - 1);
      var k: nat :| OccursAt(Join(xs[1..], sep), xs[1..][i - 1], k);
      var off := |xs[0]| + |sep|;
      assert Join(xs, sep) == (xs[0] + sep) + Join(xs[1..], sep);
      assert Join(xs, sep)[off + k..off + k + |xs[i]|] == Join(xs[1..], sep)[k..k + |xs[i]|];
      assert OccursAt(Join(xs, sep), xs[i], off + k);
    }
  }

  /** Membership in a flattened list is membership in one of its lists. */
  lemma {:induction false} FlattenHas<T>(xss: seq<seq<T>>, i: nat, j: nat)
    requires i < |xss| && j < |xss[i]|
    ensures exists n :: 0 <= n < |Flatten(xss)| && Flatten(xss)[n] == xss[i][j]
  {
    if i == 0 {
      assert Flatten(xss)[j] == xss[0][j];
    } else {
      FlattenHas(xss[1..], i - 1, j);
      var n :| 0 <= n < |Flatten(xss[1..])| && Flatten(xss[1..])[n] == xss[1..][i - 1][j];
      assert Flatten(xss)[|xss[0]| + n] == xss[i][j];
    }
  }

  /** Without a message, every field error appears in the text shown. */
  lemma FormatApiErrorShowsEveryError(response: ChargeResponse, i: nat, j: nat)
    requires response.message.None? || response.message.value == ""
    requires response.errors.Some? && i < |response.errors.value| && j < |response.errors.value[i].1|
    ensures exists k: nat :: OccursAt(FormatApiError(response), response.errors.value[i].1[j], k)
  {
    var lists := ErrorLists(response.errors.value);
    FlattenHas(lists, i, j);
    var n :| 0 <= n < |Flatten(lists)| && Flatten(lists)[n] == lists[i][j];
    assert FormatApiError(response) == Join(Flatten(lists), ". ");
    JoinContainsItem(Flatten(lists), ". ", n);
  }

  /** The text is empty in one case only: no message, and the field errors
      consist of a single empty string. */
  lemma FormatApiErrorEmptyIff(response: ChargeResponse)
    ensures FormatApiError(response) == "" <==>
      (response.message.None? || response.message.value == "")
      && response.errors.Some? && Flatten(ErrorLists(response.errors.value)) == [""]
  {
    if response.errors.Some? {
      JoinEmptyIff(Flatten(ErrorLists(response.errors.value)), ". ");
    }
  }
}
