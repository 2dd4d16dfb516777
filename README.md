# Storefront checkout, modelled in Dafny

The storefront sells through a single checkout page. The page collects the
buyer's name, e-mail, CPF (the Brazilian taxpayer number), phone and CEP
(postal code). It looks the CEP up with the viaCEP service and offers two
shipping options. Payment is either a card, which is always declined after a
short wait, or Pix, the Brazilian instant-payment scheme. A Pix payment is
charged through the Fruitfy gateway. The browser never calls the gateway
directly: it posts to a small serverless route, which adds the store's
credentials and passes the gateway's answer back.

The project models three parts of that system.

- **The checkout page** (`pages/Checkout.tsx`):
  - the field validators, including the módulo-11 CPF check digits, and the six input masks (modules `Validators` and `Masks`);
  - the page state and its event handlers, as the class `Checkout.CheckoutFlow`.
    - Answers from the network and from timers arrive as method calls: `CepLookupSettled`, `PixChargeSettled`, `CardDeclineTimeout` and `CopiedTimeout`.
    - Every method is tied to a transition function on `FlowState` values. Lemmas state what each transition promises.
    - The invariant `Consistent` holds in every state the events reach.
    - `CepChanged`, `FillAddress`, `RejectCep`, `FinishLookup`, `Submit`, `ShowGateFailure`, `StartPixCharge`, `ShowPix` and `ReturnToForm` are internal steps of the event methods, one per state update of the handlers. They are never events of their own, and all but `Submit` leave the invariant to the event method that calls them.
- **The gateway client** (`services/fruitfyApi.ts`), module `Gateway`:
  - the build-time configuration;
  - the charge-request body and its headers;
  - the extraction of the QR code and the copy-and-paste code from the gateway's answer;
  - the error text shown when the gateway refuses a charge.
- **The charge route** (`api/pix/charge.js`), module `ChargeProxy`:
  - the decision table `Handle`;
  - the response object as a class;
  - the `Handler` method, which writes the reply `Handle` describes into that object.

Supporting modules:
- `Text`: JavaScript's digit stripping, `trim`, `join` and `flat`.
- `JsonValues`: JSON values with JavaScript truthiness, property reads and `String()`.
- `Uri`: `encodeURIComponent` over UTF-8.
- `Wrappers`: `Option`.

Money is in centavos throughout.

## Model

| member | source | states |
|---|---|---|
| Validators.EmailShapeIffPattern | pages/Checkout.tsx:25-28 | The positional e-mail check accepts exactly the strings of the form local@host.tld, where the parts have no whitespace and no '@' and the tld is at least two UTF-16 code units long |
| Validators.EmailShapeMatches | pages/Checkout.tsx:27 | Every string the positional check accepts splits into the three parts the pattern requires |
| Validators.PatternHasEmailShape | pages/Checkout.tsx:27 | Every string the pattern matches passes the positional check |
| Validators.ValidateEmail | pages/Checkout.tsx:25-28 | An e-mail is valid exactly when its trimmed text matches the pattern |
| Validators.ValidatePhone | pages/Checkout.tsx:31-34 | A phone is valid exactly when it holds 10 or 11 digits |
| Validators.AstralTldAccepted | pages/Checkout.tsx:27 | The pattern counts UTF-16 code units: a tld of one emoji, two code units, is accepted |
| Validators.ValidEmailHasOneAt | pages/Checkout.tsx:25-28 | A valid e-mail, once trimmed, holds exactly one '@' and no whitespace |
| Validators.ValidateEmailIgnoresSurroundingSpace | pages/Checkout.tsx:27 | The verdict is the same for the input and for its trimmed form |
| Validators.CheckDigit | pages/Checkout.tsx:45-46 | A check digit is always 0..9: the remainder 10 becomes 0 |
| Validators.ValidateCpf | pages/Checkout.tsx:37-55 | The two accumulating loops return exactly the reference verdict: 11 digits, not all equal, and both check digits matching |
| Validators.CpfVerdictDependsOnlyOnDigits | pages/Checkout.tsx:38 | A formatted CPF and its bare digits get the same verdict |
| Validators.CompleteCpf | pages/Checkout.tsx:43-53 | The base completed with its two check digits is 11 digits that start with the base |
| Validators.CheckDigitsDetermined | pages/Checkout.tsx:43-53 | An 11-digit string passes both checksums exactly when it equals the completion of its first nine digits |
| Validators.WeightedSumOfRepeated | pages/Checkout.tsx:43-53 | For repeated digits, the weighted sum is the digit times the sum of the weights |
| Validators.RepeatedDigitsPassChecksums | pages/Checkout.tsx:40-41 | Strings of one repeated digit pass both checksums, so only the explicit rule refuses them |
| Validators.CompletionIsValid | pages/Checkout.tsx:37-55 | Every nine-digit base with two different digits has a valid completion |
| Validators.BareCpfValid | pages/Checkout.tsx:37-55 | Eleven digits, not all equal, that pass both checksums are valid |
| Validators.CheckDigitFromDivision | pages/Checkout.tsx:45 | The check digit is the remainder of ten times the sum divided by 11 |
| Validators.SampleCpfValid | pages/Checkout.tsx:37-55 | 52998224725 is a valid CPF |
| Validators.RepeatedDigitsRefused | pages/Checkout.tsx:41 | Any input whose digits are all equal is refused, whatever its separators |
| Validators.RepeatedCpfRefused | pages/Checkout.tsx:40-41 | 11111111111 is refused |
| Masks.MaskCpf | pages/Checkout.tsx:58-64 | The masked CPF has at most 14 characters |
| Masks.MaskPhone | pages/Checkout.tsx:66-71 | The masked phone has at most 15 characters |
| Masks.MaskCep | pages/Checkout.tsx:73-77 | The masked CEP has at most 9 characters |
| Masks.MaskCardNumber | pages/Checkout.tsx:79-82 | The masked card number has at most 19 characters |
| Masks.MaskCardExpiry | pages/Checkout.tsx:84-88 | The masked expiry has at most 5 characters |
| Masks.MaskCvv | pages/Checkout.tsx:90-92 | The masked CVV has at most 4 characters |
| Masks.MaskCpfDigits | pages/Checkout.tsx:58-64 | The digits of the masked CPF are the first 11 digits typed |
| Masks.MaskPhoneDigits | pages/Checkout.tsx:66-71 | The digits of the masked phone are the first 11 digits typed |
| Masks.MaskCepDigits | pages/Checkout.tsx:73-77 | The digits of the masked CEP are the first 8 digits typed |
| Masks.MaskCardNumberDigits | pages/Checkout.tsx:79-82 | The digits of the masked card number are the first 16 digits typed |
| Masks.MaskCardExpiryDigits | pages/Checkout.tsx:84-88 | The digits of the masked expiry are the first 4 digits typed |
| Masks.MaskCvvDigits | pages/Checkout.tsx:90-92 | The digits of the masked CVV are the first 4 digits typed |
| Masks.GroupsOfFourShape | pages/Checkout.tsx:81 | Grouping digits puts a space at exactly every fifth position and a digit everywhere else, adding one space per full group of four after the first |
| Masks.GroupsOfFourDigits | pages/Checkout.tsx:81 | Grouping keeps exactly the digits it was given |
| Masks.MaskCpfIdempotent | pages/Checkout.tsx:58-64 | Masking a masked CPF changes nothing |
| Masks.MaskPhoneIdempotent | pages/Checkout.tsx:66-71 | Masking a masked phone changes nothing |
| Masks.MaskCepIdempotent | pages/Checkout.tsx:73-77 | Masking a masked CEP changes nothing |
| Masks.MaskCardNumberIdempotent | pages/Checkout.tsx:79-82 | Masking a masked card number changes nothing |
| Masks.MaskCardExpiryIdempotent | pages/Checkout.tsx:84-88 | Masking a masked expiry changes nothing |
| Masks.MaskCvvIdempotent | pages/Checkout.tsx:90-92 | Masking a masked CVV changes nothing |
| Masks.MaskCpfLayout | pages/Checkout.tsx:63 | The CPF comes out as 000.000.000-00 exactly when at least 11 digits were typed |
| Masks.MaskPhoneLayout | pages/Checkout.tsx:70 | The phone comes out as (00) 00000-0000 exactly when at least 11 digits were typed |
| Masks.MaskCepLayout | pages/Checkout.tsx:76 | The CEP comes out as 00000-000 exactly when at least 8 digits were typed |
| Masks.MaskPhoneAreaCode | pages/Checkout.tsx:68 | No digits give ""; one or two digits give "(" followed by them |
| Masks.MaskPhoneTenDigits | pages/Checkout.tsx:70 | Ten digits still get five digits before the hyphen, so a landline renders as (00) 00000-000 |
| Masks.MaskCardNumberLayout | pages/Checkout.tsx:79-82 | The card number is groups of four digits with one space between groups and none at either end; 16 digits give 19 characters |
| Masks.MaskCardExpiryLayout | pages/Checkout.tsx:86-87 | A slash stands third exactly when three or more digits were typed |
| Masks.MaskedPhoneValid | pages/Checkout.tsx:31-71 | A masked phone passes the phone check exactly when at least ten digits were typed |
| Masks.MaskedCpfVerdict | pages/Checkout.tsx:37-64 | Masking keeps the CPF verdict of the first 11 digits, and of the whole input when it has at most 11 digits |
| Checkout.OrderTotalShipping | pages/Checkout.tsx:112-118 | Shipping never lowers the total; only a validated CEP with express shipping adds R$ 19,73 |
| Checkout.Judge | pages/Checkout.tsx:210-230 | Each verdict is its field's check: name trimmed to at least 3 UTF-16 code units, e-mail, phone, CPF, validated CEP |
| Checkout.FirstFailedGate | pages/Checkout.tsx:210-230 | The order stops at a failing check exactly when one fails, and every earlier check passed |
| Checkout.FailedGateMeaning | pages/Checkout.tsx:210-230 | Each check, spelled out, stops the order exactly when every earlier check passed and it fails; the name check counts UTF-16 code units |
| Checkout.AstralNamePasses | pages/Checkout.tsx:210 | A name of two emoji, four UTF-16 code units, passes the name check |
| Checkout.GateMessagesDistinct | pages/Checkout.tsx:211-228 | Different checks show different messages |
| Checkout.ReadCharge | pages/Checkout.tsx:186-198 | Payment data read off an answer always has an `http` or `data:` image source |
| Checkout.ReadChargeCases | pages/Checkout.tsx:186-202 | Payment data comes back exactly on success with truthy data that yields an extraction; the gateway's text comes back exactly on a refusal |
| Checkout.ReadLookupCases | pages/Checkout.tsx:135-155 | A failure or a `null` document fails, a truthy `erro` means not found, and otherwise the four address fields are taken, each defaulting to "" |
| Checkout.FieldText | pages/Checkout.tsx:144-147 | A falsy field reads as ""; a non-empty string field reads as itself |
| Checkout.Initial | pages/Checkout.tsx:97-116 | The initial state is consistent, shows the form and has Pix selected |
| Checkout.CpfEditedConsistent | pages/Checkout.tsx:389-398 | Editing the CPF keeps the state consistent |
| Checkout.CepEditedConsistent | pages/Checkout.tsx:130-161 | Editing the CEP keeps the state consistent |
| Checkout.LookupSettledConsistent | pages/Checkout.tsx:137-156 | A lookup settling keeps the state consistent |
| Checkout.SubmittedConsistent | pages/Checkout.tsx:208-240 | Submitting the form keeps the state consistent |
| Checkout.ChargeAnsweredConsistent | pages/Checkout.tsx:186-205 | A charge being answered keeps the state consistent |
| Checkout.RetriedConsistent | pages/Checkout.tsx:270 | The Pix recovery keeps the state consistent |
| Checkout.GateFailureStops | pages/Checkout.tsx:210-230 | A failed check sets the message of the first check that failed and changes nothing else, except that a CPF failure also flags the CPF input |
| Checkout.CardOrderDeclined | pages/Checkout.tsx:231-236 | A card order clears the error, waits on the processing screen for the decline timer and sends no charge |
| Checkout.PixOrderCharged | pages/Checkout.tsx:231-238 | A Pix order sends exactly one charge request, built from the form, for the total with shipping |
| Checkout.PassedChecksCharge | pages/Checkout.tsx:210-232 | A form that passes every check gives a body with an 11-digit valid CPF, a valid phone, a name of at least 3 UTF-16 code units, a valid e-mail and one item for the whole amount |
| Checkout.ChargeAnsweredEffects | pages/Checkout.tsx:186-205 | The Pix screen comes exactly with payment data. Every other answer returns to the form with an error, and only a refusal shows the gateway's text; the error text is non-empty unless a refusal brought an empty text. The processing flag always ends false |
| Checkout.RefusalShowsGatewayText | pages/Checkout.tsx:195-197 | A refusal shows `formatApiError` of the answer, which is the gateway's own message when it sent one; the text is empty exactly when there is no message and the field errors are one empty string |
| Checkout.RetryCharges | pages/Checkout.tsx:270 | The recovery switches to Pix and sends a charge for the current total without running the checks again |
| Checkout.CpfEditFlag | pages/Checkout.tsx:389-398 | The CPF input is flagged exactly when at least 11 digits were typed and the first 11 fail the check; the stored digits are the first 11 typed |
| Checkout.CepEditEffects | pages/Checkout.tsx:130-161 | An edit the mask absorbs does nothing. Fewer than 8 digits clears the validation and the error. Eight digits start a lookup for those digits and keep the validation as it was |
| Checkout.LookupOutcomes | pages/Checkout.tsx:137-156 | "Not found" and failures unvalidate with their message. An address validates the CEP and fills street, neighbourhood, city and state, keeping number and complement. The spinner always stops |
| Checkout.StaleLookupValidates | pages/Checkout.tsx:130-161 | A lookup that settles after the CEP was shortened still validates the shortened CEP |
| Checkout.OrderTotal | pages/Checkout.tsx:118 | The total equals the cart total exactly when the CEP is not validated or the shipping is free |
| Checkout.ReadLookup | pages/Checkout.tsx:137-156 | A failed lookup is a failure, and an address comes only from an answer without `erro` |
| Checkout.CpfEdited | pages/Checkout.tsx:389-398 | The CPF becomes the masked input; only the CPF and its flag change |
| Checkout.CepEffect | pages/Checkout.tsx:130-161 | The effect clears the CEP error and changes nothing but the search flag, the validation, the error and the lookups |
| Checkout.CepEdited | pages/Checkout.tsx:130-161 | The CEP becomes the masked input; the form, the address and the screen are kept |
| Checkout.LookupSettled | pages/Checkout.tsx:137-156 | The spinner stops and exactly the settled lookup leaves the pending ones; CEP, form and screen are kept |
| Checkout.ChargeStarted | pages/Checkout.tsx:171-184 | The processing flag is set and one request is appended; nothing else changes |
| Checkout.Submitted | pages/Checkout.tsx:208-240 | A failed check keeps the screen and sends nothing; passing every check moves to processing with no error; the form is kept |
| Checkout.ChargeAnswered | pages/Checkout.tsx:186-205 | The processing flag ends false; form, CEP and the requests sent are kept |
| Checkout.Retried | pages/Checkout.tsx:270 | The recovery selects Pix, shows the processing screen and sets the processing flag; the form is kept |
| Checkout.CheckoutFlow.CepChanged | pages/Checkout.tsx:130-161 | The state becomes `CepEffect` of the old state |
| Checkout.CheckoutFlow.FillAddress | pages/Checkout.tsx:142-149 | The four looked-up fields fill the address, number and complement are kept, and the CEP is validated; nothing else changes |
| Checkout.CheckoutFlow.RejectCep | pages/Checkout.tsx:137-155 | The message is shown and the CEP left unvalidated; nothing else changes |
| Checkout.CheckoutFlow.FinishLookup | pages/Checkout.tsx:155 | The spinner stops and the pending lookups become the rest; nothing else changes |
| Checkout.CheckoutFlow.Submit | pages/Checkout.tsx:208-240 | The state becomes `Submitted` of the old state, and the invariant holds |
| Checkout.CheckoutFlow.ShowGateFailure | pages/Checkout.tsx:210-230 | The failed check's message is shown, and a failed CPF check also flags the CPF input; nothing else changes |
| Checkout.CheckoutFlow.ShowPix | pages/Checkout.tsx:186-205 | The payment data is stored, the Pix screen shown and the processing flag cleared; nothing else changes |
| Checkout.CheckoutFlow.ReturnToForm | pages/Checkout.tsx:186-205 | The message is shown, the form screen returns and the processing flag is cleared; nothing else changes |
| Checkout.CheckoutFlow.constructor | pages/Checkout.tsx:94-116 | The page starts in the initial state with the cart total and configuration it was given |
| Checkout.CheckoutFlow.EditName | pages/Checkout.tsx:381 | Only the name changes |
| Checkout.CheckoutFlow.EditEmail | pages/Checkout.tsx:385 | Only the e-mail changes |
| Checkout.CheckoutFlow.EditCpf | pages/Checkout.tsx:389-398 | The new state is `CpfEdited`, and the invariant holds |
| Checkout.CheckoutFlow.EditPhone | pages/Checkout.tsx:403 | Only the phone changes, to its masked value |
| Checkout.CheckoutFlow.EditCep | pages/Checkout.tsx:130-161 | The new state is `CepEdited`, and the invariant holds |
| Checkout.CheckoutFlow.CepLookupSettled | pages/Checkout.tsx:137-156 | The new state is `LookupSettled` of the reply read off the answer, and the invariant holds |
| Checkout.CheckoutFlow.EditAddress | pages/Checkout.tsx:422-442 | Only the edited address field changes |
| Checkout.CheckoutFlow.SelectShipping | pages/Checkout.tsx:453 | Only the shipping choice changes |
| Checkout.CheckoutFlow.SelectPaymentMethod | pages/Checkout.tsx:479-487 | Only the payment method changes |
| Checkout.CheckoutFlow.StartPixCharge | pages/Checkout.tsx:171-184 | The processing flag is set and one charge body for the total with shipping is sent |
| Checkout.CheckoutFlow.CheckForm | pages/Checkout.tsx:210-230 | Returns the first check that fails, in order, and changes nothing |
| Checkout.CheckoutFlow.ProcessOrder | pages/Checkout.tsx:208-240 | Returns the first failed check of the form as it was, moves to the state `Submitted` describes, and keeps the invariant |
| Checkout.CheckoutFlow.PixChargeSettled | pages/Checkout.tsx:186-205 | The new state is `ChargeAnswered` of the reply read off the answer, and the invariant holds |
| Checkout.CheckoutFlow.CardDeclineTimeout | pages/Checkout.tsx:236 | The decline timer moves to the card-failure screen |
| Checkout.CheckoutFlow.RetryWithPix | pages/Checkout.tsx:270 | The new state is `Retried`, and the invariant holds |
| Checkout.CheckoutFlow.CopyPix | pages/Checkout.tsx:163-169 | Writes the copy-and-paste code to the clipboard, sets the copied flag and starts one more copy timer |
| Checkout.CheckoutFlow.CopiedTimeout | pages/Checkout.tsx:167 | One pending copy timer fires and resets the copied flag |
| Checkout.CheckoutFlow.ConfirmPayment | pages/Checkout.tsx:340 | The cart is cleared and the success screen shown |
| Gateway.EnvOr | services/fruitfyApi.ts:11-14 | A missing or empty environment entry gives the default; otherwise the entry itself |
| Gateway.ConfigFromEnv | services/fruitfyApi.ts:11-14 | A non-empty entry is used as it is. The product id is never empty, and is 'produto-loja' exactly when it is unset or set to that; a missing token or store id is "" |
| Gateway.ChargeBody | services/fruitfyApi.ts:49-62 | Name and e-mail are trimmed; phone and CPF keep exactly their digits; the amount is the given centavos; one item of the product, worth the amount, quantity 1 |
| Gateway.CheckedCustomerBody | services/fruitfyApi.ts:49-62 | A customer who passed the checks gives a body whose fields pass them too, with an 11-digit CPF and a 10- or 11-digit phone |
| Gateway.ClientHeaders | services/fruitfyApi.ts:66-75 | JSON content type, JSON accept and `pt_BR` are always sent; the credentials are sent exactly in a development build |
| Gateway.CreatePixCharge | services/fruitfyApi.ts:45-85 | A POST of the charge body to `/api/pix/charge`. The headers are JSON content type and accept plus `pt_BR`, and `Authorization: Bearer <token>` and `Store-Id` exactly in a development build |
| Gateway.FirstTruthy | services/fruitfyApi.ts:107-128 | The chain of alternatives gives the first truthy candidate, or nothing when none is truthy |
| Gateway.FirstTruthyAppend | services/fruitfyApi.ts:107-128 | The chain over two parts takes from the first part whenever that part has a truthy value |
| Gateway.Candidates | services/fruitfyApi.ts:107-128 | The candidates are the document's values under each alias, in order |
| Gateway.PixDoc | services/fruitfyApi.ts:104 | The nested document is `data.pix` when truthy, otherwise an empty object |
| Gateway.Resolve | services/fruitfyApi.ts:107-128 | The chain ending in the empty-string default gives the first truthy alias, otherwise "" |
| Gateway.QrcodeSource | services/fruitfyApi.ts:133-140 | The image source is never empty and starts with "http" or "data:" |
| Gateway.ExtractPixData | services/fruitfyApi.ts:102-150 | An extraction has a non-empty `http` or `data:` image, and its code is the resolved text unchanged |
| Gateway.NoPixDataIff | services/fruitfyApi.ts:107-130 | There is no payment data exactly when every text alias and every image alias is missing or falsy |
| Gateway.NestedAliasesWin | services/fruitfyApi.ts:104-128 | A truthy alias under `pix` beats every top-level alias, for the text and the image alike; otherwise the top level decides |
| Gateway.ImageChoice | services/fruitfyApi.ts:119-140 | `http`/`data:` images are kept, other strings get the base64 PNG data URI prefix of section 3 of RFC 2397, and a missing image becomes the QR service URL with the encoded text. A truthy non-string image throws |
| Gateway.OrderIdChoice | services/fruitfyApi.ts:143 | The order id is the first truthy of `order_id`, `id` and `charge_id`, and absent when none is |
| Gateway.ErrorLists | services/fruitfyApi.ts:158 | The error lists are the fields' lists in field order |
| Gateway.FormatApiError | services/fruitfyApi.ts:155-164 | A non-empty message wins; otherwise the non-empty flattened errors joined by ". "; otherwise the fixed fallback |
| Gateway.FormatApiErrorShowsEveryError | services/fruitfyApi.ts:157-161 | Without a message, every field error occurs in the text shown |
| Gateway.FormatApiErrorEmptyIff | services/fruitfyApi.ts:155-164 | The text is empty only when there is no message and the errors flatten to a single empty string |
| Gateway.JoinContainsItem | services/fruitfyApi.ts:160 | Every item of a join occurs in it |
| Gateway.FlattenHas | services/fruitfyApi.ts:159 | Every element of an inner list occurs in the flattened list |
| ChargeProxy.Failure | api/pix/charge.js:21-57 | The envelope has `success: false` and the given message |
| ChargeProxy.GatewayHeaders | api/pix/charge.js:39-45 | Exactly the bearer token, the store id, JSON content type and accept, and `pt_BR` |
| ChargeProxy.Handle | api/pix/charge.js:11-58 | Every reply carries the three CORS headers; the gateway is called exactly for a POST with both credentials present |
| ChargeProxy.PreflightAnswered | api/pix/charge.js:17-19 | OPTIONS is answered 200 with an empty body and no gateway call |
| ChargeProxy.OtherMethodsRefused | api/pix/charge.js:21-23 | Any other method but POST gets 405 `Method not allowed`, whatever the configuration and the gateway |
| ChargeProxy.MissingCredentialsRefused | api/pix/charge.js:25-34 | A missing token or store id gives 500 with the configuration message and no gateway call; every incomplete configuration gets the same reply |
| ChargeProxy.ForwardedCall | api/pix/charge.js:36-47 | The call is a POST to the fixed gateway URL with the request body unchanged and exactly the headers `GatewayHeaders` gives: the bearer token, the store id, JSON content type and accept, and `pt_BR` |
| ChargeProxy.ForwardIndependentOfAnswer | api/pix/charge.js:36-47 | The call made does not depend on the gateway's answer |
| ChargeProxy.AnswerPassedThrough | api/pix/charge.js:49-50 | A JSON answer is passed back with the gateway's own status |
| ChargeProxy.GatewayFailureEnveloped | api/pix/charge.js:51-57 | A network failure or a body that is not JSON gives 500 with the connection message |
| ChargeProxy.StatusOrigin | api/pix/charge.js:17-57 | Every status is 200, 405 or 500, or the gateway's own |
| ChargeProxy.ServerResponse.constructor | api/pix/charge.js:11 | A fresh response has no headers, status 200 and nothing sent |
| ChargeProxy.ServerResponse.SetHeader | api/pix/charge.js:13-15 | Sets one header and nothing else |
| ChargeProxy.ServerResponse.Status | api/pix/charge.js:17-57 | Sets the status and nothing else |
| ChargeProxy.ServerResponse.Json | api/pix/charge.js:21-57 | Sends the JSON body and finishes the response |
| ChargeProxy.ServerResponse.End | api/pix/charge.js:18 | Finishes the response with no body |
| ChargeProxy.Handler | api/pix/charge.js:11-58 | Writes into the response exactly the headers, status and body `Handle` describes, and makes exactly its gateway call |
| Uri.EncodeChar | services/fruitfyApi.ts:139 | A character is kept as itself exactly when it is unreserved; the output is never empty and uses only unreserved characters and escapes |
| Uri.EncodeUriComponent | services/fruitfyApi.ts:139 | The encoding uses only unreserved characters and escapes, and is empty only for "" |
| Uri.EncodeUnreservedUnchanged | services/fruitfyApi.ts:139 | A string of unreserved characters encodes to itself |
| Uri.Utf8 | services/fruitfyApi.ts:139 | A character is one to four bytes, and one byte exactly when it is ASCII |
| Text.Digits | pages/Checkout.tsx:32 | Stripping non-digits keeps only digits and never lengthens |
| Text.DigitsAppend | pages/Checkout.tsx:32 | Stripping distributes over concatenation |
| Text.DigitsIdempotent | services/fruitfyApi.ts:52-53 | Stripping a stripped string changes nothing |
| Text.Trim | pages/Checkout.tsx:27 | `trim()` removes JavaScript whitespace, and only whitespace, at both ends and keeps the middle as a contiguous part of the input |
| Text.Prefix | pages/Checkout.tsx:58-90 | `slice(0, n)` keeps the first `n` characters, or the whole string when it is shorter |
| Text.NatToString | services/fruitfyApi.ts:139 | `String()` of a non-negative integer is a non-empty string of digits, one digit exactly below 10 |
| Text.NatToStringValue | services/fruitfyApi.ts:139 | The rendering reads back as the number and has no leading zero |
| Text.IntToString | services/fruitfyApi.ts:139 | `String()` of an integer is non-empty and starts with '-' exactly when it is negative |
| Text.IntToStringValue | services/fruitfyApi.ts:139 | After the sign, the rendering is the digits of the magnitude with no leading zero |
| Text.JsLength | pages/Checkout.tsx:210 | `length` counts UTF-16 code units: between one and two per character |
| Text.JsLengthOfBmp | pages/Checkout.tsx:210 | `length` equals the character count exactly when no character lies outside the Basic Multilingual Plane |
| Text.TrimIdempotent | services/fruitfyApi.ts:50-51 | Trimming a trimmed string changes nothing |
| Text.JoinEmptyIff | services/fruitfyApi.ts:160 | A join with a non-empty separator is empty exactly for no items or one empty item |
| Text.Flatten | services/fruitfyApi.ts:159 | The flattened list is empty exactly when every inner list is empty |
| JsonValues.Lookup | services/fruitfyApi.ts:104-143 | A property read finds a member with that key, and nothing exactly when there is none |
| JsonValues.Get | services/fruitfyApi.ts:104-143 | Reading a property of a value that is not an object gives nothing |
| JsonValues.ToJsString | services/fruitfyApi.ts:139 | `String()` of a string is the string itself |

## Left out

- Rendering: all JSX and styling, the page-scroll effect (pages/Checkout.tsx:120-122) and the other pages and components. They only display the state modelled here.
- The empty-cart redirect (pages/Checkout.tsx:124-126) is navigation, not state. The cart and `totalPrice` come from the cart context, which is not part of this model; the page receives the cart total as a constructor argument.
- I/O is left out:
  - The viaCEP and gateway fetches, the clipboard write, `navigate` and `console.error` are not performed. Their results are method parameters (`LookupOutcome`, `ChargeOutcome`), and `CopyPix` returns the text it would write.
  - The 2800 ms and 3000 ms timers are the events `CardDeclineTimeout` and `CopiedTimeout`. The decline timer may fire only while it is scheduled, and a copy timer only while one of those copies started is pending (`copyTimers`).
- Floating point is left out. Prices are integer centavos: 19.73 is 1973. `Math.round(totalWithShipping * 100)` is therefore the exact centavo total, and float rounding is not modelled.
- Messages are the `Notice` values the state records, rather than strings. `Wording` gives each one's text; the gateway's text is kept as it came.
- Card data: the card inputs are kept only through their masks. The card's holder name, its upper-casing (pages/Checkout.tsx:547) and the card fields themselves are not state here, because nothing in the flow reads them.
- The browser's own `required` and `type="email"` checks are not modelled. The submit button's `disabled` condition (pages/Checkout.tsx:617) is the precondition of `ProcessOrder`.
- On JSON values:
  - `Object.values` is taken to enumerate fields in their insertion order. The integer-key ordering of JavaScript is not modelled.
  - Numbers are integers.
  - The gateway's answer is taken to match the TypeScript interface: `success` is a boolean, `message` a string and `errors` a record of string lists.
- `encodeURIComponent`'s URIError on a lone surrogate is not modelled. Each character is encoded by its code point.
- Strings are sequences of Unicode scalar values, so a lone surrogate half cannot occur. `length` and the e-mail pattern's counts are modelled in UTF-16 code units (`Text.JsLength`) for well-formed strings only.
- `Checkout.FieldText`: `String()` of a non-string value is modelled only as far as `JsonValues.ToJsString` goes. Its contract speaks only of missing and string fields.
- The response's JSON content type and the serialisation by `JSON.stringify` (api/pix/charge.js:46) are left out. The forwarded body is the parsed request body, unchanged.
- Where the code does less than one might expect, the model follows the code:
  - The route forwards the body unchanged and does not override the item id.
  - A gateway body that is not JSON becomes the 500 envelope; there is no raw-text fallback.
  - Lookups are not matched to the CEP they were started for (`Checkout.StaleLookupValidates`).
  - No in-flight flag or lock guards the submit handler. A second submission is prevented only because the step changes: once it is `payment_processing` the form is replaced by the processing screen (pages/Checkout.tsx:242-256), which the model states as `ProcessOrder`'s precondition `step == Form`. The button's `disabled` condition (pages/Checkout.tsx:617) depends only on the CEP state.
  - The e-mail pattern accepts any '.' that has at least one character between it and the '@' and at least two UTF-16 code units after it, not only the one before the last label.
  - A ten-digit phone is rendered with five digits before the hyphen (`Masks.MaskPhoneTenDigits`).
  - `formatApiError` can return "" (`Gateway.FormatApiErrorEmptyIff`).
