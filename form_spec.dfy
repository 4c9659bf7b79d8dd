/**
 * The form specification decoder: a JSON description of a payment method's
 * form, decoded into a list of field specifications. Each field object names
 * its kind in a "type" key; the payload is read from the same object. The
 * decoding follows Swift's synthesised `Decodable` rules: a missing optional
 * key or a null gives `nil`, a missing required key or a value of the wrong
 * type throws, and an unknown field kind stops the program.
 */
module FormSpec {
  import opened Common

  datatype Json =
    | JNull
    | JBool(b: bool)
    | JNumber(n: int)
    | JString(s: string)
    | JArray(items: seq<Json>)
    | JObject(fields: map<string, Json>)

  datatype DecodingError =
    | TypeMismatch(key: string)
    | KeyNotFound(key: string)
    | ValueNotFound(key: string)
    | DataCorrupted(key: string)

  /** What a decoding call does: return a value, throw an error the caller can
      catch, or trap (`fatalError`), which no caller survives. */
  datatype Decoded<+T> = Ok(value: T) | Thrown(error: DecodingError) | Fatal(message: string) {
    predicate IsFailure() {
      !Ok?
    }

    function PropagateFailure<U>(): Decoded<U>
      requires !Ok?
    {
      if Thrown? then Thrown(error) else Fatal(message)
    }

    function Extract(): T
      requires Ok?
    {
      value
    }
  }

  // ---------------------------------------------------------------------------
  // Localized label keys

  datatype LocalizedString =
    | IdealBank
    | EpsBank
    | P24Bank
    | NameLabelGiven
    | NameLabelFamily
    | NameLabelFull
    | NameLabelOnAccount

  /** Every raw key lives under the "upe.labels." namespace. */
  function RawValue(l: LocalizedString): (r: string)
    ensures "upe.labels." <= r
  {
    match l
    case IdealBank => "upe.labels.ideal.bank"
    case EpsBank => "upe.labels.eps.bank"
    case P24Bank => "upe.labels.p24.bank"
    case NameLabelGiven => "upe.labels.name.given"
    case NameLabelFamily => "upe.labels.name.family"
    case NameLabelFull => "upe.labels.name.full"
    case NameLabelOnAccount => "upe.labels.name.onAccount"
  }

  /** The label key for a raw string; only the seven raw keys are accepted. */
  function FromRawValue(raw: string): (r: Option<LocalizedString>)
    ensures r.Some? ==> RawValue(r.value) == raw
    ensures r.None? ==> forall l :: RawValue(l) != raw
  {
    match raw
    case "upe.labels.ideal.bank" => Some(IdealBank)
    case "upe.labels.eps.bank" => Some(EpsBank)
    case "upe.labels.p24.bank" => Some(P24Bank)
    case "upe.labels.name.given" => Some(NameLabelGiven)
    case "upe.labels.name.family" => Some(NameLabelFamily)
    case "upe.labels.name.full" => Some(NameLabelFull)
    case "upe.labels.name.onAccount" => Some(NameLabelOnAccount)
    case _ => None
  }

  lemma RawValueRoundTrip(l: LocalizedString)
    ensures FromRawValue(RawValue(l)) == Some(l)
  {
  }

  /** Which localized text a label shows: an entry of the shared string table,
      or a string localized in place from its English text. */
  datatype LocalizedText = SharedString(key: string) | InlineString(english: string, comment: string)

  /** The localized text of each label key: only the two bank labels are
      localized in place; the others come from the shared string table. */
  function LocalizedValue(l: LocalizedString): (r: LocalizedText)
    ensures r.InlineString? <==> l == EpsBank || l == P24Bank
    ensures r.InlineString? ==> r.comment == "Label title for " + r.english
  {
    match l
    case IdealBank => SharedString("ideal_bank")
    case EpsBank => InlineString("EPS Bank", "Label title for EPS Bank")
    case P24Bank => InlineString("Przelewy24 Bank", "Label title for Przelewy24 Bank")
    case NameLabelGiven => SharedString("given_name")
    case NameLabelFamily => SharedString("family_name")
    case NameLabelFull => SharedString("name")
    case NameLabelOnAccount => SharedString("nameOnAccount")
  }

  // ---------------------------------------------------------------------------
  // Field specifications

  datatype BaseFieldSpec = BaseFieldSpec(apiPath: Option<map<string, string>>)

  datatype NameFieldSpec = NameFieldSpec(apiPath: Option<map<string, string>>, labelKey: Option<LocalizedString>)

  datatype PropertyItemSpec = PropertyItemSpec(displayText: string, apiValue: Option<string>)

  datatype SelectorSpec = SelectorSpec(
    labelKey: LocalizedString,
    items: seq<PropertyItemSpec>,
    apiPath: Option<map<string, string>>)

  datatype SofortBillingAddress = SofortBillingAddress(apiPath: Option<map<string, string>>, validCountryCodes: seq<string>)

  datatype FieldSpec =
    | Name(name: NameFieldSpec)
    | Email(email: BaseFieldSpec)
    | Selector(selector: SelectorSpec)
    | BillingAddress
    | AffirmHeader
    | KlarnaHeader
    | KlarnaCountry(klarnaCountry: BaseFieldSpec)
    | AuBecsBsbNumber(bsbNumber: BaseFieldSpec)
    | AuBecsAccountNumber(accountNumber: BaseFieldSpec)
    | AuBecsMandate
    | AfterpayHeader
    | SofortBillingAddressField(sofort: SofortBillingAddress)
    | Iban(iban: BaseFieldSpec)
    | SepaMandate

  datatype FormSpec = FormSpec(formType: string, async: Option<bool>, fields: seq<FieldSpec>)

  /** The 14 "type" strings the decoder's switch recognises, one per field kind. */
  predicate IsKnownTag(t: string) {
    || t == "name" || t == "email" || t == "selector" || t == "billing_address"
    || t == "affirm_header" || t == "klarna_header" || t == "klarna_country"
    || t == "au_becs_bsb_number" || t == "au_becs_account_number" || t == "au_becs_mandate"
    || t == "afterpay_header" || t == "sofort_billing_address" || t == "iban" || t == "sepa_mandate"
  }

  /** The tags whose payload is a `BaseFieldSpec`, and those without a payload. */
  const BaseFieldTags: set<string> := {"email", "klarna_country", "au_becs_bsb_number", "au_becs_account_number", "iban"}
  const PayloadFreeTags: set<string> :=
    {"billing_address", "affirm_header", "klarna_header", "au_becs_mandate", "afterpay_header", "sepa_mandate"}

  function TagOf(f: FieldSpec): (t: string)
    ensures IsKnownTag(t)
  {
    match f
    case Name(_) => "name"
    case Email(_) => "email"
    case Selector(_) => "selector"
    case BillingAddress => "billing_address"
    case AffirmHeader => "affirm_header"
    case KlarnaHeader => "klarna_header"
    case KlarnaCountry(_) => "klarna_country"
    case AuBecsBsbNumber(_) => "au_becs_bsb_number"
    case AuBecsAccountNumber(_) => "au_becs_account_number"
    case AuBecsMandate => "au_becs_mandate"
    case AfterpayHeader => "afterpay_header"
    case SofortBillingAddressField(_) => "sofort_billing_address"
    case Iban(_) => "iban"
    case SepaMandate => "sepa_mandate"
  }

  /** Fields of different kinds carry different tags. */
  lemma TagsDistinguishKinds(f: FieldSpec, g: FieldSpec)
    requires TagOf(f) == TagOf(g)
    ensures f.Name? == g.Name? && f.Email? == g.Email? && f.Selector? == g.Selector?
    ensures f.BillingAddress? == g.BillingAddress? && f.AffirmHeader? == g.AffirmHeader?
    ensures f.KlarnaHeader? == g.KlarnaHeader? && f.KlarnaCountry? == g.KlarnaCountry?
    ensures f.AuBecsBsbNumber? == g.AuBecsBsbNumber? && f.AuBecsAccountNumber? == g.AuBecsAccountNumber?
    ensures f.AuBecsMandate? == g.AuBecsMandate? && f.AfterpayHeader? == g.AfterpayHeader?
    ensures f.SofortBillingAddressField? == g.SofortBillingAddressField?
    ensures f.Iban? == g.Iban? && f.SepaMandate? == g.SepaMandate?
  {
  }

  // ---------------------------------------------------------------------------
  // Reading keys of a JSON object

  /** `decodeIfPresent([String: String].self, forKey:)` */
  function DecodeStringMapIfPresent(obj: map<string, Json>, key: string): (r: Decoded<Option<map<string, string>>>)
    ensures r == Ok(None) <==> key !in obj || obj[key] == JNull
    ensures r.Ok? && r.value.Some? ==> key in obj && obj[key] == EncodeStringMap(r.value.value)
    ensures key in obj && obj[key].JObject? && (forall k :: k in obj[key].fields ==> obj[key].fields[k].JString?) ==> r.Ok?
    ensures r == Thrown(ValueNotFound(key)) <==> key in obj && obj[key].JObject? && JNull in obj[key].fields.Values
    ensures !r.Ok? ==> r == Thrown(ValueNotFound(key)) || r == Thrown(TypeMismatch(key))
  {
    if key !in obj || obj[key].JNull? then Ok(None)
    else match obj[key]
      case JObject(m) =>
        if forall k :: k in m ==> m[k].JString? then Ok(Some(map k | k in m :: m[k].s))
        else if JNull in m.Values then Thrown(ValueNotFound(key))
        else Thrown(TypeMismatch(key))
      case _ => Thrown(TypeMismatch(key))
  }

  /** `decode(String.self, forKey:)` */
  function DecodeString(obj: map<string, Json>, key: string): (r: Decoded<string>)
    ensures r.Ok? <==> key in obj && obj[key].JString?
    ensures r.Ok? ==> obj[key] == JString(r.value)
    ensures key !in obj ==> r == Thrown(KeyNotFound(key))
    ensures key in obj && obj[key] == JNull ==> r == Thrown(ValueNotFound(key))
    ensures !r.Fatal?
  {
    if key !in obj then Thrown(KeyNotFound(key))
    else match obj[key]
      case JString(s) => Ok(s)
      case JNull => Thrown(ValueNotFound(key))
      case _ => Thrown(TypeMismatch(key))
  }

  /** `decodeIfPresent(String.self, forKey:)` */
  function DecodeStringIfPresent(obj: map<string, Json>, key: string): (r: Decoded<Option<string>>)
    ensures r == Ok(None) <==> key !in obj || obj[key] == JNull
    ensures r.Ok? && r.value.Some? ==> key in obj && obj[key] == JString(r.value.value)
    ensures key in obj && obj[key].JString? ==> r == Ok(Some(obj[key].s))
    ensures !r.Ok? ==> r == Thrown(TypeMismatch(key))
  {
    if key !in obj || obj[key].JNull? then Ok(None)
    else match obj[key]
      case JString(s) => Ok(Some(s))
      case _ => Thrown(TypeMismatch(key))
  }

  /** `decodeIfPresent(Bool.self, forKey:)` */
  function DecodeBoolIfPresent(obj: map<string, Json>, key: string): (r: Decoded<Option<bool>>)
    ensures r == Ok(None) <==> key !in obj || obj[key] == JNull
    ensures r.Ok? && r.value.Some? ==> key in obj && obj[key] == JBool(r.value.value)
    ensures key in obj && obj[key].JBool? ==> r == Ok(Some(obj[key].b))
    ensures !r.Ok? ==> r == Thrown(TypeMismatch(key))
  {
    if key !in obj || obj[key].JNull? then Ok(None)
    else match obj[key]
      case JBool(b) => Ok(Some(b))
      case _ => Thrown(TypeMismatch(key))
  }

  /** A label key: a string that must be one of the seven raw keys. */
  function DecodeLocalizedString(obj: map<string, Json>, key: string): (r: Decoded<LocalizedString>)
    ensures r.Ok? <==> key in obj && obj[key].JString? && FromRawValue(obj[key].s).Some?
    ensures r.Ok? ==> key in obj && obj[key] == JString(RawValue(r.value))
    ensures DecodeString(obj, key).Thrown? ==> r == Thrown(DecodeString(obj, key).error)
    ensures key in obj && obj[key].JString? && FromRawValue(obj[key].s).None? ==> r == Thrown(DataCorrupted(key))
    ensures !r.Fatal?
  {
    var raw :- DecodeString(obj, key);
    match FromRawValue(raw)
    case Some(l) => Ok(l)
    case None => Thrown(DataCorrupted(key))
  }

  function DecodeLocalizedStringIfPresent(obj: map<string, Json>, key: string): (r: Decoded<Option<LocalizedString>>)
    ensures r == Ok(None) <==> key !in obj || obj[key] == JNull
    ensures r.Ok? && r.value.Some? ==> key in obj && obj[key] == JString(RawValue(r.value.value))
    ensures key in obj && obj[key].JString? && FromRawValue(obj[key].s).Some? ==> r == Ok(FromRawValue(obj[key].s))
    ensures key in obj && obj[key].JString? && FromRawValue(obj[key].s).None? ==> r == Thrown(DataCorrupted(key))
    ensures key in obj && obj[key] != JNull && !obj[key].JString? ==> r == Thrown(TypeMismatch(key))
    ensures !r.Fatal?
  {
    var raw :- DecodeStringIfPresent(obj, key);
    match raw
    case None => Ok(None)
    case Some(s) =>
      match FromRawValue(s)
      case Some(l) => Ok(Some(l))
      case None => Thrown(DataCorrupted(key))
  }

  /** `r` fails exactly when `d` does, and in the same way: the same error
      thrown, or the same trap. */
  predicate SameFailure<T, U>(r: Decoded<T>, d: Decoded<U>) {
    && (r.Thrown? <==> d.Thrown?) && (r.Thrown? && d.Thrown? ==> r.error == d.error)
    && (r.Fatal? <==> d.Fatal?) && (r.Fatal? && d.Fatal? ==> r.message == d.message)
  }

  /** `decode([Element].self, forKey:)`: a missing key, a null and a value that
      is no array each throw; an array is handed to the element-list decoder. */
  function DecodeArrayAt<T>(obj: map<string, Json>, key: string, decodeList: seq<Json> -> Decoded<T>): (r: Decoded<T>)
    ensures key !in obj ==> r == Thrown(KeyNotFound(key))
    ensures key in obj && obj[key] == JNull ==> r == Thrown(ValueNotFound(key))
    ensures key in obj && obj[key] != JNull && !obj[key].JArray? ==> r == Thrown(TypeMismatch(key))
    ensures key in obj && obj[key].JArray? ==> r == decodeList(obj[key].items)
  {
    if key !in obj then Thrown(KeyNotFound(key))
    else match obj[key]
      case JArray(js) => decodeList(js)
      case JNull => Thrown(ValueNotFound(key))
      case _ => Thrown(TypeMismatch(key))
  }

  /** An array decoded element by element with `decode`; the first element that
      fails decides the outcome. */
  function DecodeList<T>(items: seq<Json>, decode: Json -> Decoded<T>): (r: Decoded<seq<T>>)
    ensures r.Ok? <==> forall i :: 0 <= i < |items| ==> decode(items[i]).Ok?
    ensures r.Ok? ==> |r.value| == |items| && forall i :: 0 <= i < |items| ==> decode(items[i]) == Ok(r.value[i])
    ensures !r.Ok? ==>
              exists i :: 0 <= i < |items| && !decode(items[i]).Ok?
                          && (forall j :: 0 <= j < i ==> decode(items[j]).Ok?)
                          && SameFailure(r, decode(items[i]))
  {
    if items == [] then Ok([])
    else
      var first := decode(items[0]);
      if !first.Ok? then first.PropagateFailure()
      else
        var rest := DecodeList(items[1..], decode);
        assert forall i :: 1 <= i < |items| ==> items[i] == items[1..][i - 1];
        if rest.Ok? then Ok([first.value] + rest.value) else rest.PropagateFailure()
  }

  /** `[String]`: the first element that is not a string decides the error,
      value-not-found for a null and type-mismatch for anything else. */
  function DecodeStrings(items: seq<Json>, key: string): (r: Decoded<seq<string>>)
    ensures r.Ok? <==> forall i :: 0 <= i < |items| ==> items[i].JString?
    ensures r.Ok? ==> |r.value| == |items|
    ensures r.Ok? ==> forall i :: 0 <= i < |items| ==> items[i] == JString(r.value[i])
    ensures !r.Ok? ==>
              exists i :: 0 <= i < |items| && !items[i].JString? && (forall j :: 0 <= j < i ==> items[j].JString?)
                          && r == Thrown(if items[i] == JNull then ValueNotFound(key) else TypeMismatch(key))
  {
    if items == [] then Ok([])
    else match items[0]
      case JString(s) =>
        var rest := DecodeStrings(items[1..], key);
        assert forall i :: 1 <= i < |items| ==> items[i] == items[1..][i - 1];
        if rest.Ok? then Ok([s] + rest.value) else Thrown(rest.error)
      case JNull => Thrown(ValueNotFound(key))
      case _ => Thrown(TypeMismatch(key))
  }

  function DecodePropertyItem(item: Json): (r: Decoded<PropertyItemSpec>)
    ensures r.Ok? ==>
              item.JObject? && "displayText" in item.fields && item.fields["displayText"] == JString(r.value.displayText)
              && (r.value.apiValue.None? <==> "apiValue" !in item.fields || item.fields["apiValue"] == JNull)
              && (r.value.apiValue.Some? ==> item.fields["apiValue"] == JString(r.value.apiValue.value))
    ensures item.JObject? ==>
              (r.Ok? <==> DecodeString(item.fields, "displayText").Ok? && DecodeStringIfPresent(item.fields, "apiValue").Ok?)
    ensures item.JObject? && "displayText" !in item.fields ==> r == Thrown(KeyNotFound("displayText"))
    ensures item == JNull ==> r == Thrown(ValueNotFound("items"))
    ensures !item.JObject? && item != JNull ==> r == Thrown(TypeMismatch("items"))
    ensures !r.Fatal?
  {
    match item
    case JObject(obj) =>
      var displayText :- DecodeString(obj, "displayText");
      var apiValue :- DecodeStringIfPresent(obj, "apiValue");
      Ok(PropertyItemSpec(displayText, apiValue))
    case JNull => Thrown(ValueNotFound("items"))
    case _ => Thrown(TypeMismatch("items"))
  }

  /** `[PropertyItemSpec]`: element by element; the first item that fails
      decides the error. */
  function DecodePropertyItems(items: seq<Json>): (r: Decoded<seq<PropertyItemSpec>>)
    ensures r.Ok? <==> forall i :: 0 <= i < |items| ==> DecodePropertyItem(items[i]).Ok?
    ensures r.Ok? ==> |r.value| == |items|
    ensures r.Ok? ==> forall i :: 0 <= i < |items| ==> DecodePropertyItem(items[i]) == Ok(r.value[i])
    ensures !r.Ok? ==>
              exists i :: 0 <= i < |items| && !DecodePropertyItem(items[i]).Ok?
                          && (forall j :: 0 <= j < i ==> DecodePropertyItem(items[j]).Ok?)
                          && SameFailure(r, DecodePropertyItem(items[i]))
    ensures !r.Fatal?
  {
    DecodeList(items, DecodePropertyItem)
  }

  // ---------------------------------------------------------------------------
  // Payload decoders, each reading the same object as the tag

  function DecodeBaseFieldSpec(obj: map<string, Json>): (r: Decoded<BaseFieldSpec>)
    ensures r.Ok? ==> (r.value.apiPath.None? <==> "apiPath" !in obj || obj["apiPath"] == JNull)
    ensures r.Ok? && r.value.apiPath.Some? ==> obj["apiPath"] == EncodeStringMap(r.value.apiPath.value)
    ensures SameFailure(r, DecodeStringMapIfPresent(obj, "apiPath"))
    ensures !r.Fatal?
  {
    var apiPath :- DecodeStringMapIfPresent(obj, "apiPath");
    Ok(BaseFieldSpec(apiPath))
  }

  function DecodeNameFieldSpec(obj: map<string, Json>): (r: Decoded<NameFieldSpec>)
    ensures r.Ok? ==> (r.value.apiPath.None? <==> "apiPath" !in obj || obj["apiPath"] == JNull)
    ensures r.Ok? && r.value.apiPath.Some? ==> obj["apiPath"] == EncodeStringMap(r.value.apiPath.value)
    ensures r.Ok? ==> (r.value.labelKey.None? <==> "label" !in obj || obj["label"] == JNull)
    ensures r.Ok? && r.value.labelKey.Some? ==> obj["label"] == JString(RawValue(r.value.labelKey.value))
    ensures !DecodeStringMapIfPresent(obj, "apiPath").Ok? ==> SameFailure(r, DecodeStringMapIfPresent(obj, "apiPath"))
    ensures DecodeStringMapIfPresent(obj, "apiPath").Ok? ==> SameFailure(r, DecodeLocalizedStringIfPresent(obj, "label"))
    ensures !r.Fatal?
  {
    var apiPath :- DecodeStringMapIfPresent(obj, "apiPath");
    var labelKey :- DecodeLocalizedStringIfPresent(obj, "label");
    Ok(NameFieldSpec(apiPath, labelKey))
  }

  function DecodeSelectorSpec(obj: map<string, Json>): (r: Decoded<SelectorSpec>)
    ensures r.Ok? ==> "label" in obj && obj["label"] == JString(RawValue(r.value.labelKey))
    ensures r.Ok? ==>
              "items" in obj && obj["items"].JArray? && |r.value.items| == |obj["items"].items|
              && forall i :: 0 <= i < |r.value.items| ==> DecodePropertyItem(obj["items"].items[i]) == Ok(r.value.items[i])
    ensures r.Ok? ==> (r.value.apiPath.None? <==> "apiPath" !in obj || obj["apiPath"] == JNull)
    ensures r.Ok? && r.value.apiPath.Some? ==> obj["apiPath"] == EncodeStringMap(r.value.apiPath.value)
    ensures "label" !in obj ==> r == Thrown(KeyNotFound("label"))
    ensures !DecodeLocalizedString(obj, "label").Ok? ==> SameFailure(r, DecodeLocalizedString(obj, "label"))
    ensures DecodeLocalizedString(obj, "label").Ok? && !DecodeArrayAt(obj, "items", DecodePropertyItems).Ok? ==>
              SameFailure(r, DecodeArrayAt(obj, "items", DecodePropertyItems))
    ensures DecodeLocalizedString(obj, "label").Ok? && DecodeArrayAt(obj, "items", DecodePropertyItems).Ok? ==>
              SameFailure(r, DecodeStringMapIfPresent(obj, "apiPath"))
    ensures !r.Fatal?
  {
    var labelKey :- DecodeLocalizedString(obj, "label");
    var items :- DecodeArrayAt(obj, "items", DecodePropertyItems);
    var apiPath :- DecodeStringMapIfPresent(obj, "apiPath");
    Ok(SelectorSpec(labelKey, items, apiPath))
  }

  function DecodeSofortBillingAddress(obj: map<string, Json>): (r: Decoded<SofortBillingAddress>)
    ensures r.Ok? ==> (r.value.apiPath.None? <==> "apiPath" !in obj || obj["apiPath"] == JNull)
    ensures r.Ok? && r.value.apiPath.Some? ==> obj["apiPath"] == EncodeStringMap(r.value.apiPath.value)
    ensures r.Ok? ==>
              "validCountryCodes" in obj && obj["validCountryCodes"].JArray?
              && |r.value.validCountryCodes| == |obj["validCountryCodes"].items|
              && forall i :: 0 <= i < |r.value.validCountryCodes| ==>
                   obj["validCountryCodes"].items[i] == JString(r.value.validCountryCodes[i])
    ensures !DecodeStringMapIfPresent(obj, "apiPath").Ok? ==> SameFailure(r, DecodeStringMapIfPresent(obj, "apiPath"))
    ensures DecodeStringMapIfPresent(obj, "apiPath").Ok? ==>
              SameFailure(r, DecodeArrayAt(obj, "validCountryCodes", js => DecodeStrings(js, "validCountryCodes")))
    ensures !r.Fatal?
  {
    var apiPath :- DecodeStringMapIfPresent(obj, "apiPath");
    var codes :- DecodeArrayAt(obj, "validCountryCodes", js => DecodeStrings(js, "validCountryCodes"));
    Ok(SofortBillingAddress(apiPath, codes))
  }

  function Wrap<T>(d: Decoded<T>, make: T -> FieldSpec): (r: Decoded<FieldSpec>)
    ensures r.Fatal? == d.Fatal?
    ensures r.Ok? == d.Ok? && (r.Ok? ==> r.value == make(d.value))
  {
    match d
    case Ok(v) => Ok(make(v))
    case Thrown(e) => Thrown(e)
    case Fatal(m) => Fatal(m)
  }

  /** The payload of `f` is what its payload decoder reads from `obj`. */
  ghost predicate PayloadReadFrom(obj: map<string, Json>, f: FieldSpec) {
    match f
    case Name(n) => DecodeNameFieldSpec(obj) == Ok(n)
    case Email(b) => DecodeBaseFieldSpec(obj) == Ok(b)
    case Selector(sel) => DecodeSelectorSpec(obj) == Ok(sel)
    case KlarnaCountry(b) => DecodeBaseFieldSpec(obj) == Ok(b)
    case AuBecsBsbNumber(b) => DecodeBaseFieldSpec(obj) == Ok(b)
    case AuBecsAccountNumber(b) => DecodeBaseFieldSpec(obj) == Ok(b)
    case SofortBillingAddressField(sofort) => DecodeSofortBillingAddress(obj) == Ok(sofort)
    case Iban(b) => DecodeBaseFieldSpec(obj) == Ok(b)
    case _ => true
  }

  /** Builds the field of kind `fieldType` from the object's payload keys; a
      kind the decoder does not know traps. */
  function DecodeTaggedField(obj: map<string, Json>, fieldType: string): (r: Decoded<FieldSpec>)
    ensures r.Ok? ==> TagOf(r.value) == fieldType && PayloadReadFrom(obj, r.value)
    ensures r.Fatal? <==> !IsKnownTag(fieldType)
    ensures fieldType in PayloadFreeTags ==> r.Ok?
    ensures fieldType in BaseFieldTags ==> SameFailure(r, DecodeBaseFieldSpec(obj))
    ensures fieldType == "name" ==> SameFailure(r, DecodeNameFieldSpec(obj))
    ensures fieldType == "selector" ==> SameFailure(r, DecodeSelectorSpec(obj))
    ensures fieldType == "sofort_billing_address" ==> SameFailure(r, DecodeSofortBillingAddress(obj))
  {
    match fieldType
    case "name" => Wrap(DecodeNameFieldSpec(obj), n => Name(n))
    case "email" => Wrap(DecodeBaseFieldSpec(obj), b => Email(b))
    case "selector" => Wrap(DecodeSelectorSpec(obj), s => Selector(s))
    case "billing_address" => Ok(BillingAddress)
    case "affirm_header" => Ok(AffirmHeader)
    case "klarna_header" => Ok(KlarnaHeader)
    case "klarna_country" => Wrap(DecodeBaseFieldSpec(obj), b => KlarnaCountry(b))
    case "au_becs_bsb_number" => Wrap(DecodeBaseFieldSpec(obj), b => AuBecsBsbNumber(b))
    case "au_becs_account_number" => Wrap(DecodeBaseFieldSpec(obj), b => AuBecsAccountNumber(b))
    case "au_becs_mandate" => Ok(AuBecsMandate)
    case "afterpay_header" => Ok(AfterpayHeader)
    case "sofort_billing_address" => Wrap(DecodeSofortBillingAddress(obj), s => SofortBillingAddressField(s))
    case "iban" => Wrap(DecodeBaseFieldSpec(obj), b => Iban(b))
    case "sepa_mandate" => Ok(SepaMandate)
    case _ => Fatal("Unknown fieldType")
  }

  /** Decodes one field: the "type" string selects the kind and the payload
      comes from the same object. Only an unknown kind traps. */
  function DecodeFieldSpec(j: Json): (r: Decoded<FieldSpec>)
    ensures r.Ok? ==>
              j.JObject? && "type" in j.fields && j.fields["type"] == JString(TagOf(r.value))
              && PayloadReadFrom(j.fields, r.value)
    ensures r.Fatal? <==>
              j.JObject? && "type" in j.fields && j.fields["type"].JString? && !IsKnownTag(j.fields["type"].s)
    ensures j == JNull ==> r == Thrown(ValueNotFound(""))
    ensures !j.JObject? && j != JNull ==> r == Thrown(TypeMismatch(""))
    ensures j.JObject? && DecodeString(j.fields, "type").Thrown? ==> r == Thrown(DecodeString(j.fields, "type").error)
    ensures j.JObject? && "type" in j.fields && j.fields["type"].JString? ==>
              r == DecodeTaggedField(j.fields, j.fields["type"].s)
  {
    if j.JNull? then Thrown(ValueNotFound(""))
    else if !j.JObject? then Thrown(TypeMismatch(""))
    else
      var fieldType :- DecodeString(j.fields, "type");
      DecodeTaggedField(j.fields, fieldType)
  }

  /** `[FieldSpec]`: element by element; the first field that fails decides
      the outcome, so a field with an unknown kind traps the whole list. */
  function DecodeFieldSpecs(items: seq<Json>): (r: Decoded<seq<FieldSpec>>)
    ensures r.Ok? <==> forall i :: 0 <= i < |items| ==> DecodeFieldSpec(items[i]).Ok?
    ensures r.Ok? ==> |r.value| == |items|
    ensures r.Ok? ==> forall i :: 0 <= i < |items| ==> DecodeFieldSpec(items[i]) == Ok(r.value[i])
    ensures !r.Ok? ==>
              exists i :: 0 <= i < |items| && !DecodeFieldSpec(items[i]).Ok?
                          && (forall j :: 0 <= j < i ==> DecodeFieldSpec(items[j]).Ok?)
                          && SameFailure(r, DecodeFieldSpec(items[i]))
  {
    DecodeList(items, DecodeFieldSpec)
  }

  /** Decodes a whole form: its fields come out in the order of the JSON list. */
  function DecodeFormSpec(j: Json): (r: Decoded<FormSpec>)
    ensures r.Ok? ==>
              j.JObject? && "fields" in j.fields && j.fields["fields"].JArray?
              && |r.value.fields| == |j.fields["fields"].items|
              && forall i :: 0 <= i < |r.value.fields| ==>
                   DecodeFieldSpec(j.fields["fields"].items[i]) == Ok(r.value.fields[i])
    ensures r.Ok? ==>
              DecodeString(j.fields, "type") == Ok(r.value.formType)
              && DecodeBoolIfPresent(j.fields, "async") == Ok(r.value.async)
    ensures j == JNull ==> r == Thrown(ValueNotFound(""))
    ensures !j.JObject? && j != JNull ==> r == Thrown(TypeMismatch(""))
    ensures j.JObject? && DecodeString(j.fields, "type").Thrown? ==> r == Thrown(DecodeString(j.fields, "type").error)
    ensures j.JObject? && DecodeString(j.fields, "type").Ok? && !DecodeBoolIfPresent(j.fields, "async").Ok? ==>
              SameFailure(r, DecodeBoolIfPresent(j.fields, "async"))
    ensures j.JObject? && DecodeString(j.fields, "type").Ok? && DecodeBoolIfPresent(j.fields, "async").Ok? ==>
              SameFailure(r, DecodeArrayAt(j.fields, "fields", DecodeFieldSpecs))
  {
    if j.JNull? then Thrown(ValueNotFound(""))
    else if !j.JObject? then Thrown(TypeMismatch(""))
    else
      var obj := j.fields;
      var formType :- DecodeString(obj, "type");
      var async :- DecodeBoolIfPresent(obj, "async");
      var fields :- DecodeArrayAt(obj, "fields", DecodeFieldSpecs);
      Ok(FormSpec(formType, async, fields))
  }

  // ---------------------------------------------------------------------------
  // The canonical JSON of a field specification, and the round trip

  function EncodeStringMap(m: map<string, string>): Json {
    JObject(map k | k in m :: JString(m[k]))
  }

  function WithApiPath(obj: map<string, Json>, apiPath: Option<map<string, string>>): map<string, Json> {
    match apiPath
    case Some(m) => obj["apiPath" := EncodeStringMap(m)]
    case None => obj
  }

  function EncodePropertyItem(item: PropertyItemSpec): Json {
    var obj := map["displayText" := JString(item.displayText)];
    JObject(match item.apiValue case Some(v) => obj["apiValue" := JString(v)] case None => obj)
  }

  function EncodePropertyItems(items: seq<PropertyItemSpec>): (r: seq<Json>)
    ensures |r| == |items|
  {
    if items == [] then [] else [EncodePropertyItem(items[0])] + EncodePropertyItems(items[1..])
  }

  function EncodeStrings(strings: seq<string>): (r: seq<Json>)
    ensures |r| == |strings|
  {
    if strings == [] then [] else [JString(strings[0])] + EncodeStrings(strings[1..])
  }

  function EncodeFieldSpec(f: FieldSpec): (r: Json)
    ensures r.JObject? && "type" in r.fields && r.fields["type"] == JString(TagOf(f))
  {
    var tagged := map["type" := JString(TagOf(f))];
    match f
    case Name(n) =>
      var obj := WithApiPath(tagged, n.apiPath);
      JObject(match n.labelKey case Some(l) => obj["label" := JString(RawValue(l))] case None => obj)
    case Email(b) => JObject(WithApiPath(tagged, b.apiPath))
    case Selector(s) =>
      JObject(WithApiPath(tagged, s.apiPath)["label" := JString(RawValue(s.labelKey))]
                ["items" := JArray(EncodePropertyItems(s.items))])
    case KlarnaCountry(b) => JObject(WithApiPath(tagged, b.apiPath))
    case AuBecsBsbNumber(b) => JObject(WithApiPath(tagged, b.apiPath))
    case AuBecsAccountNumber(b) => JObject(WithApiPath(tagged, b.apiPath))
    case SofortBillingAddressField(s) =>
      JObject(WithApiPath(tagged, s.apiPath)
                ["validCountryCodes" := JArray(EncodeStrings(s.validCountryCodes))])
    case Iban(b) => JObject(WithApiPath(tagged, b.apiPath))
    case _ => JObject(tagged)
  }

  /** The "apiPath" key of an encoded object decodes back to the path it encodes. */
  lemma ApiPathRoundTrip(obj: map<string, Json>, apiPath: Option<map<string, string>>)
    requires apiPath.None? ==> "apiPath" !in obj
    requires apiPath.Some? ==> "apiPath" in obj && obj["apiPath"] == EncodeStringMap(apiPath.value)
    ensures DecodeStringMapIfPresent(obj, "apiPath") == Ok(apiPath)
  {
    if apiPath.Some? {
      var m := apiPath.value;
      var encoded := map k | k in m :: JString(m[k]);
      assert (map k | k in encoded :: encoded[k].s) == m;
    }
  }

  lemma SelectorRoundTrip(s: SelectorSpec)
    ensures DecodeSelectorSpec(EncodeFieldSpec(Selector(s)).fields) == Ok(s)
  {
    var obj := EncodeFieldSpec(Selector(s)).fields;
    var js := EncodePropertyItems(s.items);
    assert obj["label"] == JString(RawValue(s.labelKey));
    assert DecodeLocalizedString(obj, "label") == Ok(s.labelKey);
    assert obj["items"] == JArray(js);
    PropertyItemsRoundTrip(s.items);
    assert "apiPath" != "label" && "apiPath" != "items";
    ApiPathRoundTrip(obj, s.apiPath);
  }

  lemma SofortRoundTrip(s: SofortBillingAddress)
    ensures DecodeSofortBillingAddress(EncodeFieldSpec(SofortBillingAddressField(s)).fields) == Ok(s)
  {
    var obj := EncodeFieldSpec(SofortBillingAddressField(s)).fields;
    var js := EncodeStrings(s.validCountryCodes);
    assert "apiPath" != "validCountryCodes";
    ApiPathRoundTrip(obj, s.apiPath);
    assert obj["validCountryCodes"] == JArray(js);
    StringsRoundTrip(s.validCountryCodes, "validCountryCodes");
  }

  lemma {:induction false} StringsRoundTrip(codes: seq<string>, key: string)
    ensures DecodeStrings(EncodeStrings(codes), key) == Ok(codes)
  {
    if codes != [] {
      StringsRoundTrip(codes[1..], key);
      assert [codes[0]] + codes[1..] == codes;
    }
  }

  lemma {:induction false} PropertyItemsRoundTrip(items: seq<PropertyItemSpec>)
    ensures DecodePropertyItems(EncodePropertyItems(items)) == Ok(items)
  {
    if items != [] {
      var item := items[0];
      var obj := EncodePropertyItem(item).fields;
      assert "apiValue" != "displayText";
      assert DecodePropertyItem(EncodePropertyItem(item)) == Ok(item);
      PropertyItemsRoundTrip(items[1..]);
      assert [items[0]] + items[1..] == items;
    }
  }

  lemma DecodeEncodedObject(f: FieldSpec)
    ensures DecodeFieldSpec(EncodeFieldSpec(f)) == DecodeTaggedField(EncodeFieldSpec(f).fields, TagOf(f))
  {
    var j := EncodeFieldSpec(f);
    assert j.fields["type"].s == TagOf(f);
  }

  lemma NameRoundTrip(n: NameFieldSpec)
    ensures DecodeFieldSpec(EncodeFieldSpec(Name(n))) == Ok(Name(n))
  {
    var obj := EncodeFieldSpec(Name(n)).fields;
    DecodeEncodedObject(Name(n));
    assert "apiPath" != "label";
    ApiPathRoundTrip(obj, n.apiPath);
  }

  lemma BaseRoundTrip(f: FieldSpec)
    requires f.Email? || f.KlarnaCountry? || f.AuBecsBsbNumber? || f.AuBecsAccountNumber? || f.Iban?
    ensures DecodeFieldSpec(EncodeFieldSpec(f)) == Ok(f)
  {
    var b := match f
      case Email(b) => b
      case KlarnaCountry(b) => b
      case AuBecsBsbNumber(b) => b
      case AuBecsAccountNumber(b) => b
      case Iban(b) => b;
    var obj := WithApiPath(map["type" := JString(TagOf(f))], b.apiPath);
    assert EncodeFieldSpec(f) == JObject(obj);
    DecodeEncodedObject(f);
    ApiPathRoundTrip(obj, b.apiPath);
    assert DecodeBaseFieldSpec(obj) == Ok(b);
  }

  lemma PayloadFreeRoundTrip(f: FieldSpec)
    requires f.BillingAddress? || f.AffirmHeader? || f.KlarnaHeader? || f.AuBecsMandate? || f.AfterpayHeader? || f.SepaMandate?
    ensures DecodeFieldSpec(EncodeFieldSpec(f)) == Ok(f)
  {
    var obj := map["type" := JString(TagOf(f))];
    assert EncodeFieldSpec(f) == JObject(obj);
    match f {
      case BillingAddress => assert DecodeTaggedField(obj, "billing_address") == Ok(f);
      case AffirmHeader => assert DecodeTaggedField(obj, "affirm_header") == Ok(f);
      case KlarnaHeader => assert DecodeTaggedField(obj, "klarna_header") == Ok(f);
      case AuBecsMandate => assert DecodeTaggedField(obj, "au_becs_mandate") == Ok(f);
      case AfterpayHeader => assert DecodeTaggedField(obj, "afterpay_header") == Ok(f);
      case SepaMandate => assert DecodeTaggedField(obj, "sepa_mandate") == Ok(f);
    }
  }

  /** Decoding the canonical JSON of any field gives that field back. */
  lemma DecodeEncodeFieldSpec(f: FieldSpec)
    ensures DecodeFieldSpec(EncodeFieldSpec(f)) == Ok(f)
  {
    match f
    case Name(n) => NameRoundTrip(n);
    case Selector(s) =>
      DecodeEncodedObject(f);
      SelectorRoundTrip(s);
    case SofortBillingAddressField(s) =>
      DecodeEncodedObject(f);
      SofortRoundTrip(s);
    case Email(_) => BaseRoundTrip(f);
    case KlarnaCountry(_) => BaseRoundTrip(f);
    case AuBecsBsbNumber(_) => BaseRoundTrip(f);
    case AuBecsAccountNumber(_) => BaseRoundTrip(f);
    case Iban(_) => BaseRoundTrip(f);
    case _ => PayloadFreeRoundTrip(f);
  }

  function EncodeFieldSpecs(fields: seq<FieldSpec>): (r: seq<Json>)
    ensures |r| == |fields|
  {
    if fields == [] then [] else [EncodeFieldSpec(fields[0])] + EncodeFieldSpecs(fields[1..])
  }

  function EncodeFormSpec(spec: FormSpec): Json {
    var obj := map["type" := JString(spec.formType), "fields" := JArray(EncodeFieldSpecs(spec.fields))];
    JObject(match spec.async case Some(a) => obj["async" := JBool(a)] case None => obj)
  }

  lemma {:induction false} FieldSpecsRoundTrip(fields: seq<FieldSpec>)
    ensures DecodeFieldSpecs(EncodeFieldSpecs(fields)) == Ok(fields)
  {
    if fields != [] {
      DecodeEncodeFieldSpec(fields[0]);
      FieldSpecsRoundTrip(fields[1..]);
      assert [fields[0]] + fields[1..] == fields;
    }
  }

  /** Decoding the canonical JSON of a form gives the form back, its fields in order. */
  lemma DecodeEncodeFormSpec(spec: FormSpec)
    ensures DecodeFormSpec(EncodeFormSpec(spec)) == Ok(spec)
  {
    var obj := EncodeFormSpec(spec).fields;
    assert "type" != "fields" && "type" != "async" && "async" != "fields";
    assert DecodeString(obj, "type") == Ok(spec.formType);
    assert DecodeBoolIfPresent(obj, "async") == Ok(spec.async);
    FieldSpecsRoundTrip(spec.fields);
  }

  /** An object whose "type" names no known kind never decodes to a value. */
  lemma UnknownTagIsFatal(obj: map<string, Json>, tag: string)
    requires "type" in obj && obj["type"] == JString(tag)
    requires !IsKnownTag(tag)
    ensures DecodeFieldSpec(JObject(obj)).Fatal?
  {
  }

  /** A field of an unknown kind traps the whole form once every field before
      it decodes, whatever follows it. */
  lemma UnknownFieldTrapsForm(j: Json, i: nat)
    requires j.JObject? && DecodeString(j.fields, "type").Ok? && DecodeBoolIfPresent(j.fields, "async").Ok?
    requires "fields" in j.fields && j.fields["fields"].JArray? && i < |j.fields["fields"].items|
    requires forall k :: 0 <= k < i ==> DecodeFieldSpec(j.fields["fields"].items[k]).Ok?
    requires var item := j.fields["fields"].items[i];
             item.JObject? && "type" in item.fields && item.fields["type"].JString? && !IsKnownTag(item.fields["type"].s)
    ensures DecodeFormSpec(j).Fatal?
  {
    var items := j.fields["fields"].items;
    UnknownTagIsFatal(items[i].fields, items[i].fields["type"].s);
    var d := DecodeFieldSpecs(items);
    assert !d.Ok?;
    var first :| 0 <= first < |items| && !DecodeFieldSpec(items[first]).Ok?
                 && (forall k :: 0 <= k < first ==> DecodeFieldSpec(items[k]).Ok?)
                 && SameFailure(d, DecodeFieldSpec(items[first]));
    assert !(first < i);
    assert !(i < first);
  }

  /** `key` is absent from both objects, or present in both with the same value. */
  predicate SameAt(obj: map<string, Json>, other: map<string, Json>, key: string) {
    (key in obj <==> key in other) && (key in obj ==> obj[key] == other[key])
  }

  /** A field decodes from "type" and its payload keys alone: any other key, such
      as one a newer server adds, is ignored. */
  lemma FieldSpecIgnoresOtherKeys(obj: map<string, Json>, other: map<string, Json>)
    requires SameAt(obj, other, "type") && SameAt(obj, other, "apiPath") && SameAt(obj, other, "label")
    requires SameAt(obj, other, "items") && SameAt(obj, other, "validCountryCodes")
    ensures DecodeFieldSpec(JObject(obj)) == DecodeFieldSpec(JObject(other))
  {
    assert DecodeStringMapIfPresent(obj, "apiPath") == DecodeStringMapIfPresent(other, "apiPath");
    assert DecodeLocalizedString(obj, "label") == DecodeLocalizedString(other, "label");
    assert DecodeLocalizedStringIfPresent(obj, "label") == DecodeLocalizedStringIfPresent(other, "label");
    assert DecodeArrayAt(obj, "items", DecodePropertyItems) == DecodeArrayAt(other, "items", DecodePropertyItems);
    assert DecodeBaseFieldSpec(obj) == DecodeBaseFieldSpec(other);
    assert DecodeNameFieldSpec(obj) == DecodeNameFieldSpec(other);
    assert DecodeSelectorSpec(obj) == DecodeSelectorSpec(other);
    assert DecodeSofortBillingAddress(obj) == DecodeSofortBillingAddress(other);
    assert DecodeString(obj, "type") == DecodeString(other, "type");
  }

  /** A form decodes from "type", "async" and "fields" alone. */
  lemma FormSpecIgnoresOtherKeys(obj: map<string, Json>, other: map<string, Json>)
    requires SameAt(obj, other, "type") && SameAt(obj, other, "async") && SameAt(obj, other, "fields")
    ensures DecodeFormSpec(JObject(obj)) == DecodeFormSpec(JObject(other))
  {
    assert DecodeString(obj, "type") == DecodeString(other, "type");
    assert DecodeBoolIfPresent(obj, "async") == DecodeBoolIfPresent(other, "async");
    assert DecodeArrayAt(obj, "fields", DecodeFieldSpecs) == DecodeArrayAt(other, "fields", DecodeFieldSpecs);
  }
}
