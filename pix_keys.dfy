/**
 * The PIX key validators both key normalisers dispatch over
 * (src/services/pix.service.ts:8-50, src/helpers.ts/pix.ts:6-26), and the reference
 * meaning of their if-chains: the first kind in a fixed order whose validator accepts.
 */
module PixKeys {
  import opened Wrappers

  /** What the `phone` library reports. */
  datatype PhoneResult = PhoneResult(isValid: bool, phoneNumber: string)

  /** The third-party validators (cpf-cnpj-validator, phone, email-validator, uuid), left abstract. */
  datatype Validators = Validators(
    cpfIsValid: string -> bool,
    cpfStrip: string -> string,
    cnpjIsValid: string -> bool,
    cnpjStrip: string -> string,
    phone: (string, Option<string>) -> PhoneResult,  // the key and the `country` option
    emailIsValid: string -> bool,
    uuidIsValid: string -> bool)

  datatype KeyKind = Cpf | Cnpj | Phone | Email | Uuid

  /** The order in which both normalisers try the validators. */
  const DispatchOrder: seq<KeyKind> := [Cpf, Cnpj, Phone, Email, Uuid]

  /** A key is parsed as a Brazilian number unless it carries an international "+" prefix. */
  function PhoneCountry(key: string): (country: Option<string>)
    ensures country.None? <==> '+' in key
    ensures country.Some? ==> country.value == "BRA"
  {
    if '+' in key then None else Some("BRA")
  }

  predicate Accepts(v: Validators, kind: KeyKind, key: string)
  {
    match kind
    case Cpf => v.cpfIsValid(key)
    case Cnpj => v.cnpjIsValid(key)
    case Phone => v.phone(key, PhoneCountry(key)).isValid
    case Email => v.emailIsValid(key)
    case Uuid => v.uuidIsValid(key)
  }

  /** The formatted key per kind: tax ids stripped, the phone library's number, email and UUID unchanged. */
  function Canonical(v: Validators, kind: KeyKind, key: string): string
  {
    match kind
    case Cpf => v.cpfStrip(key)
    case Cnpj => v.cnpjStrip(key)
    case Phone => v.phone(key, PhoneCountry(key)).phoneNumber
    case Email => key
    case Uuid => key
  }

  /** The index of the first kind in `kinds` that accepts `key`. */
  function FirstAccepting(v: Validators, key: string, kinds: seq<KeyKind>): (r: Option<nat>)
    ensures r.Some? ==> r.value < |kinds| && Accepts(v, kinds[r.value], key)
    ensures r.Some? ==> forall j :: 0 <= j < r.value ==> !Accepts(v, kinds[j], key)
    ensures r.None? ==> forall j :: 0 <= j < |kinds| ==> !Accepts(v, kinds[j], key)
  {
    if kinds == [] then None
    else if Accepts(v, kinds[0], key) then Some(0)
    else match FirstAccepting(v, key, kinds[1..])
      case None => None
      case Some(i) => Some(i + 1)
  }

  /** The first-match reference for the five kinds, written as the chain it amounts to. */
  lemma FirstAcceptingInDispatchOrder(v: Validators, key: string)
    ensures FirstAccepting(v, key, DispatchOrder) ==
      if Accepts(v, Cpf, key) then Some(0)
      else if Accepts(v, Cnpj, key) then Some(1)
      else if Accepts(v, Phone, key) then Some(2)
      else if Accepts(v, Email, key) then Some(3)
      else if Accepts(v, Uuid, key) then Some(4)
      else None
  {
    var r := FirstAccepting(v, key, DispatchOrder);
    assert DispatchOrder[0] == Cpf && DispatchOrder[1] == Cnpj && DispatchOrder[2] == Phone;
    assert DispatchOrder[3] == Email && DispatchOrder[4] == Uuid;
    if r.Some? {
      var i := r.value;
      assert i == 0 || i == 1 || i == 2 || i == 3 || i == 4;
      assert 0 < i ==> !Accepts(v, DispatchOrder[0], key);
      assert 1 < i ==> !Accepts(v, DispatchOrder[1], key);
      assert 2 < i ==> !Accepts(v, DispatchOrder[2], key);
      assert 3 < i ==> !Accepts(v, DispatchOrder[3], key);
    } else {
      assert !Accepts(v, DispatchOrder[0], key) && !Accepts(v, DispatchOrder[1], key);
      assert !Accepts(v, DispatchOrder[2], key) && !Accepts(v, DispatchOrder[3], key);
      assert !Accepts(v, DispatchOrder[4], key);
    }
  }
}
