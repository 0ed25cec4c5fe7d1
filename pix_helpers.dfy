/**
 * The older PIX helpers used by the Sqala client (src/helpers.ts/pix.ts): key normalisation with the
 * same dispatch, and plain bounds for an amount in reais converted to cents. Both throw plain
 * `Error`s, modelled by their messages.
 */
module PixHelpers {
  import opened Wrappers
  import opened PixKeys
  import PixService

  /** `processPixKey`: the formatted key of the first accepting validator, else `Error("Invalid Pix key")`. */
  function ProcessPixKey(v: Validators, pixKey: string): (r: Result<string, string>)
    ensures match FirstAccepting(v, pixKey, DispatchOrder)
            case Some(i) => r == Ok(Canonical(v, DispatchOrder[i], pixKey))
            case None => r == Err("Invalid Pix key")
  {
    FirstAcceptingInDispatchOrder(v, pixKey);
    if v.cpfIsValid(pixKey) then Ok(v.cpfStrip(pixKey))
    else if v.cnpjIsValid(pixKey) then Ok(v.cnpjStrip(pixKey))
    else
      var phoneResult := if '+' in pixKey then v.phone(pixKey, None) else v.phone(pixKey, Some("BRA"));
      if phoneResult.isValid then Ok(phoneResult.phoneNumber)
      else if v.emailIsValid(pixKey) then Ok(pixKey)
      else if v.uuidIsValid(pixKey) then Ok(pixKey)
      else Err("Invalid Pix key")
  }

  /** The two key normalisers accept the same keys and produce the same formatted key. */
  lemma KeyNormalisersAgree(v: Validators, key: string)
    ensures ProcessPixKey(v, key).Ok? <==> PixService.ValidatePixKey(v, key).Ok?
    ensures ProcessPixKey(v, key).Ok? ==> ProcessPixKey(v, key).value == PixService.ValidatePixKey(v, key).value.formatted_key
  {
  }

  const MinAmountDecimal: real := 1.0
  const MaxAmountDecimal: real := 150.0

  /** `processPixAmount`: amounts in [1, 150] (ends included) become cents, others throw. */
  function ProcessPixAmount(amountDecimal: real): (r: Result<real, string>)
    ensures r.Ok? <==> MinAmountDecimal <= amountDecimal <= MaxAmountDecimal
    ensures r.Ok? ==> r.value / 100.0 == amountDecimal && 100.0 <= r.value <= 15000.0
    ensures r.Err? ==> r.error == if amountDecimal < MinAmountDecimal then "Amount must be greater than 1"
                                  else "Amount must be less than 150"
  {
    if amountDecimal < 1.0 then Err("Amount must be greater than 1")
    else if amountDecimal > 150.0 then Err("Amount must be less than 150")
    else Ok(amountDecimal * 100.0)
  }
}
