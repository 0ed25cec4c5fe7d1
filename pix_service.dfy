/**
 * PIX key validation and the fee- and spread-adjusting amount validator
 * (src/services/pix.service.ts). Both throw `CustomError`s, modelled as `JsValue`s.
 */
module PixService {
  import opened Wrappers
  import opened JsValues
  import opened PixKeys
  import Conversion

  datatype KeyValidation = KeyValidation(is_valid: bool, formatted_key: string)

  /** `CustomError("Invalid 'pix_key'", { pix_key })`. */
  function InvalidPixKey(pix_key: string): JsValue
  {
    NewCustomError("Invalid 'pix_key'", Obj([Field("pix_key", Str(pix_key))]), Undefined)
  }

  /**
   * `validate_pix_key`: the first validator in the order CPF, CNPJ, phone, email, UUID that accepts
   * the key decides the formatted key; with no match it throws, so `is_valid` is never false.
   */
  function ValidatePixKey(v: Validators, pix_key: string): (r: Result<KeyValidation, JsValue>)
    ensures match FirstAccepting(v, pix_key, DispatchOrder)
            case Some(i) => r == Ok(KeyValidation(true, Canonical(v, DispatchOrder[i], pix_key)))
            case None => r == Err(InvalidPixKey(pix_key))
  {
    FirstAcceptingInDispatchOrder(v, pix_key);
    if v.cpfIsValid(pix_key) then
      Ok(KeyValidation(true, v.cpfStrip(pix_key)))
    else if v.cnpjIsValid(pix_key) then
      Ok(KeyValidation(true, v.cnpjStrip(pix_key)))
    else
      var phone_result := if '+' in pix_key then v.phone(pix_key, None) else v.phone(pix_key, Some("BRA"));
      if phone_result.isValid then
        Ok(KeyValidation(true, phone_result.phoneNumber))
      else if v.emailIsValid(pix_key) then
        Ok(KeyValidation(true, pix_key))
      else if v.uuidIsValid(pix_key) then
        Ok(KeyValidation(true, pix_key))
      else
        Err(InvalidPixKey(pix_key))
  }

  const PixAmountMinimum: real := 0.01
  const PixAmountMaximum: real := 50.0
  /** Sqala's 1% fee. */
  const SqalaFeeRate: real := 0.01
  /** The 5% BTC/BRL spread. */
  const SpreadRate: real := 0.05

  /** `Math.round` on exact reals: halves round up. */
  function Round(x: real): (n: int)
    ensures x - 0.5 < n as real <= x + 0.5
  {
    (x + 0.5).Floor
  }

  datatype AmountValidation = AmountValidation(
    is_valid: bool,
    amount_brl_cents: real,
    amount_brl_decimal: real,
    adjusted_amount_brl_cents: real,
    adjusted_amount_brl_decimal: real,
    adjusted_amount_sats: int)

  datatype AmountError =
    | Rejected(error: JsValue)                        // a CustomError thrown by the bounds checks
    | PriceUnavailable(cause: Conversion.PriceError)  // the price read failed

  function BelowMinimum(): JsValue
  {
    NewCustomError("'amount' must be greater than 0.01", Obj([Field("pix_amount_minimum", Num(PixAmountMinimum))]), Undefined)
  }

  function AboveMaximum(): JsValue
  {
    NewCustomError("'amount' must be lower than 50", Obj([Field("pix_amount_maximum", Num(PixAmountMaximum))]), Undefined)
  }

  /** The bounds checks of `validate_pix_amount`, in source order; `None` when the amount passes. */
  function BoundsCheck(amount_brl_decimal: real, override_limits: bool): (e: Option<JsValue>)
    ensures e.None? <==> override_limits || PixAmountMinimum <= amount_brl_decimal <= PixAmountMaximum
    ensures e.Some? ==> e.value == if amount_brl_decimal < PixAmountMinimum then BelowMinimum() else AboveMaximum()
  {
    if !override_limits && amount_brl_decimal < PixAmountMinimum then Some(BelowMinimum())
    else if !override_limits && amount_brl_decimal > PixAmountMaximum then Some(AboveMaximum())
    else None
  }

  /** The fee markup: cents / (1 - fee), rounded to a whole cent, back in reais. */
  function FeeAdjustedDecimal(amount_brl_cents: real): (d: real)
    ensures (d * 100.0).Floor as real == d * 100.0
    ensures amount_brl_cents / (1.0 - SqalaFeeRate) - 0.5 < d * 100.0 <= amount_brl_cents / (1.0 - SqalaFeeRate) + 0.5
  {
    Round(amount_brl_cents / (1.0 - SqalaFeeRate)) as real / 100.0
  }

  /**
   * `validate_pix_amount` with the BTC/BRL price read injected (`get_btc_price_data`, read after the
   * bounds checks). As written, the spread step floors to whole reais before converting.
   */
  function ValidatePixAmount(amount_brl_decimal: real, override_limits: bool,
                             price: Result<Conversion.PriceData, Conversion.PriceError>): (r: Result<AmountValidation, AmountError>)
    requires price.Ok? ==> price.value.price != 0.0
    ensures r.Err? && r.error.Rejected? <==> BoundsCheck(amount_brl_decimal, override_limits).Some?
    ensures r.Err? && r.error.Rejected? ==> r.error.error == BoundsCheck(amount_brl_decimal, override_limits).value
    ensures r.Err? && r.error.PriceUnavailable? <==> BoundsCheck(amount_brl_decimal, override_limits).None? && price.Err?
    ensures r.Ok? ==> r.value.is_valid && r.value.amount_brl_decimal == amount_brl_decimal
    ensures r.Ok? ==> r.value.amount_brl_cents == amount_brl_decimal * 100.0
    ensures r.Ok? ==> r.value.adjusted_amount_brl_cents == r.value.adjusted_amount_brl_decimal * 100.0
    ensures r.Ok? ==> r.value.adjusted_amount_brl_decimal == FeeAdjustedDecimal(amount_brl_decimal * 100.0)
    ensures r.Ok? ==>
              r.value.adjusted_amount_sats ==
              Conversion.BrlToSats((r.value.adjusted_amount_brl_decimal / (1.0 - SpreadRate)).Floor as real, price.value.price)
  {
    match BoundsCheck(amount_brl_decimal, override_limits)
    case Some(e) => Err(Rejected(e))
    case None =>
      var amount_brl_cents := amount_brl_decimal * 100.0;
      var adjusted_amount_brl_decimal := FeeAdjustedDecimal(amount_brl_cents);
      var adjusted_amount_brl_cents := adjusted_amount_brl_decimal * 100.0;
      match price
      case Err(cause) => Err(PriceUnavailable(cause))
      case Ok(data) =>
        var adjusted_amount_sats :=
          Conversion.BrlToSats((adjusted_amount_brl_decimal / (1.0 - SpreadRate)).Floor as real, data.price);
        Ok(AmountValidation(true, amount_brl_cents, amount_brl_decimal,
                            adjusted_amount_brl_cents, adjusted_amount_brl_decimal, adjusted_amount_sats))
  }

  /** An amount is accepted exactly when the limits are overridden or it lies in [0.01, 50], ends included. */
  lemma AcceptedAmounts(amount_brl_decimal: real, override_limits: bool, price: Result<Conversion.PriceData, Conversion.PriceError>)
    requires price.Ok? && price.value.price != 0.0
    ensures ValidatePixAmount(amount_brl_decimal, override_limits, price).Ok? <==>
              override_limits || PixAmountMinimum <= amount_brl_decimal <= PixAmountMaximum
  {
  }

  /** For a whole number of cents the fee markup never lowers the amount charged. */
  lemma FeeNeverLowersAmount(amount_brl_cents: real)
    requires amount_brl_cents >= 0.0 && amount_brl_cents.Floor as real == amount_brl_cents
    ensures FeeAdjustedDecimal(amount_brl_cents) * 100.0 >= amount_brl_cents
  {
    var n := amount_brl_cents.Floor;
    var d := FeeAdjustedDecimal(amount_brl_cents);
    assert amount_brl_cents / (1.0 - SqalaFeeRate) >= amount_brl_cents;
    assert (d * 100.0).Floor > n - 1;
  }

  /** Flooring to whole reais never asks for more sats than the exact spread-adjusted amount would. */
  lemma SpreadFloorNeverOvercharges(amount_brl_decimal: real, override_limits: bool, price: Conversion.PriceData)
    requires price.price > 0.0
    requires ValidatePixAmount(amount_brl_decimal, override_limits, Ok(price)).Ok?
    ensures var v := ValidatePixAmount(amount_brl_decimal, override_limits, Ok(price)).value;
            v.adjusted_amount_sats <= Conversion.BrlToSats(v.adjusted_amount_brl_decimal / (1.0 - SpreadRate), price.price)
  {
    var v := ValidatePixAmount(amount_brl_decimal, override_limits, Ok(price)).value;
    var exact := v.adjusted_amount_brl_decimal / (1.0 - SpreadRate);
    Conversion.BrlToSatsMonotoneInAmount(exact.Floor as real, exact, price.price);
  }

  /**
   * As written, an accepted payout of 0.50 BRL at 500000 BRL/BTC is priced at 0 sats, although its
   * fee- and spread-adjusted value (0.51 / 0.95 BRL) is worth 107 sats.
   */
  lemma SpreadFloorZeroesSmallAmounts()
    ensures var r := ValidatePixAmount(0.5, false, Ok(Conversion.PriceData(500000.0, 0)));
            r.Ok? && r.value.adjusted_amount_brl_decimal == 0.51 && r.value.adjusted_amount_sats == 0
    ensures Conversion.BrlToSats(0.51 / (1.0 - SpreadRate), 500000.0) == 107
  {
    assert Round(50.0 / (1.0 - SqalaFeeRate)) == 51;
    assert (0.51 / (1.0 - SpreadRate)).Floor == 0;
  }

  /**
   * The evidently intended validator: the spread markup is applied to the fee-adjusted amount and only
   * the resulting sats are floored, so the charge is within one sat of the exact spread-adjusted value.
   */
  function ValidatePixAmountCorrected(amount_brl_decimal: real, override_limits: bool,
                                      price: Result<Conversion.PriceData, Conversion.PriceError>): (r: Result<AmountValidation, AmountError>)
    requires price.Ok? ==> price.value.price != 0.0
    ensures r.Ok? <==> BoundsCheck(amount_brl_decimal, override_limits).None? && price.Ok?
    ensures r.Ok? ==> r.value.is_valid && r.value.amount_brl_decimal == amount_brl_decimal
    ensures r.Ok? ==> r.value.adjusted_amount_brl_decimal == FeeAdjustedDecimal(amount_brl_decimal * 100.0)
    ensures r.Ok? ==>
              var exact := r.value.adjusted_amount_brl_decimal / (1.0 - SpreadRate) / price.value.price * Conversion.SatsPerBtc as real;
              exact - 1.0 < r.value.adjusted_amount_sats as real <= exact
  {
    match ValidatePixAmount(amount_brl_decimal, override_limits, price)
    case Err(e) => Err(e)
    case Ok(v) =>
      Ok(v.(adjusted_amount_sats := Conversion.BrlToSats(v.adjusted_amount_brl_decimal / (1.0 - SpreadRate), price.value.price)))
  }
}
