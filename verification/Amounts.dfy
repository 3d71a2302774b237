/** Amount validation, src/offers/parse.rs. */
module Amounts {
  import opened Common

  /** An offer's amount: in bitcoin, or in some other currency. */
  datatype Amount = Bitcoin(msats: u64) | Currency

  datatype AmountError = InvalidAmount | InvalidCurrency

  /** The least a payer must send for an offer, where the offer states it in bitcoin. */
  function Minimum(offer: Option<Amount>): nat {
    match offer
    case Some(Bitcoin(msats)) => msats
    case _ => 0
  }

  function ValidateAmount(offer: Option<Amount>, pay: Option<u64>): (r: Result<u64, AmountError>)
    ensures r.Ok? ==> Minimum(offer) <= r.value && (offer.Some? ==> 0 < r.value)
    ensures r.Ok? && pay.Some? ==> r.value == pay.value
    ensures r.Ok? && pay.None? ==> offer.Some? && r.value == Minimum(offer)
    ensures r.Ok? <==>
            && (offer.None? ==> pay.Some?)
            && (offer.Some? ==> offer.value.Bitcoin? && 0 < offer.value.msats)
            && (pay.Some? ==> Minimum(offer) <= pay.value)
    ensures r == Err(InvalidCurrency) <==> offer == Some(Currency)
  {
    match offer
    case Some(Bitcoin(msats)) =>
      if msats == 0 then Err(InvalidAmount)
      else if pay.Some? then
        if pay.value < msats then Err(InvalidAmount) else Ok(pay.value)
      else Ok(msats)
    case Some(Currency) => Err(InvalidCurrency)
    case None => if pay.Some? then Ok(pay.value) else Err(InvalidAmount)
  }
}
