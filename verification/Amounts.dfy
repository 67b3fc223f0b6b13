/**
 Values of the inventory tier: exact numbers, amounts, lots and positions.

 A number is a `real`, because every operation the booking layer performs on
 its decimals is exact. A date counts days from 0001-01-01, so 0 is the zero
 time that stands for "no date".
 */
module Amounts {
  import opened Prelude

  datatype Amount = Amount(number: real, currency: string)

  /** The identity of a cost-held position. */
  datatype Lot = Lot(number: real, currency: string, date: nat, tag: string)

  /** A holding; `cost == None` is cash. */
  datatype Position = Position(units: Amount, cost: Option<Lot>)

  /** What a reduction records when the position it consumed is cash. */
  const CASH_LOT := Lot(0.0, "", 0, "")

  function Abs(x: real): real {
    if x < 0.0 then -x else x
  }

  function Sign(x: real): int {
    if x < 0.0 then -1 else if x == 0.0 then 0 else 1
  }

  function Min(x: real, y: real): real {
    if x <= y then x else y
  }

  /** `magnitude` with the sign of `units`. */
  function WithSign(units: real, magnitude: real): real {
    if units < 0.0 then -Abs(magnitude) else Abs(magnitude)
  }

  function LotOf(p: Position): Lot {
    match p.cost
    case None => CASH_LOT
    case Some(lot) => lot
  }

  /** Whether a step's lot stands for a real lot rather than for cash. */
  predicate IsRealLot(lot: Lot) {
    lot.currency != "" || lot.number != 0.0
  }
}
