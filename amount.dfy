/** The amount of a billing plan in minor currency units (cents). */
module Amount {
  import opened Wrappers

  /** 9,999,999.99 in major currency units. */
  const MaxAmountCents: nat := 999999999

  const ErrAmountExceedsMaximum := "amount exceeds maximum allowed value"

  datatype AmountModel = AmountModel(value: nat) {
    function Cents(): nat {
      value
    }
  }

  /** `validateAmount`: `None` when the amount is acceptable. */
  function Validate(value: nat): (err: Option<string>)
    ensures err == None <==> value <= MaxAmountCents
    ensures err != None ==> err == Some(ErrAmountExceedsMaximum)
  {
    if value > MaxAmountCents then Some(ErrAmountExceedsMaximum) else None
  }

  /** `CreateAmountModel`: accepts exactly the amounts up to the maximum and
      keeps the value it was given. */
  function Create(value: nat): (r: Result<AmountModel>)
    ensures r.Ok? <==> value <= MaxAmountCents
    ensures r.Ok? ==> r.value.Cents() == value
    ensures r.Err? ==> r.error == ErrAmountExceedsMaximum
  {
    match Validate(value)
    case Some(e) => Err(e)
    case None => Ok(AmountModel(value))
  }

  /** The bounds the tests pin down: zero and the maximum are accepted, one
      cent more is refused. */
  lemma Boundaries()
    ensures Create(0) == Ok(AmountModel(0))
    ensures Create(999999999) == Ok(AmountModel(999999999))
    ensures Create(1000000000) == Err("amount exceeds maximum allowed value")
  {
  }
}
