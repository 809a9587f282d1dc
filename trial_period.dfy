/** The free trial of a billing plan, in days. */
module TrialPeriod {
  import opened Wrappers

  const MinTrialPeriodDays: nat := 1
  const MaxTrialPeriodDays: nat := 30

  const ErrTrialPeriodTooShort := "trial period must be at least 1 day"
  /** The message names 365 days although the limit enforced is 30. */
  const ErrTrialPeriodTooLong := "trial period cannot exceed 365 days"

  datatype TrialPeriodModel = TrialPeriodModel(value: nat) {
    function Days(): nat {
      value
    }
  }

  /** `validateTrialPeriod`: the lower bound is checked first. */
  function Validate(value: nat): (err: Option<string>)
    ensures err == None <==> MinTrialPeriodDays <= value <= MaxTrialPeriodDays
    ensures value < MinTrialPeriodDays ==> err == Some(ErrTrialPeriodTooShort)
    ensures value > MaxTrialPeriodDays ==> err == Some(ErrTrialPeriodTooLong)
  {
    if value < MinTrialPeriodDays then Some(ErrTrialPeriodTooShort)
    else if value > MaxTrialPeriodDays then Some(ErrTrialPeriodTooLong)
    else None
  }

  /** `CreateTrialPeriodModel`. */
  function Create(value: nat): (r: Result<TrialPeriodModel>)
    ensures r.Ok? <==> 1 <= value <= 30
    ensures r.Ok? ==> r.value.Days() == value
    ensures r.Err? ==> r.error == Validate(value).value
  {
    match Validate(value)
    case Some(e) => Err(e)
    case None => Ok(TrialPeriodModel(value))
  }

  /** The zero `TrialPeriodModel{}` handed back next to an error is not
      itself a value `Create` would accept. */
  lemma ZeroValueIsInvalid()
    ensures TrialPeriodModel(0).Days() == 0
    ensures Create(TrialPeriodModel(0).Days()) == Err(ErrTrialPeriodTooShort)
  {
  }

  lemma Boundaries()
    ensures Create(1).Ok? && Create(30).Ok?
    ensures Create(31) == Err("trial period cannot exceed 365 days")
  {
  }
}
