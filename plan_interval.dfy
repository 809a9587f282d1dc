/** The billing interval of a plan: a closed set of case-sensitive codes. */
module PlanInterval {
  import opened Wrappers

  const Day := "Day"
  const Week := "Week"
  const Month := "Month"
  const Year := "Year"

  const AllowedValues: set<string> := {Day, Week, Month, Year}

  /** The zero `PlanIntervalEnum{}` holds "". */
  datatype PlanIntervalEnum = PlanIntervalEnum(value: string) {
    function String(): string {
      value
    }
  }

  const ZeroValue := PlanIntervalEnum("")

  /** `validatePlanIntervalEnum`. The message is built afresh from the
      input; it is not a shared error value. */
  function Validate(value: string): (err: Option<string>)
    ensures err == None <==> value in AllowedValues
    ensures err != None ==> err == Some("invalid plan interval: " + value)
  {
    if value in AllowedValues then None else Some("invalid plan interval: " + value)
  }

  /** `NewPlanIntervalEnum`. */
  function New(value: string): (r: Result<PlanIntervalEnum>)
    ensures r.Ok? <==> value == "Day" || value == "Week" || value == "Month" || value == "Year"
    ensures r.Ok? ==> r.value.String() == value
    ensures r.Err? ==> r.error == "invalid plan interval: " + value
  {
    match Validate(value)
    case Some(e) => Err(e)
    case None => Ok(PlanIntervalEnum(value))
  }

  /** The zero value is not a valid interval, and the codes are
      case-sensitive. */
  lemma ZeroValueIsInvalid()
    ensures ZeroValue.String() !in AllowedValues
    ensures New(ZeroValue.String()).Err?
    ensures New("month").Err?
  {
  }
}
