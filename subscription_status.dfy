/** The status of a subscription: a closed set of case-sensitive codes.
    Constructing an invalid status panics instead of returning an error. */
module SubscriptionStatus {
  import opened Wrappers

  const Active := "Active"
  const Inactive := "Inactive"
  const Cancelled := "Cancelled"
  const Expired := "Expired"
  const PastDue := "PastDue"

  const AllowedValues: set<string> := {Active, Inactive, Cancelled, Expired, PastDue}

  datatype SubscriptionStatusEnum = SubscriptionStatusEnum(value: string) {
    function String(): string {
      value
    }
  }

  /** `validateSubscriptionStatusEnum`. */
  function Validate(value: string): (err: Option<string>)
    ensures err == None <==> value in AllowedValues
    ensures err != None ==> err == Some("invalid subscription status: " + value)
  {
    if value in AllowedValues then None else Some("invalid subscription status: " + value)
  }

  /** `NewSubscriptionStatusEnum`: returns the status for a valid code and
      panics with the validation error otherwise, so it never returns an
      error value. */
  function New(value: string): (r: Panicking<SubscriptionStatusEnum>)
    ensures r.Returns? <==> value in {"Active", "Inactive", "Cancelled", "Expired", "PastDue"}
    ensures r.Returns? ==> r.value.String() == value
    ensures r.Panics? ==> r.message == "invalid subscription status: " + value
  {
    match Validate(value)
    case Some(e) => Panics(e)
    case None => Returns(SubscriptionStatusEnum(value))
  }

  lemma InvalidCodesPanic()
    ensures New("").Panics? && New("active").Panics?
    ensures New(Active) == Returns(SubscriptionStatusEnum("Active"))
  {
  }
}
