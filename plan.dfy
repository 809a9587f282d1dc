/** The Plan aggregate of billing: a name, an optional description, a price,
    a currency, a billing interval and an optional free trial, each held as
    its validated value object. */
module Plan {
  import opened Wrappers
  import Text
  import Calendar
  import PlanName
  import Description
  import Amount
  import Currency
  import TrialPeriod
  import PlanInterval

  /** `PlanModel`; `None` stands for a nil description or trial period. */
  datatype PlanModel = PlanModel(
    id: nat,
    name: PlanName.NameModel,
    description: Option<Description.DescriptionModel>,
    amount: Amount.AmountModel,
    currency: Currency.CurrencyModel,
    interval: PlanInterval.PlanIntervalEnum,
    trialPeriod: Option<TrialPeriod.TrialPeriodModel>,
    createdAt: Calendar.Time,
    updatedAt: Calendar.Time)
  {
    function ID(): nat { id }
    function Name(): PlanName.NameModel { name }
    function Description(): Option<Description.DescriptionModel> { description }
    function Amount(): Amount.AmountModel { amount }
    function Currency(): Currency.CurrencyModel { currency }
    function Interval(): PlanInterval.PlanIntervalEnum { interval }
    function TrialPeriod(): Option<TrialPeriod.TrialPeriodModel> { trialPeriod }
    function CreatedAt(): Calendar.Time { createdAt }
    function UpdatedAt(): Calendar.Time { updatedAt }
  }

  /** What every plan built by `Create` or `Restore` satisfies: each value
      object is one its own constructor accepts, and the currency is the
      table's record for its code. */
  predicate Valid(p: PlanModel) {
    && PlanName.WellFormed(p.name.String())
    && (p.description.Some? ==>
          var d := p.description.value.String();
          Text.Trimmed(d) && Description.WellFormed(d))
    && p.amount.Cents() <= Amount.MaxAmountCents
    && Some(p.currency) == Currency.CurrencyData(p.currency.Code())
    && p.interval.String() in PlanInterval.AllowedValues
    && (p.trialPeriod.Some? ==>
          TrialPeriod.MinTrialPeriodDays <= p.trialPeriod.value.Days() <= TrialPeriod.MaxTrialPeriodDays)
  }

  /** The raw fields from which a plan can be built: every field passes the
      validation of its value object. An empty description and an absent
      trial period are not validated. */
  predicate Acceptable(name: string, description: string, currency: string, interval: string,
                       amountCents: nat, trialPeriod: Option<nat>)
  {
    && PlanName.WellFormed(Text.TrimSpace(name))
    && (description == "" || Description.WellFormed(Text.TrimSpace(description)))
    && amountCents <= Amount.MaxAmountCents
    && Currency.IsValidCurrency(Text.TrimSpace(currency))
    && (trialPeriod.None? ||
          TrialPeriod.MinTrialPeriodDays <= trialPeriod.value <= TrialPeriod.MaxTrialPeriodDays)
    && interval in PlanInterval.AllowedValues
  }

  /** The optional description: nil when the text is empty, otherwise the
      validated value object. */
  function DescriptionOf(description: string): (r: Result<Option<Description.DescriptionModel>>)
    ensures r.Ok? <==> description == "" || Description.WellFormed(Text.TrimSpace(description))
    ensures r.Ok? ==> (r.value.None? <==> description == "")
    ensures r.Err? ==> description != "" && Some(r.error) == Description.Validate(Text.TrimSpace(description))
  {
    if description == "" then Ok(None)
    else
      var d :- Description.Create(description);
      Ok(Some(d))
  }

  /** The optional trial period: nil when absent, otherwise validated. */
  function TrialPeriodOf(trialPeriod: Option<nat>): (r: Result<Option<TrialPeriod.TrialPeriodModel>>)
    ensures r.Ok? <==> trialPeriod.None? || 1 <= trialPeriod.value <= 30
    ensures r.Ok? ==> (r.value.None? <==> trialPeriod.None?)
    ensures r.Err? ==> trialPeriod.Some? && Some(r.error) == TrialPeriod.Validate(trialPeriod.value)
  {
    match trialPeriod
    case None => Ok(None)
    case Some(days) =>
      var t :- TrialPeriod.Create(days);
      Ok(Some(t))
  }

  /** The outcome of each validation `Restore` makes, in the order it makes
      them; `None` for a check that passes or is skipped. */
  function Checks(name: string, description: string, currency: string, interval: string,
                  amountCents: nat, trialPeriod: Option<nat>): seq<Option<string>>
  {
    [ PlanName.Validate(Text.TrimSpace(name)),
      if description == "" then None else Description.Validate(Text.TrimSpace(description)),
      Amount.Validate(amountCents),
      Currency.Validate(Text.TrimSpace(currency)),
      if trialPeriod.None? then None else TrialPeriod.Validate(trialPeriod.value),
      PlanInterval.Validate(interval) ]
  }

  /** The first failure of a sequence of checks. */
  function FirstError(errs: seq<Option<string>>): (e: Option<string>)
    ensures e == None <==> forall k | 0 <= k < |errs| :: errs[k] == None
    ensures e != None ==> exists k | 0 <= k < |errs| :: errs[k] == e && forall j | 0 <= j < k :: errs[j] == None
  {
    if errs == [] then None
    else if errs[0] != None then
      assert errs[0] == errs[0];
      errs[0]
    else
      var e := FirstError(errs[1..]);
      assert forall k | 1 <= k < |errs| :: errs[k] == errs[1..][k - 1];
      e
  }

  /** The first failure of six checks, spelled out. */
  lemma FirstOfSix(cs: seq<Option<string>>)
    requires |cs| == 6
    ensures FirstError(cs) ==
              if cs[0] != None then cs[0] else if cs[1] != None then cs[1]
              else if cs[2] != None then cs[2] else if cs[3] != None then cs[3]
              else if cs[4] != None then cs[4] else cs[5]
  {
    assert cs[1..][1..][1..][1..][1..][1..] == [];
  }

  /** `RestorePlanModel`: validate the fields in the order name, description,
      amount, currency, trial period, interval, the first failure winning,
      and keep the identifier and timestamps given. */
  function Restore(id: nat, name: string, description: string, currency: string, interval: string,
                   amountCents: nat, trialPeriod: Option<nat>,
                   createdAt: Calendar.Time, updatedAt: Calendar.Time): (r: Result<PlanModel>)
    ensures r.Ok? <==> Acceptable(name, description, currency, interval, amountCents, trialPeriod)
    ensures r.Ok? ==>
              && Valid(r.value)
              && r.value.ID() == id
              && r.value.Name().String() == Text.TrimSpace(name)
              && (r.value.Description().None? <==> description == "")
              && (r.value.Description().Some? ==>
                    r.value.Description().value.String() == Text.TrimSpace(description))
              && r.value.Amount().Cents() == amountCents
              && r.value.Currency().Code() == Text.TrimSpace(currency)
              && r.value.Interval().String() == interval
              && (r.value.TrialPeriod().None? <==> trialPeriod.None?)
              && (r.value.TrialPeriod().Some? ==> r.value.TrialPeriod().value.Days() == trialPeriod.value)
              && r.value.CreatedAt() == createdAt && r.value.UpdatedAt() == updatedAt
    ensures r.Err? ==> Some(r.error) == FirstError(Checks(name, description, currency, interval, amountCents, trialPeriod))
  {
    FirstOfSix(Checks(name, description, currency, interval, amountCents, trialPeriod));
    var n :- PlanName.Create(name);
    var d :- DescriptionOf(description);
    var a :- Amount.Create(amountCents);
    var c :- Currency.Create(currency);
    var t :- TrialPeriodOf(trialPeriod);
    var i :- PlanInterval.New(interval);
    Ok(PlanModel(id, n, d, a, c, i, t, createdAt, updatedAt))
  }

  /** Trimming the fields first changes nothing about their acceptability:
      trimming is idempotent, and a description of white space trims to the
      empty one, which is accepted. */
  lemma AcceptableTrimmed(name: string, description: string, currency: string, interval: string,
                          amountCents: nat, trialPeriod: Option<nat>)
    ensures Acceptable(Text.TrimSpace(name), Text.TrimSpace(description), Text.TrimSpace(currency),
                       interval, amountCents, trialPeriod)
            <==> Acceptable(name, description, currency, interval, amountCents, trialPeriod)
  {
    Text.TrimSpaceIdempotent(name);
    Text.TrimSpaceIdempotent(description);
    Text.TrimSpaceIdempotent(currency);
    Text.TrimSpaceEmpty(description);
    Text.TrimSpaceEmpty(Text.TrimSpace(description));
    assert Description.WellFormed("");
  }

  /** `CreatePlanModel`: trim the name, description and currency, then build
      the plan as `Restore` does, with no identifier yet and both timestamps
      set to the current time `now`. A description that is only white space
      becomes no description. */
  function Create(name: string, description: string, currency: string, interval: string,
                  amountCents: nat, trialPeriod: Option<nat>, now: Calendar.Time): (r: Result<PlanModel>)
    ensures r.Ok? <==> Acceptable(name, description, currency, interval, amountCents, trialPeriod)
    ensures r.Ok? ==>
              && Valid(r.value)
              && r.value.ID() == 0
              && r.value.Name().String() == Text.TrimSpace(name)
              && (r.value.Description().None? <==> Text.TrimSpace(description) == "")
              && (r.value.Description().Some? ==>
                    r.value.Description().value.String() == Text.TrimSpace(description))
              && r.value.Amount().Cents() == amountCents
              && r.value.Currency().Code() == Text.TrimSpace(currency)
              && r.value.Interval().String() == interval
              && (r.value.TrialPeriod().None? <==> trialPeriod.None?)
              && (r.value.TrialPeriod().Some? ==> r.value.TrialPeriod().value.Days() == trialPeriod.value)
              && r.value.CreatedAt() == now && r.value.UpdatedAt() == now
    ensures r.Err? ==>
              Some(r.error) == FirstError(Checks(Text.TrimSpace(name), Text.TrimSpace(description),
                                                 Text.TrimSpace(currency), interval, amountCents, trialPeriod))
  {
    AcceptableTrimmed(name, description, currency, interval, amountCents, trialPeriod);
    Text.TrimSpaceIdempotent(name);
    Text.TrimSpaceIdempotent(description);
    Text.TrimSpaceIdempotent(currency);
    Text.TrimSpaceEmpty(description);
    Restore(0, Text.TrimSpace(name), Text.TrimSpace(description), Text.TrimSpace(currency),
            interval, amountCents, trialPeriod, now, now)
  }
}
