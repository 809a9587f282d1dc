/** Conversion between a plan and its database row. The row has no null
    columns: a nil description is stored as the empty text and a nil trial
    period as zero days, and both are read back as nil. */
module PlanMapper {
  import opened Wrappers
  import Text
  import Calendar
  import PlanName
  import Description
  import Currency
  import Amount
  import Plan

  /** `entity.PlanEntity`. */
  datatype PlanEntity = PlanEntity(
    id: nat,
    name: string,
    description: string,
    amountCents: nat,
    currency: string,
    interval: string,
    trialPeriod: nat,
    createdAt: Calendar.Time,
    updatedAt: Calendar.Time)

  /** The trial period column as `ToModel` reads it: zero is nil. */
  function StoredTrial(days: nat): Option<nat> {
    if days > 0 then Some(days) else None
  }

  /** `ToModel`: rebuild the plan through `RestorePlanModel`, reading a zero
      trial period as nil. */
  function ToModel(entity: PlanEntity): (r: Result<Plan.PlanModel>)
    ensures r.Ok? <==>
              Plan.Acceptable(entity.name, entity.description, entity.currency, entity.interval,
                              entity.amountCents, StoredTrial(entity.trialPeriod))
    ensures r.Ok? ==>
              && Plan.Valid(r.value)
              && r.value.ID() == entity.id
              && (r.value.TrialPeriod().None? <==> entity.trialPeriod == 0)
              && (r.value.Description().None? <==> entity.description == "")
    ensures r.Err? ==>
              Some(r.error) == Plan.FirstError(Plan.Checks(entity.name, entity.description, entity.currency,
                                                           entity.interval, entity.amountCents,
                                                           StoredTrial(entity.trialPeriod)))
  {
    Plan.Restore(entity.id, entity.name, entity.description, entity.currency, entity.interval,
                 entity.amountCents, StoredTrial(entity.trialPeriod), entity.createdAt, entity.updatedAt)
  }

  /** `ToEntity`: copy the fields out, writing nil as the empty description
      and as zero trial days. On a valid plan zero days means no trial. */
  function ToEntity(model: Plan.PlanModel): (e: PlanEntity)
    ensures Plan.Valid(model) ==> (e.trialPeriod == 0 <==> model.TrialPeriod().None?)
    ensures Plan.Valid(model) ==>
              e.amountCents <= Amount.MaxAmountCents && (e.trialPeriod == 0 || 1 <= e.trialPeriod <= 30)
  {
    var trialPeriod := match model.TrialPeriod() case None => 0 case Some(t) => t.Days();
    var description := match model.Description() case None => "" case Some(d) => d.String();
    PlanEntity(model.ID(), model.Name().String(), description, model.Amount().Cents(),
               model.Currency().Code(), model.Interval().String(), trialPeriod,
               model.CreatedAt(), model.UpdatedAt())
  }

  /** A letter or digit is not white space. */
  lemma LetterOrDigitIsNotSpace(c: char)
    requires PlanName.IsLetterOrDigit(c)
    ensures !Text.IsSpace(c)
  {
  }

  /** The texts a valid plan stores are already trimmed. */
  lemma StoredTextsTrimmed(p: Plan.PlanModel)
    requires Plan.Valid(p)
    ensures Text.TrimSpace(p.name.String()) == p.name.String()
    ensures p.description.Some? ==> Text.TrimSpace(p.description.value.String()) == p.description.value.String()
    ensures Text.TrimSpace(p.currency.Code()) == p.currency.Code()
    ensures Currency.IsValidCurrency(p.currency.Code())
  {
    var n := p.name.String();
    LetterOrDigitIsNotSpace(n[0]);
    LetterOrDigitIsNotSpace(n[|n| - 1]);
    Text.TrimmedFixpoint(n);
    if p.description.Some? {
      Text.TrimmedFixpoint(p.description.value.String());
    }
    var c := p.currency.Code();
    Currency.TableCoversValidCodes(c);
    Currency.ValidCodesAreThreeBytes(c);
    Text.TrimmedFixpoint(c);
  }

  /** Storing a valid plan and reading it back gives the same plan, unless
      it holds an empty description, which comes back as none. */
  lemma ModelRoundTrip(p: Plan.PlanModel)
    requires Plan.Valid(p)
    ensures p.description != Some(Description.DescriptionModel("")) ==> ToModel(ToEntity(p)) == Ok(p)
    ensures p.description == Some(Description.DescriptionModel("")) ==>
              ToModel(ToEntity(p)) == Ok(p.(description := None))
  {
    StoredTextsTrimmed(p);
    var e := ToEntity(p);
    var trial := StoredTrial(e.trialPeriod);
    assert Description.WellFormed("");
    assert Plan.Acceptable(e.name, e.description, e.currency, e.interval, e.amountCents, trial);
    var r := ToModel(e);
    assert r.value.name == p.name;
    assert r.value.currency == p.currency;
    assert r.value.amount == p.amount && r.value.interval == p.interval && r.value.trialPeriod == p.trialPeriod;
  }

  /** A stored description of white space only is restored as an empty
      description rather than none: the one plan `ModelRoundTrip` does not
      return unchanged is reachable. */
  lemma BlankDescriptionRestoredEmpty(entity: PlanEntity)
    requires ToModel(entity).Ok?
    requires entity.description != "" && Text.AllSpace(entity.description)
    ensures ToModel(entity).value.description == Some(Description.DescriptionModel(""))
    ensures ToModel(ToEntity(ToModel(entity).value)) == Ok(ToModel(entity).value.(description := None))
  {
    Text.TrimSpaceEmpty(entity.description);
    ModelRoundTrip(ToModel(entity).value);
  }

  /** Reading a row and storing it again gives the row with its name,
      description and currency trimmed. */
  lemma EntityRoundTrip(entity: PlanEntity)
    requires ToModel(entity).Ok?
    ensures ToEntity(ToModel(entity).value)
            == entity.(name := Text.TrimSpace(entity.name),
                       description := Text.TrimSpace(entity.description),
                       currency := Text.TrimSpace(entity.currency))
  {
    if entity.description == "" {
      Text.TrimSpaceEmpty(entity.description);
    }
  }

  /** A row that is already normalised survives a read and a write. */
  lemma NormalisedEntityRoundTrip(entity: PlanEntity)
    requires ToModel(entity).Ok?
    requires Text.Trimmed(entity.name) && Text.Trimmed(entity.description) && Text.Trimmed(entity.currency)
    ensures ToEntity(ToModel(entity).value) == entity
  {
    EntityRoundTrip(entity);
    Text.TrimmedFixpoint(entity.name);
    Text.TrimmedFixpoint(entity.description);
    Text.TrimmedFixpoint(entity.currency);
  }
}
