/** Conversion between a subscription and its database row. The end-date
    column is never null: a nil end date is stored as the zero time, and the
    zero time is read back as nil. */
module SubscriptionMapper {
  import opened Wrappers
  import opened Calendar
  import SubscriptionStatus
  import Subscription

  /** `entity.SubscriptionEntity`. */
  datatype SubscriptionEntity = SubscriptionEntity(
    id: nat,
    userID: nat,
    planID: nat,
    status: string,
    startDate: Time,
    endDate: Time,
    autoRenew: bool,
    createdAt: Time,
    updatedAt: Time)

  /** The end-date column as `ToModel` reads it: the zero time is nil. */
  function StoredEnd(endDate: Time): (r: Option<Time>)
    ensures r.None? <==> IsZero(endDate)
    ensures r.Some? ==> r.value == endDate
  {
    if !IsZero(endDate) then Some(endDate) else None
  }

  /** `ToModel`: rebuild the subscription through `RestoreSubscriptionModel`,
      which panics on a status code outside the enumeration. */
  function ToModel(entity: SubscriptionEntity): (r: Panicking<Result<Subscription.SubscriptionState>>)
    ensures r.Panics? <==>
              Subscription.Schedulable(entity.userID, entity.planID, entity.startDate, StoredEnd(entity.endDate))
              && entity.status !in SubscriptionStatus.AllowedValues
    ensures r.Returns? && r.value.Err? ==>
              Some(r.value.error) == Subscription.Validate(entity.userID, entity.planID, entity.startDate,
                                                           StoredEnd(entity.endDate))
    ensures r.Returns? && r.value.Ok? ==>
              Subscription.Consistent(r.value.value) && ToEntity(r.value.value) == entity
  {
    Subscription.Restore(entity.id, entity.userID, entity.planID, entity.status, entity.startDate,
                         StoredEnd(entity.endDate), entity.autoRenew, entity.createdAt, entity.updatedAt)
  }

  /** `ToEntity`: copy the fields out, writing a nil end date as the zero
      time. */
  function ToEntity(model: Subscription.SubscriptionState): (e: SubscriptionEntity)
    ensures StoredEnd(e.endDate) == model.endDate <==> model.endDate != Some(Zero)
  {
    var endDate := match model.endDate case None => Zero case Some(t) => t;
    SubscriptionEntity(model.id, model.userID, model.planID, model.status.String(), model.startDate,
                       endDate, model.autoRenew, model.createdAt, model.updatedAt)
  }

  /** Storing a consistent subscription and reading it back gives the same
      subscription, unless its end date is the zero time, which comes back
      as no end date. */
  lemma ModelRoundTrip(s: Subscription.SubscriptionState)
    requires Subscription.Consistent(s)
    ensures s.endDate != Some(Zero) ==> ToModel(ToEntity(s)) == Returns(Ok(s))
    ensures s.endDate == Some(Zero) ==> ToModel(ToEntity(s)) == Returns(Ok(s.(endDate := None)))
  {
    Subscription.RestoreConsistent(s);
    Subscription.RestoreConsistent(s.(endDate := None));
  }

  /** The zero end date is within reach: a subscription starting on the last
      day of year 0 may end at the zero time, the first instant of year 1. */
  lemma ZeroEndDateReachable(now: Time)
    ensures Subscription.Create(1, 1, Time(-1, 0), Some(Zero), now).Ok?
    ensures ToModel(ToEntity(Subscription.Create(1, 1, Time(-1, 0), Some(Zero), now).value)).value.value.endDate == None
  {
    var s := Subscription.Create(1, 1, Time(-1, 0), Some(Zero), now).value;
    ModelRoundTrip(s);
  }

  /** A subscription whose start is not before the zero time, as every real
      one is, survives being stored and read back. */
  lemma ModernRoundTrip(s: Subscription.SubscriptionState)
    requires Subscription.Consistent(s)
    requires !Before(s.startDate, Zero)
    ensures ToModel(ToEntity(s)) == Returns(Ok(s))
  {
    assert s.endDate != Some(Zero) by {
      BeforeIsSeconds(s.startDate, Zero);
      BeforeIsSeconds(Zero, s.startDate);
    }
    ModelRoundTrip(s);
  }
}
