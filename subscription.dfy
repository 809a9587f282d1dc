/** The Subscription aggregate of billing: a user's subscription to a plan,
    with a status, a start, an optional end and an auto-renew flag.

    `CreateSubscriptionModel` and `RestoreSubscriptionModel` build a value,
    modelled by `SubscriptionState` and the functions `Create` and `Restore`;
    the methods that change a subscription afterwards act in place on a
    `SubscriptionModel` object. The clock reading `time.Now().UTC()` is the
    parameter `now`. */
module Subscription {
  import opened Wrappers
  import opened Calendar
  import SubscriptionStatus
  import PlanInterval
  import EndDate

  const ErrUserIDRequired := "user ID is required"
  const ErrPlanIDRequired := "plan ID is required"
  const ErrStartDateRequired := "start date is required"
  const ErrEndDateBeforeStartDate := "end date cannot be before start date"

  /** The fields of a `SubscriptionModel`; `None` is a nil end date. */
  datatype SubscriptionState = SubscriptionState(
    id: nat,
    userID: nat,
    planID: nat,
    status: SubscriptionStatus.SubscriptionStatusEnum,
    startDate: Time,
    endDate: Option<Time>,
    autoRenew: bool,
    createdAt: Time,
    updatedAt: Time)

  /** An end date, when there is one, is not before the start. */
  predicate EndNotBeforeStart(startDate: Time, endDate: Option<Time>) {
    endDate.None? || !Before(endDate.value, startDate)
  }

  /** The fields `validateSubscription` accepts. */
  predicate Schedulable(userID: nat, planID: nat, startDate: Time, endDate: Option<Time>) {
    userID != 0 && planID != 0 && !IsZero(startDate) && EndNotBeforeStart(startDate, endDate)
  }

  /** What every subscription built by `Create` or `Restore` satisfies, and
      what the methods of `SubscriptionModel` keep. */
  predicate Consistent(s: SubscriptionState) {
    && Schedulable(s.userID, s.planID, s.startDate, s.endDate)
    && s.status.String() in SubscriptionStatus.AllowedValues
  }

  /** `validateSubscription`: user, plan, start date, then the end date
      against the start, the first failure winning. */
  function Validate(userID: nat, planID: nat, startDate: Time, endDate: Option<Time>): (err: Option<string>)
    ensures err == None <==> Schedulable(userID, planID, startDate, endDate)
    ensures userID == 0 ==> err == Some(ErrUserIDRequired)
    ensures userID != 0 && planID == 0 ==> err == Some(ErrPlanIDRequired)
    ensures userID != 0 && planID != 0 && IsZero(startDate) ==> err == Some(ErrStartDateRequired)
    ensures err != None && !IsZero(startDate) && userID != 0 && planID != 0 ==>
              err == Some(ErrEndDateBeforeStartDate)
  {
    if userID == 0 then Some(ErrUserIDRequired)
    else if planID == 0 then Some(ErrPlanIDRequired)
    else if IsZero(startDate) then Some(ErrStartDateRequired)
    else if endDate.Some? && !IsZero(startDate) && Before(endDate.value, startDate) then Some(ErrEndDateBeforeStartDate)
    else None
  }

  /** `CreateSubscriptionModel`: a new subscription is active, renews
      automatically, has no identifier yet and was created and updated at
      `now`. Building the active status cannot fail. */
  function Create(userID: nat, planID: nat, startDate: Time, endDate: Option<Time>, now: Time): (r: Result<SubscriptionState>)
    ensures r.Ok? <==> Schedulable(userID, planID, startDate, endDate)
    ensures r.Err? ==> Some(r.error) == Validate(userID, planID, startDate, endDate)
    ensures r.Ok? ==>
              && Consistent(r.value)
              && r.value.id == 0
              && r.value.userID == userID && r.value.planID == planID
              && r.value.status.String() == SubscriptionStatus.Active
              && r.value.startDate == startDate && r.value.endDate == endDate
              && r.value.autoRenew
              && r.value.createdAt == now && r.value.updatedAt == now
  {
    match Validate(userID, planID, startDate, endDate)
    case Some(e) => Err(e)
    case None =>
      var status := SubscriptionStatus.New(SubscriptionStatus.Active);
      assert status.Returns?;
      Ok(SubscriptionState(0, userID, planID, status.value, startDate, endDate, true, now, now))
  }

  /** `RestoreSubscriptionModel`: the same validation, then the stored status
      code, which panics when it is not one of the five codes; the identifier,
      flag and timestamps are kept as given. */
  function Restore(id: nat, userID: nat, planID: nat, status: string, startDate: Time, endDate: Option<Time>,
                   autoRenew: bool, createdAt: Time, updatedAt: Time): (r: Panicking<Result<SubscriptionState>>)
    ensures r.Panics? <==>
              Schedulable(userID, planID, startDate, endDate) && status !in SubscriptionStatus.AllowedValues
    ensures r.Panics? ==> r.message == "invalid subscription status: " + status
    ensures r.Returns? && r.value.Err? ==> Some(r.value.error) == Validate(userID, planID, startDate, endDate)
    ensures r.Returns? && r.value.Ok? ==>
              && Consistent(r.value.value)
              && r.value.value == SubscriptionState(id, userID, planID, SubscriptionStatus.SubscriptionStatusEnum(status),
                                                    startDate, endDate, autoRenew, createdAt, updatedAt)
  {
    match Validate(userID, planID, startDate, endDate)
    case Some(e) => Returns(Err(e))
    case None =>
      match SubscriptionStatus.New(status)
      case Panics(message) => Panics(message)
      case Returns(statusEnum) =>
        Returns(Ok(SubscriptionState(id, userID, planID, statusEnum, startDate, endDate, autoRenew, createdAt, updatedAt)))
  }

  /** Restoring the fields of a consistent subscription gives it back, and
      only a consistent one comes back. */
  lemma RestoreConsistent(s: SubscriptionState)
    ensures Restore(s.id, s.userID, s.planID, s.status.String(), s.startDate, s.endDate,
                    s.autoRenew, s.createdAt, s.updatedAt) == Returns(Ok(s))
            <==> Consistent(s)
  {
  }

  /** A created subscription survives being stored and restored. */
  lemma RestoreCreated(userID: nat, planID: nat, startDate: Time, endDate: Option<Time>, now: Time)
    requires Create(userID, planID, startDate, endDate, now).Ok?
    ensures var s := Create(userID, planID, startDate, endDate, now).value;
            Restore(s.id, s.userID, s.planID, s.status.String(), s.startDate, s.endDate,
                    s.autoRenew, s.createdAt, s.updatedAt) == Returns(Ok(s))
  {
    var s := Create(userID, planID, startDate, endDate, now).value;
    RestoreConsistent(s);
  }

  /** The end date `EndDate.Map` derives from a start date never fails the
      end-date check: a subscription with a user, a plan and a start date is
      created whatever the plan's interval. */
  lemma MappedEndAccepted(userID: nat, planID: nat, startDate: Time,
                          interval: PlanInterval.PlanIntervalEnum, now: Time)
    requires userID != 0 && planID != 0 && !IsZero(startDate)
    ensures Create(userID, planID, startDate, EndDate.Map(startDate, interval), now).Ok?
  {
    var endDate := EndDate.Map(startDate, interval);
    if endDate.Some? {
      BeforeIsSeconds(endDate.value, startDate);
      BeforeIsSeconds(startDate, endDate.value);
    }
  }

  /** A subscription held in place; its fields mirror `SubscriptionModel`. */
  class SubscriptionModel {
    var id: nat
    var userID: nat
    var planID: nat
    var status: SubscriptionStatus.SubscriptionStatusEnum
    var startDate: Time
    var endDate: Option<Time>
    var autoRenew: bool
    var createdAt: Time
    var updatedAt: Time

    /** The current field values. */
    function Snapshot(): SubscriptionState
      reads this
    {
      SubscriptionState(id, userID, planID, status, startDate, endDate, autoRenew, createdAt, updatedAt)
    }

    /** Holds the value built by `Create` or `Restore`. */
    constructor (s: SubscriptionState)
      ensures Snapshot() == s
    {
      id, userID, planID, status := s.id, s.userID, s.planID, s.status;
      startDate, endDate, autoRenew := s.startDate, s.endDate, s.autoRenew;
      createdAt, updatedAt := s.createdAt, s.updatedAt;
    }

    /** `UpdateStatus`: a valid code replaces the status and stamps the
        update time. An invalid code panics inside the status constructor
        before anything changes, so the error the method declares is never
        returned. */
    method UpdateStatus(statusValue: string, now: Time) returns (r: Panicking<Option<string>>)
      modifies this
      ensures r.Panics? <==> statusValue !in SubscriptionStatus.AllowedValues
      ensures r.Panics? ==>
                r.message == "invalid subscription status: " + statusValue && Snapshot() == old(Snapshot())
      ensures r.Returns? ==>
                && r.value == None
                && Snapshot() == old(Snapshot()).(status := SubscriptionStatus.SubscriptionStatusEnum(statusValue),
                                                  updatedAt := now)
      ensures old(Consistent(Snapshot())) ==> Consistent(Snapshot())
    {
      match SubscriptionStatus.New(statusValue)
      case Panics(message) =>
        return Panics(message);
      case Returns(newStatus) =>
        status := newStatus;
        updatedAt := now;
        return Returns(None);
    }

    /** `UpdateEndDate`: an end date before the start is refused and nothing
        changes; otherwise the end date (possibly nil) is replaced and the
        update time stamped. */
    method UpdateEndDate(newEndDate: Option<Time>, now: Time) returns (err: Option<string>)
      modifies this
      ensures err.Some? <==> !EndNotBeforeStart(old(startDate), newEndDate)
      ensures err.Some? ==> err == Some(ErrEndDateBeforeStartDate) && Snapshot() == old(Snapshot())
      ensures err.None? ==> Snapshot() == old(Snapshot()).(endDate := newEndDate, updatedAt := now)
      ensures old(Consistent(Snapshot())) ==> Consistent(Snapshot())
    {
      if newEndDate.Some? && Before(newEndDate.value, startDate) {
        return Some(ErrEndDateBeforeStartDate);
      }
      endDate := newEndDate;
      updatedAt := now;
      return None;
    }

    /** `SetAutoRenew`: replaces the flag and stamps the update time. */
    method SetAutoRenew(newAutoRenew: bool, now: Time)
      modifies this
      ensures Snapshot() == old(Snapshot()).(autoRenew := newAutoRenew, updatedAt := now)
      ensures old(Consistent(Snapshot())) ==> Consistent(Snapshot())
    {
      autoRenew := newAutoRenew;
      updatedAt := now;
    }
  }
}
