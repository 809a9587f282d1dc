# goflix domain core in Dafny

This project models the domain layer of goflix, a subscription service for
a media-streaming platform, and proves properties of that model. The
modelled layer has two parts:

- **Billing**
  - The value objects: amount, trial period, currency, plan name and
    description.
  - The plan-interval and subscription-status enumerations.
  - The Plan and Subscription aggregates.
  - The end-date mapper, which turns a start date and a plan interval into
    a renewal date.
  - The mappers between the aggregates and their database rows.
- **Identity**
  - The e-mail grammar and the person-name grammar.
  - The auth token and its row mapper.
  - The User aggregate with its confirmation and password-reset state
    machine.

A constructor that returns `(value, error)` in Go becomes a function
returning `Result`, where `Err` carries the error message exactly as the
source builds it. A `nil` reference is `Option.None`. A Go `panic` is a
separate outcome, `Panicking.Panics`. Value objects and the Plan and
AuthToken aggregates are datatypes. Subscription and User, whose methods
update their fields in place, are classes. Their constructors copy a value
built by the pure functions `Create` and `Restore`. Their methods carry
`modifies this` and state the whole new state through `Snapshot()`.

Module layout, leaves first:

- Supporting modules:
  - `wrappers.dfy`: Option, Result, Panicking.
  - `text.dfy`: the parts of Go's `strings`, `unicode` and `utf8` that the
    validators call.
  - `calendar.dfy`: `time.Time` as a day number and a second of the day,
    with Go's `AddDate` and its normalisation of days past the end of a
    month.
- Billing:
  - `amount.dfy`, `trial_period.dfy`, `plan_interval.dfy`,
    `subscription_status.dfy`, `currency.dfy`, `description.dfy`,
    `plan_name.dfy`: the value objects and enumerations.
  - `plan.dfy`, `subscription.dfy`, `end_date.dfy`: the aggregates and the
    end-date mapper.
  - `plan_mapper.dfy`, `subscription_mapper.dfy`: the row mappers.
- Identity:
  - `email.dfy`, `person_name.dfy`: the two grammars.
  - `auth_token.dfy`, `auth_token_mapper.dfy`: the auth token and its row
    mapper.
  - `user.dfy`: the User aggregate.

The clock (`time.Now().UTC()`) is a parameter `now` of every operation
that reads it.

Some members stand in for Go's standard library and carry no contract of
their own:
- `Calendar.After` stands for `time.Time.After`.
- `Text.IsLetter`, `Text.IsDigit`, `Text.IsPrint`, `Text.IsControl` and
  `Text.IsSpace` stand for the `unicode` predicates of the same names.
- `Text.Split` and `Text.Count` stand for `strings.Split` and
  `strings.Count`.

Their behaviour is stated by the lemmas listed below, such as
`Calendar.BeforeIsSeconds` and `Text.SplitShape`, and under "## Left out".

Where the code disagrees with its documentation or its tests, the model
follows the code:

- `RestorePlanModel` never checks the identifier, so `Plan.Restore`
  accepts id 0.
- An unknown subscription status code panics in the code
  (subscription_status_enum.go:18-20). Its tests expect an
  `ErrInvalidSubscriptionStatus` error instead
  (subscription_status_enum_test.go:72-105). They also expect `UpdateStatus`
  to return an error and leave the subscription unchanged
  (subscription_model_test.go:248-264). `SubscriptionStatus.New`,
  `Subscription.Restore` and `Subscription.SubscriptionModel.UpdateStatus`
  therefore return `Panics` with the validator's message. `UpdateStatus`
  panics before it changes anything.
- `CreateSubscriptionModel` takes four arguments: user id, plan id, start
  and end date (subscription_model.go:22-26). Its test calls it with six,
  adding a status and an auto-renew flag (subscription_model_test.go:26).
  `Subscription.Create` follows the code, with `now` added, and always
  gives an active, auto-renewing subscription.
- An unknown plan interval gets a freshly built error, "invalid plan
  interval: " followed by the code (plan_interval_enum.go:42). Its tests
  check `errors.Is` against the sentinel `ErrInvalidPlanInterval`
  (plan_interval_enum_test.go:68, 80, 92), which that error never matches.
  `PlanInterval.Validate` keeps the code's text. Errors here are plain
  strings, so the model cannot express sentinel identity at all. No code
  outside the tests compares a validation error with `errors.Is`.
- The person-name tests (identity name_model_test.go:109-133) expect
  results the code cannot produce:
  - " John" is expected to be refused, but `CreateNameModel` trims it and
    accepts it (`PersonName.PaddingTrimmed`).
  - "-John" and "'John" are expected to get "cannot start with
    punctuation", but get the first-letter error
    (`PersonName.LeadingMarkBadStart`).
  - "John-" and "John'" are expected to get "cannot end with punctuation",
    but get the last-rune error (`PersonName.TrailingMarkBadEnd`).
  - The first- and last-rune checks run before the boundary checks, so
    the boundary messages are never returned by the constructor
    (`PersonName.BoundariesUnreachable`).
- Two error messages name limits the code does not enforce. A trial period
  over 30 days is refused with "cannot exceed 365 days". A description over
  1000 runes is refused with "cannot exceed 255 characters". Both messages
  are kept verbatim.

## Model

| member | source | states |
|---|---|---|
| Amount.Validate | internal/billing/domain/model/amount_model.go:26-32 | no error exactly when the amount is at most 999,999,999 cents; otherwise the "exceeds maximum" error |
| Amount.Create | internal/billing/domain/model/amount_model.go:15-20 | an amount is accepted exactly when it is within the maximum, and it keeps its value; the only error is the maximum |
| Amount.Boundaries | internal/billing/domain/model/amount_model.go:7-9 | 0 and 999,999,999 are accepted; 1,000,000,000 is refused with the source's message |
| TrialPeriod.Validate | internal/billing/domain/model/trial_period_model.go:27-37 | no error exactly for 1..30 days; below 1 is "too short", above 30 is "too long" |
| TrialPeriod.Create | internal/billing/domain/model/trial_period_model.go:16-21 | accepted exactly for 1..30 days, keeping the days; the error is the validator's |
| TrialPeriod.ZeroValueIsInvalid | internal/billing/domain/model/trial_period_model.go:12-25 | the zero value of the model holds 0 days, which the constructor refuses as too short |
| TrialPeriod.Boundaries | internal/billing/domain/model/trial_period_model.go:7-10 | 1 and 30 days are accepted; 31 is refused with the message as written ("365 days") |
| PlanInterval.Validate | internal/billing/domain/enum/plan_interval_enum.go:33-46 | no error exactly for the four codes; otherwise "invalid plan interval: " followed by the code |
| PlanInterval.New | internal/billing/domain/enum/plan_interval_enum.go:19-25 | accepts exactly Day, Week, Month and Year (case-sensitive), keeping the code |
| PlanInterval.ZeroValueIsInvalid | internal/billing/domain/enum/plan_interval_enum.go:14-25 | the zero-value enumeration and "month" are not valid intervals |
| SubscriptionStatus.Validate | internal/billing/domain/enum/subscription_status_enum.go:29-43 | no error exactly for the five status codes; otherwise "invalid subscription status: " followed by the code |
| SubscriptionStatus.New | internal/billing/domain/enum/subscription_status_enum.go:17-23 | returns exactly for the five codes, keeping the code; panics with the validator's message otherwise |
| SubscriptionStatus.InvalidCodesPanic | internal/billing/domain/enum/subscription_status_enum.go:17-23 | the empty code and "active" panic; "Active" is accepted |
| Currency.CurrencyData | internal/billing/domain/model/currency_model.go:54-238 | every record of the table carries its own key as its code |
| Currency.TableCoversValidCodes | internal/billing/domain/model/currency_model.go:54-280 | the record table holds a record exactly for the codes of the validator's set |
| Currency.ValidCodesAreThreeBytes | internal/billing/domain/model/currency_model.go:246-280 | every valid code is three bytes, all capital ASCII letters |
| Currency.CodesAreCapitals | internal/billing/domain/model/currency_model.go:250-277 | every code of the validator's set is made of capital letters A..Z |
| Currency.CurrencyInfo | internal/billing/domain/model/currency_model.go:54-238 | the returned record carries the code asked for, and it is the table's record exactly when the code is valid |
| Currency.Validate | internal/billing/domain/model/currency_model.go:241-280 | no error exactly for a code of the set; empty, then wrong byte length, then unknown code, each with its message |
| Currency.Create | internal/billing/domain/model/currency_model.go:20-28 | accepts exactly the codes valid after trimming, returning the table's record for the trimmed code; otherwise the validator's error |
| Currency.UsdRecord | internal/billing/domain/model/currency_model.go:60 | USD is valid and its record is American Samoa, US Dollar, 840 |
| Currency.AcceptsPaddedCode | internal/billing/domain/model/currency_model.go:20-28 | a code padded with spaces is trimmed and accepted |
| Currency.RejectsLowerCase | internal/billing/domain/model/currency_model.go:241-280 | a three-letter ASCII code that does not start with a capital is refused as unknown |
| Currency.RejectsWrongLength | internal/billing/domain/model/currency_model.go:246-248 | a non-empty ASCII code of another length is refused with the length error |
| Currency.RejectsBlank | internal/billing/domain/model/currency_model.go:20-28 | a code of spaces only trims to empty and is refused as empty |
| Description.ValidateFormat | internal/billing/domain/model/description_model.go:60-79 | no error exactly when there is no surrounding space, no run of three spaces and no control rune other than newline and tab |
| Description.ControlUnreachable | internal/billing/domain/model/description_model.go:60-84 | once every rune passed `isValidDescriptionChar`, the control-rune scan can never fail |
| Description.Validate | internal/billing/domain/model/description_model.go:32-58 | no error exactly for a well-formed description; the checks run length, then runes, then format: an over-long text gets the length error, a text within the length with an invalid rune gets the rune error, and only a text of valid runes reaches the format check; the control-rune error is never returned |
| Description.SpacesTrimmedAway | internal/billing/domain/model/description_model.go:20-26 | a trimmed text neither starts nor ends with a space |
| Description.Create | internal/billing/domain/model/description_model.go:20-26 | accepts exactly the texts whose trimmed form is well formed, storing the trimmed form; the boundary and control errors are unreachable |
| Description.CreateIdempotent | internal/billing/domain/model/description_model.go:20-26 | building again from a stored description gives the same description |
| Description.BlankIsEmpty | internal/billing/domain/model/description_model.go:20-36 | a text of white space only is accepted as the empty description |
| Description.CreateTrimmed | internal/billing/domain/model/description_model.go:20-26 | on a trimmed text the constructor returns the text when it is well formed and the validator's error otherwise |
| Description.LengthLimit | internal/billing/domain/model/description_model.go:38-42 | a text of letters is accepted up to 1000 runes and refused with the length error beyond |
| Description.TwoSpacesAccepted | internal/billing/domain/model/description_model.go:66-69 | two spaces in a row are accepted |
| Description.ThreeSpacesRefused | internal/billing/domain/model/description_model.go:66-69 | three spaces in a row are refused with their message |
| Description.NulRefused | internal/billing/domain/model/description_model.go:44-50 | a NUL rune is refused by the rune check, before the control-rune scan |
| PlanName.ValidateBoundaries | internal/billing/domain/model/name_model.go:90-106 | no error exactly when the name neither starts nor ends with a space, '-', '_' or '.' |
| PlanName.PunctuationRules | internal/billing/domain/model/name_model.go:108-123 | the only error is the excessive-punctuation one |
| PlanName.CheckPunctuationRules | internal/billing/domain/model/name_model.go:108-123 | the counting loop returns what `PunctuationRules` decides: the excessive-punctuation error exactly when more than two of '-', '_', '.' stand in a row |
| PlanName.ValidateFormat | internal/billing/domain/model/name_model.go:82-88 | no error exactly when both the boundary and the punctuation checks pass |
| PlanName.Validate | internal/billing/domain/model/name_model.go:34-80 | no error exactly for a name of the grammar (2..100 runes, letter or digit at both ends, no double space, valid runes, at most two marks in a row); the first failing check decides the error, in the order empty, too short, too long, first rune, last rune, double space, invalid rune, punctuation run |
| PlanName.BoundariesUnreachable | internal/billing/domain/model/name_model.go:34-106 | after the first and last rune checks pass, the boundary checks can never fail |
| PlanName.Create | internal/billing/domain/model/name_model.go:22-28 | accepts exactly the names whose trimmed form is well formed, storing the trimmed form; otherwise the validator's error |
| PlanName.CreateIdempotent | internal/billing/domain/model/name_model.go:22-28 | building again from a stored name gives the same name |
| PlanName.CreateTrimmed | internal/billing/domain/model/name_model.go:22-28 | on a text already trimmed the constructor returns it when well formed, the validator's error otherwise |
| PlanName.JoinedWellFormed | internal/billing/domain/model/name_model.go:34-123 | two words of letters and digits joined by at most two marks form a well-formed name |
| PlanName.JoinedOverlong | internal/billing/domain/model/name_model.go:108-123 | joined by more than two marks, they are refused with the excessive-punctuation error |
| PlanName.MarksAccepted | internal/billing/domain/model/name_model.go:22-123 | the constructor accepts such a name unchanged |
| PlanName.MarksRefused | internal/billing/domain/model/name_model.go:22-123 | the constructor refuses the over-punctuated one with the excessive-punctuation error |
| Plan.DescriptionOf | internal/billing/domain/model/plan_model.go:36-43 | the empty text gives no description; any other text is built as a description, failing with its error |
| Plan.TrialPeriodOf | internal/billing/domain/model/plan_model.go:55-62 | a nil trial period stays nil; a given one is accepted exactly for 1..30 days |
| Plan.FirstError | internal/billing/domain/model/plan_model.go:88-124 | none exactly when every check passes; otherwise the first failing check's error |
| Plan.FirstOfSix | internal/billing/domain/model/plan_model.go:88-124 | on the six checks, the first error is found in the order name, description, amount, currency, trial period, interval |
| Plan.Restore | internal/billing/domain/model/plan_model.go:81-137 | accepts exactly acceptable fields (no check of the id); the plan is valid and holds the trimmed texts, the amount, interval, trial period, id and timestamps given; an error is the first failing check's |
| Plan.AcceptableTrimmed | internal/billing/domain/model/plan_model.go:27-29 | trimming name, description and currency first changes nothing about whether the fields are acceptable |
| Plan.Create | internal/billing/domain/model/plan_model.go:22-79 | accepted exactly for acceptable fields; the plan is valid and holds the trimmed texts, id 0, the amount, interval and trial period given and both timestamps `now`, with a nil description exactly when it trims to empty; an error is the first failing check on the trimmed fields |
| Subscription.Validate | internal/billing/domain/model/subscription_model.go:140-162 | no error exactly when user, plan and start are set and the end is not before the start; the errors in the source's order |
| Subscription.Create | internal/billing/domain/model/subscription_model.go:22-46 | accepted exactly when schedulable; the new subscription is Active, auto-renewing, id 0, with the given dates and both timestamps `now` |
| Subscription.Restore | internal/billing/domain/model/subscription_model.go:48-76 | a schedulable subscription with a status outside the five codes panics with its message; otherwise the validation error, or the subscription with every field as given |
| Subscription.RestoreConsistent | internal/billing/domain/model/subscription_model.go:48-76 | restoring the fields of a subscription gives it back exactly when it is consistent |
| Subscription.RestoreCreated | internal/billing/domain/model/subscription_model.go:22-76 | a created subscription survives being restored from its fields |
| Subscription.MappedEndAccepted | internal/billing/domain/model/subscription_model.go:140-162 | the end date derived by the end-date mapper never fails the end-date check, whatever the interval |
| Subscription.SubscriptionModel.constructor | internal/billing/domain/model/subscription_model.go:10-20 | the object holds exactly the fields of the value it is built from |
| Subscription.SubscriptionModel.UpdateStatus | internal/billing/domain/model/subscription_model.go:114-123 | panics, changing nothing, exactly on an invalid code; otherwise replaces the status and stamps the update time, never returning an error; consistency is kept |
| Subscription.SubscriptionModel.UpdateEndDate | internal/billing/domain/model/subscription_model.go:125-133 | an end before the start is refused and nothing changes; otherwise the end date (possibly nil) is replaced and the update time stamped; consistency is kept |
| Subscription.SubscriptionModel.SetAutoRenew | internal/billing/domain/model/subscription_model.go:135-138 | replaces the flag and stamps the update time, nothing else; consistency is kept |
| EndDate.Map | internal/billing/domain/mapper/end_date_mapper.go:20-50 | an end date exactly for the four intervals, strictly after the start and at the same time of day |
| EndDate.MapAdvance | internal/billing/domain/mapper/end_date_mapper.go:27-43 | Month adds the length of the start's month, Year 365 or 366 days, Week 7 days, Day 1 day |
| EndDate.MonthAfterDate | internal/billing/domain/mapper/end_date_mapper.go:28-31 | on a calendar date, Month moves to the same day number of the next month, rolling over into the next year |
| EndDate.YearAfterDate | internal/billing/domain/mapper/end_date_mapper.go:32-35 | Year moves to the same month and day of the next year |
| EndDate.WeekAfterDate | internal/billing/domain/mapper/end_date_mapper.go:36-39 | Week moves the day of the month on by seven, normalised as Go's `time.Date` does |
| EndDate.DayAfterDate | internal/billing/domain/mapper/end_date_mapper.go:40-43 | Day moves the day of the month on by one, normalised |
| EndDate.MonthAfterJanuaryEnd | internal/billing/domain/mapper/end_date_mapper_test.go:101-114 | in a leap year a month after January 31 is March 2 |
| EndDate.MonthAfterJanuary29 | internal/billing/domain/mapper/end_date_mapper_test.go:86-99 | in a leap year a month after January 29 is February 29 |
| EndDate.LeapFebruaryOverflow | internal/billing/domain/mapper/end_date_mapper_test.go:101-114 | in a leap year February 31 normalises to March 2 |
| EndDate.YearAfterLeapDay | internal/billing/domain/mapper/end_date_mapper_test.go:116-129 | a year after February 29 is March 1 of the next year |
| EndDate.NoLeapDay | internal/billing/domain/mapper/end_date_mapper_test.go:116-129 | in a common year February 29 normalises to March 1 |
| EndDate.WeekIntoMay | internal/billing/domain/mapper/end_date_mapper_test.go:131-144 | a week after April 28 is May 5 |
| EndDate.DayAfterYearEnd | internal/billing/domain/mapper/end_date_mapper_test.go:71-84 | a day after December 31 is January 1 of the next year |
| EndDate.ZeroPlusMonth | internal/billing/domain/mapper/end_date_mapper_test.go:158-171 | a month after the zero time is February 1 of year 1 |
| EndDate.UnknownIntervalHasNoEnd | internal/billing/domain/mapper/end_date_mapper.go:44-46 | an unknown interval code and the zero-value interval give no end date |
| Calendar.BeforeIsSeconds | internal/billing/domain/mapper/end_date_mapper.go:20-50 | `Before` orders instants as their seconds since the zero time |
| Calendar.AddDate | internal/billing/domain/mapper/end_date_mapper.go:30-42 | `Time.AddDate` keeps the time of day and adding nothing is the identity; its outcome on calendar dates is stated by `AddMonthToDate`, `AddYearToDate` and `AddDaysToDate` |
| Calendar.Before | internal/billing/domain/model/subscription_model.go:157 | `time.Time.Before`: strictly earlier, by day and then by second of the day, so no instant is before itself; `BeforeIsSeconds` states it as the order of seconds |
| Calendar.IsZero | internal/billing/domain/model/subscription_model.go:153 | `time.Time.IsZero`: true of the zero time 0001-01-01T00:00:00Z and of no other instant, the one instant zero seconds from it |
| Calendar.CivilFromDays | internal/billing/domain/mapper/end_date_mapper.go:30-42 | every day number is a valid calendar date whose day number is the one given |
| Calendar.CivilRoundTrip | internal/billing/domain/mapper/end_date_mapper.go:30-42 | a valid date converted to its day number and back is the same date |
| Calendar.AddDays | internal/billing/domain/mapper/end_date_mapper.go:38-42 | adding whole days moves the day number by that many and keeps the time of day |
| Calendar.AddMonth | internal/billing/domain/mapper/end_date_mapper.go:30 | adding a month moves the day number by the length of the start's month |
| Calendar.AddMonthForward | internal/billing/domain/mapper/end_date_mapper.go:30 | adding a month gives a strictly later instant |
| Calendar.AddYear | internal/billing/domain/mapper/end_date_mapper.go:34 | adding a year moves the day number by 365 or 366 and keeps the time of day |
| Calendar.AddMonthToDate | internal/billing/domain/mapper/end_date_mapper.go:30 | on a calendar date, adding a month gives the same day of the month in the next month, normalised as `time.Date` does |
| Calendar.AddYearToDate | internal/billing/domain/mapper/end_date_mapper.go:34 | on a calendar date, adding a year gives the same month and day in the next year, normalised as `time.Date` does |
| Calendar.AddDaysToDate | internal/billing/domain/mapper/end_date_mapper.go:38-42 | on a calendar date, adding days adds them to the day of the month, normalised as `time.Date` does |
| PlanMapper.ToModel | internal/billing/infra/persistence/gorm/mapper/plan_mapper.go:20-41 | a row becomes a plan exactly when its fields are acceptable with zero trial days read as nil; the plan keeps the id, and its description and trial are nil exactly for the empty text and zero; an error is the first failing check's |
| PlanMapper.ToEntity | internal/billing/infra/persistence/gorm/mapper/plan_mapper.go:43-70 | on a valid plan, zero trial days are written exactly for a nil trial, and amount and trial are within their bounds |
| PlanMapper.StoredTextsTrimmed | internal/billing/infra/persistence/gorm/mapper/plan_mapper.go:43-70 | the name, description and currency code a valid plan writes are already trimmed, and the code is valid |
| PlanMapper.ModelRoundTrip | internal/billing/infra/persistence/gorm/mapper/plan_mapper.go:20-70 | writing a valid plan and reading it back gives the same plan, except that an empty description comes back as nil |
| PlanMapper.BlankDescriptionRestoredEmpty | internal/billing/infra/persistence/gorm/mapper/plan_mapper.go:20-41 | a stored description of spaces only is read as an empty description, not nil, and a second write and read turns it into nil |
| PlanMapper.EntityRoundTrip | internal/billing/infra/persistence/gorm/mapper/plan_mapper.go:20-70 | reading a row and writing it again gives the row with name, description and currency trimmed |
| PlanMapper.NormalisedEntityRoundTrip | internal/billing/infra/persistence/gorm/mapper/plan_mapper.go:20-70 | a row whose texts are already trimmed survives a read and a write unchanged |
| SubscriptionMapper.StoredEnd | internal/billing/infra/persistence/gorm/mapper/subscription_mapper.go:23-27 | the zero end date is read as nil, and any other end date as itself |
| SubscriptionMapper.ToModel | internal/billing/infra/persistence/gorm/mapper/subscription_mapper.go:22-43 | panics exactly on a schedulable row with an unknown status; otherwise the validation error, or a consistent subscription that writes back to the same row |
| SubscriptionMapper.ToEntity | internal/billing/infra/persistence/gorm/mapper/subscription_mapper.go:45-64 | the end date written reads back as the subscription's own, except for an end date equal to the zero time |
| SubscriptionMapper.ModelRoundTrip | internal/billing/infra/persistence/gorm/mapper/subscription_mapper.go:22-64 | writing a consistent subscription and reading it back gives it back, except that a zero end date comes back as nil |
| SubscriptionMapper.ZeroEndDateReachable | internal/billing/infra/persistence/gorm/mapper/subscription_mapper.go:22-64 | a subscription created with the zero time as its end date loses it through a write and a read |
| SubscriptionMapper.ModernRoundTrip | internal/billing/infra/persistence/gorm/mapper/subscription_mapper.go:22-64 | a consistent subscription starting no earlier than the zero time survives a write and a read |
| AuthToken.ValidateIssue | internal/identity/domain/model/auth_token_model.go:19-39 | no error exactly when user id, token and expiry are set; the first missing one, in the order user id, token, expiry, decides the error |
| AuthToken.Create | internal/identity/domain/model/auth_token_model.go:19-39 | accepted exactly for issued fields, with id 0 and both timestamps `now`; otherwise the first failing check's error |
| AuthToken.Restore | internal/identity/domain/model/auth_token_model.go:41-73 | accepted exactly with a non-zero id and issued fields, keeping every field; the id is checked first |
| AuthToken.ValidUntilExpiry | internal/identity/domain/model/auth_token_model.go:99-105 | a token is valid at `now` exactly when `now` is not past its expiry |
| AuthToken.ExpiryIsFinal | internal/identity/domain/model/auth_token_model.go:99-101 | an expired token stays expired at every later instant |
| AuthToken.FreshTokenValid | internal/identity/domain/model/auth_token_model.go:19-39 | a created token whose expiry is not before `now` is valid at `now` |
| AuthToken.RestoreCreated | internal/identity/domain/model/auth_token_model.go:19-73 | a created token is refused on restore with its id 0, and restored unchanged under any other id |
| AuthTokenMapper.ToModel | internal/identity/infra/persistence/gorm/mapper/auth_token_mapper.go:20-33 | a row becomes a token exactly when its id and issued fields are set, and that token writes back to the same row; a refused row fails with the id error when its id is 0, otherwise with the first failing issue check |
| AuthTokenMapper.ToEntity | internal/identity/infra/persistence/gorm/mapper/auth_token_mapper.go:35-44 | the row carries all six fields of the token: id, user id, text, expiry and both timestamps |
| AuthTokenMapper.ModelRoundTrip | internal/identity/infra/persistence/gorm/mapper/auth_token_mapper.go:20-44 | an issued token survives a write and a read exactly when it has an id; without one, the read fails with the id error, and the same token given any id survives unchanged |
| Email.ValidateLocalPart | internal/identity/domain/model/email_model.go:73-100 | no error exactly for a well-formed local part; the emptiness error exactly for the empty one |
| Email.ValidateDomainFormat | internal/identity/domain/model/email_model.go:118-140 | no error exactly when the domain has no surrounding dot or hyphen, holds a dot and never two in a row; the first failing check decides the error, in the order dot at an end, hyphen at an end, no dot, two dots in a row |
| Email.ValidateTopLevelDomain | internal/identity/domain/model/email_model.go:175-186 | no error exactly for at least two bytes, all letters |
| Email.ValidateRegularDomainLabel | internal/identity/domain/model/email_model.go:188-200 | no error exactly for no surrounding hyphen and only letters, digits and hyphens |
| Email.ValidateDomainLabel | internal/identity/domain/model/email_model.go:159-173 | no error exactly when the label passes the rules of its kind; the emptiness error exactly for the empty label |
| Email.LabelsError | internal/identity/domain/model/email_model.go:149-154 | the loop returns no error exactly when every label from the given one on passes, the last judged as the top-level one |
| Email.ValidateDomainLabels | internal/identity/domain/model/email_model.go:142-157 | no error exactly for at least two well-formed labels; the empty-label error only when some label is empty |
| Email.LabelsVerdict | internal/identity/domain/model/email_model.go:142-173 | with two labels or more, every label passing its own check is the label grammar |
| Email.LabelsImplyFormat | internal/identity/domain/model/email_model.go:111-157 | a domain whose labels pass always passes every format check |
| Email.FormatImpliesLabels | internal/identity/domain/model/email_model.go:111-161 | a domain passing the format checks splits into at least two non-empty labels, so the two-label and empty-label errors are unreachable |
| Email.DomainVerdict | internal/identity/domain/model/email_model.go:111-115 | past the length checks, format and labels together accept exactly the domains whose labels pass |
| Email.EmptyDomainRefused | internal/identity/domain/model/email_model.go:103-105 | the empty domain is not well formed |
| Email.ValidateDomain | internal/identity/domain/model/email_model.go:102-116 | no error exactly for a well-formed domain; the empty and over-long errors come first, then the format check's error, and only a domain passing the format reaches the label checks |
| Email.DomainHasNoAt | internal/identity/domain/model/email_model.go:142-237 | a well-formed domain holds no '@' |
| Email.Validate | internal/identity/domain/model/email_model.go:36-71 | no error exactly for a well-formed address; the empty and over-long errors come first, then the '@'-position error, then the multiple-'@' error; with a single '@', the local part's error comes before the domain's |
| Email.AtSplit | internal/identity/domain/model/email_model.go:47-58 | when the text after the first '@' holds none, the address is local part, '@', domain, with a single '@' |
| Email.PartsNeverEmpty | internal/identity/domain/model/email_model.go:47-50 | past the position check, local part and domain are never empty, so their emptiness errors are unreachable |
| Email.Create | internal/identity/domain/model/email_model.go:24-30 | accepts exactly the addresses well formed after trimming, storing the trimmed text; a blank input gets "email is required" |
| Email.CreateIdempotent | internal/identity/domain/model/email_model.go:24-30 | building again from a stored address gives the same address |
| Email.Disassemble | internal/identity/domain/model/email_model.go:36-71 | an accepted address has exactly one '@', neither first nor last, between a well-formed local part and a well-formed domain |
| Email.LocalPartShape | internal/identity/domain/model/email_model.go:202-232 | a well-formed local part holds no '@' and does not start with white space |
| Email.DomainEndsWithLetter | internal/identity/domain/model/email_model.go:175-186 | a well-formed domain ends with a letter |
| Email.CreateWellFormed | internal/identity/domain/model/email_model.go:24-30 | a trimmed, well-formed address is stored as it stands |
| Email.AddressWellFormed | internal/identity/domain/model/email_model.go:36-71 | a well-formed local part, '@' and a well-formed domain within 320 bytes form a well-formed address |
| Email.AddressTrimmed | internal/identity/domain/model/email_model.go:24-30 | such an address has no surrounding white space |
| Email.Assemble | internal/identity/domain/model/email_model.go:24-71 | the constructor accepts such an address unchanged: the grammar read in the other direction |
| PersonName.ValidateBoundaries | internal/identity/domain/model/name_model.go:90-106 | no error exactly when the name neither starts nor ends with a space or with a hyphen or an apostrophe; a period is allowed at either end |
| PersonName.PunctuationRules | internal/identity/domain/model/name_model.go:108-123 | the only error is the excessive-punctuation one |
| PersonName.CheckPunctuationRules | internal/identity/domain/model/name_model.go:108-123 | the counting loop returns what `PunctuationRules` decides: the excessive-punctuation error exactly when more than three of '-', '\'', '.' stand in a row |
| PersonName.ValidateFormat | internal/identity/domain/model/name_model.go:82-88 | no error exactly when both the boundary and the punctuation checks pass |
| PersonName.Validate | internal/identity/domain/model/name_model.go:34-80 | no error exactly for a name of the grammar (2..255 runes, a letter first, letter or digit last, no double space, valid runes, at most three marks in a row); the first failing check decides the error, in the order empty, too short, too long, first rune, last rune, double space, invalid rune, punctuation run |
| PersonName.BoundariesUnreachable | internal/identity/domain/model/name_model.go:49-106 | after the first and last rune checks pass, the boundary checks can never fail |
| PersonName.Create | internal/identity/domain/model/name_model.go:22-28 | accepts exactly the names whose trimmed form is well formed, storing the trimmed form; otherwise the validator's error |
| PersonName.CreateIdempotent | internal/identity/domain/model/name_model.go:22-28 | building again from a stored name gives the same name |
| PersonName.CreateTrimmed | internal/identity/domain/model/name_model.go:22-28 | on a text already trimmed the constructor returns it when well formed, the validator's error otherwise |
| PersonName.JoinedWellFormed | internal/identity/domain/model/name_model.go:34-123 | two words of letters and digits, the first starting with a letter, joined by at most three marks form a well-formed name |
| PersonName.JoinedOverlong | internal/identity/domain/model/name_model.go:108-123 | joined by more than three marks, they are refused with the excessive-punctuation error |
| PersonName.MarksAccepted | internal/identity/domain/model/name_model.go:22-123 | the constructor accepts such a name unchanged |
| PersonName.MarksRefused | internal/identity/domain/model/name_model.go:22-123 | the constructor refuses the over-punctuated one with the excessive-punctuation error |
| PersonName.PaddingTrimmed | internal/identity/domain/model/name_model.go:22-28 | white space around a name changes nothing about what the constructor returns |
| PersonName.LeadingMarkBadStart | internal/identity/domain/model/name_model.go:49-53 | a name starting with '-' or '\'' is refused by the first-letter check, not by the boundary check |
| PersonName.TrailingMarkBadEnd | internal/identity/domain/model/name_model.go:55-59 | a name ending with '-' or '\'' is refused by the last-rune check |
| PersonName.FormatAloneRaisesBoundaryErrors | internal/identity/domain/model/name_model.go:90-106 | called on its own, the format check does raise its three boundary errors |
| User.CheckLength | internal/identity/domain/model/user_model.go:284-315 | the shared byte-length check: empty, too short, too long in that order, no error exactly within the bounds |
| User.ValidatePasswordHash | internal/identity/domain/model/user_model.go:284-299 | no error exactly for a hash of 32 to 255 bytes; the required error exactly for the empty one |
| User.ValidateConfirmationToken | internal/identity/domain/model/user_model.go:301-315 | no error exactly for a token of 16 to 255 bytes; the required error exactly for the empty one |
| User.CheckExpiry | internal/identity/domain/model/user_model.go:317-351 | no error exactly for a set expiry strictly after `now`; an unset one gets the required error, a past one the other |
| User.ValidateConfirmationExpiresAt | internal/identity/domain/model/user_model.go:317-327 | no error exactly for a set expiry strictly after `now` |
| User.ValidateResetPasswordToken | internal/identity/domain/model/user_model.go:329-351 | no error exactly for a valid token with a future expiry; the token is checked first |
| User.ValidateTimestamps | internal/identity/domain/model/user_model.go:353-367 | no error exactly when both timestamps are set and the update is not before the creation, with each error in order |
| User.ValidateCreationInputs | internal/identity/domain/model/user_model.go:249-266 | no error exactly for a valid hash, a valid token and a future expiry |
| User.ValidateRestorationInputs | internal/identity/domain/model/user_model.go:268-282 | no error exactly for a non-zero id, a valid hash and ordered timestamps; the id is checked first |
| User.Create | internal/identity/domain/model/user_model.go:32-73 | accepted exactly when hash, token, expiry, name and e-mail all pass after trimming, each failure giving its own error in that order; the new user has id 0, the trimmed texts, is inactive and unconfirmed with the confirmation token and expiry pending, no reset details, and both timestamps `now` |
| User.Restore | internal/identity/domain/model/user_model.go:75-126 | accepted exactly for a non-zero id, a valid hash, ordered timestamps, a valid name and e-mail (after trimming), each failure giving its error in that order; the flag, tokens and instants are kept as given |
| User.ConfirmationTokenValid | internal/identity/domain/model/user_model.go:190-203 | true exactly when confirmation is pending, its expiry is after `now` and the stored token equals the one offered |
| User.ResetTokenValid | internal/identity/domain/model/user_model.go:223-236 | true exactly when a reset token and expiry are stored, the expiry is after `now` and the tokens are equal |
| User.CreatedValid | internal/identity/domain/model/user_model.go:32-73 | a created user satisfies the user invariant |
| User.CreatedPending | internal/identity/domain/model/user_model.go:32-73 | a created user is inactive with id 0, accepts at creation time exactly its trimmed confirmation token, and accepts no reset token at any time |
| User.AwaitingConfirmation | internal/identity/domain/model/user_model.go:190-236 | a user with a pending confirmation and no reset token accepts exactly its confirmation token and no reset token |
| User.CreatedNotRestorable | internal/identity/domain/model/user_model.go:75-126 | a created user, still without an id, is refused by restore with the id error |
| User.RestoreStored | internal/identity/domain/model/user_model.go:75-126 | restoring the fields of a user gives it back exactly when it has an id, satisfies the invariant and has ordered timestamps |
| User.RestoredIsStored | internal/identity/domain/model/user_model.go:75-126 | a user that comes back from its own fields has an id, the invariant and ordered timestamps |
| User.StoredIsRestored | internal/identity/domain/model/user_model.go:75-126 | a user with an id, the invariant and ordered timestamps comes back from its own fields |
| User.ResetIssued | internal/identity/domain/model/user_model.go:223-236 | a user holding a reset token with a future expiry accepts exactly that token |
| User.TokensOnlyExpire | internal/identity/domain/model/user_model.go:190-236 | a token valid at some instant was valid at every earlier one |
| User.ValidityOfCredentials | internal/identity/domain/model/user_model.go:17-30 | the user invariant depends only on name, e-mail and hash, so the methods that leave those alone keep it |
| User.UserModel.constructor | internal/identity/domain/model/user_model.go:17-30 | the object holds exactly the fields of the value it is built from |
| User.UserModel.Activate | internal/identity/domain/model/user_model.go:176-179 | sets the activation flag and stamps the update time, nothing else |
| User.UserModel.ConfirmAccount | internal/identity/domain/model/user_model.go:181-188 | activates, records the confirmation instant, clears token and expiry and stamps the update time; afterwards no confirmation token is valid |
| User.UserModel.SetResetPasswordDetails | internal/identity/domain/model/user_model.go:205-215 | a bad token or expiry is refused with its error and nothing changes; otherwise the trimmed token and the expiry are stored and only that token is then valid at `now` |
| User.UserModel.ClearResetPasswordDetails | internal/identity/domain/model/user_model.go:217-221 | clears the reset token and expiry and stamps the update time; afterwards no reset token is valid |
| User.UserModel.UpdatePasswordHash | internal/identity/domain/model/user_model.go:238-247 | a bad hash is refused with its error and nothing changes; otherwise the trimmed hash is stored and the update time stamped; the invariant is kept |
| Text.TrimSpace | internal/identity/domain/model/name_model.go:23 | the result of `strings.TrimSpace` has no white space at either end and is no longer than its input |
| Text.TrimSpaceEmpty | internal/billing/domain/model/description_model.go:20-26 | a text trims to empty exactly when it is all white space |
| Text.TrimmedFixpoint | internal/billing/domain/model/description_model.go:20-26 | a text without white space at its ends is its own trimmed form |
| Text.TrimSpaceIdempotent | internal/billing/domain/model/description_model.go:20-26 | trimming twice is trimming once |
| Text.IndexOf | internal/identity/domain/model/email_model.go:47-50 | -1 exactly when the rune is absent; otherwise the position of its first occurrence |
| Text.SplitShape | internal/identity/domain/model/email_model.go:144 | one more piece than separators, no piece holds the separator, and joining the pieces gives the text back |
| Text.SplitPiecesNonEmpty | internal/identity/domain/model/email_model.go:118-147 | a text that neither starts nor ends with the separator and never holds it twice in a row splits into non-empty pieces only |
| Text.ContainsPair | internal/identity/domain/model/name_model.go:61-64 | `strings.Contains` with a doubled rune finds exactly two equal runes side by side |

## Left out

- Repositories, use cases, HTTP handlers, routing, dependency wiring,
  database access and the mailer are not part of this model.
- The hash and token services are not part of this model. Password
  hashing, token generation and the password validator are outside the
  domain layer.
- `user_update_usecase.go:63-67` is not part of this model. It passes a
  user's reset-password token and expiry in the confirmation slots of
  `RestoreUserModel`, which looks unintended.
- The clock is the parameter `now`.
  - Where the source reads `time.Now()` more than once in one call, the
    model uses a single instant. The calls affected are:
    - `CreatePlanModel`: `createdAt` and `updatedAt` (plan_model.go:76-77).
    - `CreateSubscriptionModel`: `createdAt` and `updatedAt`
      (subscription_model.go:43-44).
    - `CreateAuthTokenModel`: `createdAt` and `updatedAt`
      (auth_token_model.go:36-37).
    - `CreateUserModel`: the expiry check (user_model.go:322), `createdAt`
      and `updatedAt` (user_model.go:70-71).
    - `SetResetPasswordDetails`: the expiry check (user_model.go:346) and
      `updatedAt` (user_model.go:213).
  - So `Plan.Create`, `Subscription.Create`, `AuthToken.Create` and
    `User.Create` promise `createdAt == updatedAt`.
    `User.UserModel.SetResetPasswordDetails` stamps the instant its check
    used. Go promises none of these, because its clock may advance between
    the reads.
  - Time zones and nanoseconds are not modelled. An instant is a day number
    and a second of the day, in UTC.
- Go's `uint` and `uint64` are `nat`, so wrap-around is not modelled.
  - No arithmetic on them in the core can overflow: amounts and days are
    only compared.
  - `Calendar` uses unbounded years, while Go's `time` clamps at its range
    limits.
- Unicode classes are exact only on Latin-1 (U+0000..U+00FF).
  - `IsLetter`, `IsDigit` and `IsControl` are false above U+00FF.
  - `IsPrint` is true above U+00FF except for white space.
  - So `PersonName.Create` and `PlanName.Create` refuse names Go accepts.
    Examples are "Łukasz" and any Cyrillic, Greek or CJK name: a first
    letter above U+00FF fails the first-letter check, and a later one fails
    the character check.
  - `Email.Create` likewise refuses addresses with letters above U+00FF.
  - So `Description.Create` accepts format and unassigned characters Go
    refuses, such as U+200B ZERO WIDTH SPACE, because `IsPrint` is true for
    them.
- `IsSpace` is exact everywhere.
- Byte lengths are the exact UTF-8 encoding lengths of the runes. Invalid
  UTF-8 input, which Go decodes as U+FFFD, is not modelled: a `string` here
  is a sequence of runes.
- Getters of every aggregate are plain field accessors without contracts.
  `AuthTokenModel.IsExpired` and `IsValid` are predicates, stated by
  `AuthToken.ValidUntilExpiry`.
- `entity.AuthTokenEntity`'s own file is not part of this model. Its fields
  are those the mapper copies.
- User.ConfirmationTokenValid: `subtle.ConstantTimeCompare` is modelled as
  equality of the texts. Its timing behaviour is not modelled.
- Plan.Create and Plan.Restore: `Valid` says each value object is one its
  own constructor accepts. The extra invariant `Trimmed` on the
  description is all that is said of text normalisation.
