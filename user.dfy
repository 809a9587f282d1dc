/** The User aggregate of identity: a person's name, an e-mail address, a
    password hash, the account-confirmation token and the password-reset
    token, each token with its expiry.

    `CreateUserModel` and `RestoreUserModel` build a value, modelled by
    `UserState` and the functions `Create` and `Restore`; the methods that
    change a user afterwards act in place on a `UserModel` object. A nil
    reference field is `None`. The clock reading `time.Now().UTC()` is the
    parameter `now`. Go's `len` on a string counts UTF-8 bytes: `ByteLen`. */
module User {
  import opened Wrappers
  import opened Calendar
  import opened Text
  import PersonName
  import Email

  const MinPasswordHashLength: nat := 32
  const MaxPasswordHashLength: nat := 255
  const MinTokenLength: nat := 16
  const MaxTokenLength: nat := 255

  const ErrIDRequired := "user ID is required and must be greater than zero"
  const ErrPasswordHashRequired := "password hash is required"
  const ErrPasswordHashTooShort := "password hash appears to be too short (minimum 32 characters)"
  const ErrPasswordHashTooLong := "password hash exceeds maximum length of 255 characters"
  const ErrConfirmationTokenRequired := "confirmation token is required"
  const ErrConfirmationTokenTooShort := "confirmation token must be at least 16 characters long"
  const ErrConfirmationTokenTooLong := "confirmation token exceeds maximum length of 255 characters"
  const ErrConfirmationExpiryRequired := "confirmation expiration time is required"
  const ErrConfirmationExpiryPast := "confirmation expiration time must be in the future"
  const ErrResetTokenRequired := "reset password token is required"
  const ErrResetTokenTooShort := "reset password token must be at least 16 characters long"
  const ErrResetTokenTooLong := "reset password token exceeds maximum length of 255 characters"
  const ErrResetExpiryRequired := "reset password expiration time is required"
  const ErrResetExpiryPast := "reset password expiration time must be in the future"
  const ErrCreatedAtRequired := "created at timestamp is required"
  const ErrUpdatedAtRequired := "updated at timestamp is required"
  const ErrUpdatedBeforeCreated := "updated at timestamp cannot be before created at timestamp"

  /** The fields of a `UserModel`. */
  datatype UserState = UserState(
    id: nat,
    name: PersonName.NameModel,
    email: Email.EmailModel,
    passwordHash: string,
    isActivated: bool,
    confirmationToken: Option<string>,
    confirmationExpiresAt: Option<Time>,
    confirmedAt: Option<Time>,
    resetPasswordToken: Option<string>,
    resetPasswordExpiresAt: Option<Time>,
    createdAt: Time,
    updatedAt: Time)

  /** A password hash of 32 to 255 bytes. */
  predicate HashOK(passwordHash: string) {
    MinPasswordHashLength <= ByteLen(passwordHash) <= MaxPasswordHashLength
  }

  /** A confirmation or reset token of 16 to 255 bytes. */
  predicate TokenOK(token: string) {
    MinTokenLength <= ByteLen(token) <= MaxTokenLength
  }

  /** An expiry that is set and lies strictly after `now`. */
  predicate ExpiryOK(expiresAt: Time, now: Time) {
    !IsZero(expiresAt) && After(expiresAt, now)
  }

  /** Both timestamps set, and the update not before the creation. */
  predicate TimestampsOK(createdAt: Time, updatedAt: Time) {
    !IsZero(createdAt) && !IsZero(updatedAt) && !Before(updatedAt, createdAt)
  }

  /** The byte-length check shared by the hash and token validators: empty,
      then too short, then too long. */
  function CheckLength(s: string, minLength: nat, maxLength: nat,
                       errRequired: string, errTooShort: string, errTooLong: string): (err: Option<string>)
    requires 1 <= minLength
    ensures err == None <==> minLength <= ByteLen(s) <= maxLength
    ensures s == [] ==> err == Some(errRequired)
    ensures s != [] && ByteLen(s) < minLength ==> err == Some(errTooShort)
    ensures minLength <= ByteLen(s) && maxLength < ByteLen(s) ==> err == Some(errTooLong)
  {
    ByteLenBounds(s);
    if ByteLen(s) == 0 then Some(errRequired)
    else if ByteLen(s) < minLength then Some(errTooShort)
    else if ByteLen(s) > maxLength then Some(errTooLong)
    else None
  }

  /** `validatePasswordHash`. */
  function ValidatePasswordHash(passwordHash: string): (err: Option<string>)
    ensures err == None <==> HashOK(passwordHash)
    ensures err == Some(ErrPasswordHashRequired) <==> passwordHash == []
    ensures err in {None, Some(ErrPasswordHashRequired), Some(ErrPasswordHashTooShort), Some(ErrPasswordHashTooLong)}
  {
    CheckLength(passwordHash, MinPasswordHashLength, MaxPasswordHashLength,
                ErrPasswordHashRequired, ErrPasswordHashTooShort, ErrPasswordHashTooLong)
  }

  /** `validateConfirmationToken`. */
  function ValidateConfirmationToken(token: string): (err: Option<string>)
    ensures err == None <==> TokenOK(token)
    ensures err == Some(ErrConfirmationTokenRequired) <==> token == []
  {
    CheckLength(token, MinTokenLength, MaxTokenLength,
                ErrConfirmationTokenRequired, ErrConfirmationTokenTooShort, ErrConfirmationTokenTooLong)
  }

  /** The expiry check shared by both tokens: unset, then not in the future. */
  function CheckExpiry(expiresAt: Time, now: Time, errRequired: string, errPast: string): (err: Option<string>)
    ensures err == None <==> ExpiryOK(expiresAt, now)
    ensures IsZero(expiresAt) ==> err == Some(errRequired)
    ensures !IsZero(expiresAt) && err != None ==> err == Some(errPast)
  {
    if IsZero(expiresAt) then Some(errRequired)
    else if !After(expiresAt, now) then Some(errPast)
    else None
  }

  /** `validateConfirmationExpiresAt`. */
  function ValidateConfirmationExpiresAt(expiresAt: Time, now: Time): (err: Option<string>)
    ensures err == None <==> ExpiryOK(expiresAt, now)
  {
    CheckExpiry(expiresAt, now, ErrConfirmationExpiryRequired, ErrConfirmationExpiryPast)
  }

  /** `validateResetPasswordToken`: the token's length, then its expiry. */
  function ValidateResetPasswordToken(token: string, expiresAt: Time, now: Time): (err: Option<string>)
    ensures err == None <==> TokenOK(token) && ExpiryOK(expiresAt, now)
    ensures err == Some(ErrResetTokenRequired) <==> token == []
    ensures TokenOK(token) && err != None ==> err == CheckExpiry(expiresAt, now, ErrResetExpiryRequired, ErrResetExpiryPast)
  {
    match CheckLength(token, MinTokenLength, MaxTokenLength,
                      ErrResetTokenRequired, ErrResetTokenTooShort, ErrResetTokenTooLong)
    case Some(e) => Some(e)
    case None => CheckExpiry(expiresAt, now, ErrResetExpiryRequired, ErrResetExpiryPast)
  }

  /** `validateTimestamps`. */
  function ValidateTimestamps(createdAt: Time, updatedAt: Time): (err: Option<string>)
    ensures err == None <==> TimestampsOK(createdAt, updatedAt)
    ensures IsZero(createdAt) ==> err == Some(ErrCreatedAtRequired)
    ensures !IsZero(createdAt) && IsZero(updatedAt) ==> err == Some(ErrUpdatedAtRequired)
    ensures !IsZero(createdAt) && !IsZero(updatedAt) && err != None ==> err == Some(ErrUpdatedBeforeCreated)
  {
    if IsZero(createdAt) then Some(ErrCreatedAtRequired)
    else if IsZero(updatedAt) then Some(ErrUpdatedAtRequired)
    else if Before(updatedAt, createdAt) then Some(ErrUpdatedBeforeCreated)
    else None
  }

  /** `validateUserCreationInputs`: hash, token, expiry. */
  function ValidateCreationInputs(passwordHash: string, token: string, expiresAt: Time, now: Time): (err: Option<string>)
    ensures err == None <==> HashOK(passwordHash) && TokenOK(token) && ExpiryOK(expiresAt, now)
  {
    match ValidatePasswordHash(passwordHash)
    case Some(e) => Some(e)
    case None =>
      match ValidateConfirmationToken(token)
      case Some(e) => Some(e)
      case None => ValidateConfirmationExpiresAt(expiresAt, now)
  }

  /** `validateUserRestorationInputs`: identifier, hash, timestamps. */
  function ValidateRestorationInputs(id: nat, passwordHash: string, createdAt: Time, updatedAt: Time): (err: Option<string>)
    ensures err == None <==> id != 0 && HashOK(passwordHash) && TimestampsOK(createdAt, updatedAt)
    ensures id == 0 ==> err == Some(ErrIDRequired)
  {
    if id == 0 then Some(ErrIDRequired)
    else
      match ValidatePasswordHash(passwordHash)
      case Some(e) => Some(e)
      case None => ValidateTimestamps(createdAt, updatedAt)
  }

  /** What every user built by `Create` or `Restore` satisfies, and what
      every method of `UserModel` keeps: name and address are what their own
      constructors make of their texts, and the hash is trimmed and of a
      valid length. */
  predicate Valid(u: UserState) {
    && PersonName.Create(u.name.String()) == Ok(u.name)
    && Email.Create(u.email.String()) == Ok(u.email)
    && Trimmed(u.passwordHash)
    && HashOK(u.passwordHash)
  }

  /** Building a name from a trimmed text is building it from the text. */
  lemma NameOfTrimmed(name: string)
    ensures PersonName.Create(TrimSpace(name)) == PersonName.Create(name)
  {
    TrimSpaceIdempotent(name);
  }

  /** Building an address from a trimmed text is building it from the text. */
  lemma EmailOfTrimmed(email: string)
    ensures Email.Create(TrimSpace(email)) == Email.Create(email)
  {
    TrimSpaceIdempotent(email);
  }

  /** `CreateUserModel`: the four texts are trimmed; then hash, token,
      expiry, name and address are checked in that order, the first failure
      winning. A new user has no identifier yet, is not activated, awaits
      confirmation with the given token and expiry, has no reset token, and
      was created and updated at `now`. */
  function Create(name: string, email: string, passwordHash: string, confirmationToken: string,
                  confirmationExpiresAt: Time, now: Time): (r: Result<UserState>)
    ensures var h, t := TrimSpace(passwordHash), TrimSpace(confirmationToken);
            r.Ok? <==>
              && HashOK(h) && TokenOK(t) && ExpiryOK(confirmationExpiresAt, now)
              && PersonName.WellFormed(TrimSpace(name)) && Email.WellFormed(TrimSpace(email))
    ensures var h := TrimSpace(passwordHash);
            !HashOK(h) ==> r == Err(ValidatePasswordHash(h).value)
    ensures var h, t := TrimSpace(passwordHash), TrimSpace(confirmationToken);
            HashOK(h) && !TokenOK(t) ==> r == Err(ValidateConfirmationToken(t).value)
    ensures var h, t := TrimSpace(passwordHash), TrimSpace(confirmationToken);
            HashOK(h) && TokenOK(t) && !ExpiryOK(confirmationExpiresAt, now) ==>
              r == Err(ValidateConfirmationExpiresAt(confirmationExpiresAt, now).value)
    ensures var h, t := TrimSpace(passwordHash), TrimSpace(confirmationToken);
            HashOK(h) && TokenOK(t) && ExpiryOK(confirmationExpiresAt, now)
            && !PersonName.WellFormed(TrimSpace(name)) ==>
              r == Err(PersonName.Validate(TrimSpace(name)).value)
    ensures var h, t := TrimSpace(passwordHash), TrimSpace(confirmationToken);
            HashOK(h) && TokenOK(t) && ExpiryOK(confirmationExpiresAt, now)
            && PersonName.WellFormed(TrimSpace(name)) && !Email.WellFormed(TrimSpace(email)) ==>
              r == Err(Email.Validate(TrimSpace(email)).value)
    ensures r.Ok? ==>
              r.value == UserState(0, PersonName.NameModel(TrimSpace(name)), Email.EmailModel(TrimSpace(email)),
                                   TrimSpace(passwordHash), false,
                                   Some(TrimSpace(confirmationToken)), Some(confirmationExpiresAt), None,
                                   None, None, now, now)
  {
    NameOfTrimmed(name);
    EmailOfTrimmed(email);
    var name, email := TrimSpace(name), TrimSpace(email);
    var passwordHash, confirmationToken := TrimSpace(passwordHash), TrimSpace(confirmationToken);
    match ValidateCreationInputs(passwordHash, confirmationToken, confirmationExpiresAt, now)
    case Some(e) => Err(e)
    case None =>
      match PersonName.Create(name)
      case Err(e) => Err(e)
      case Ok(nameModel) =>
        match Email.Create(email)
        case Err(e) => Err(e)
        case Ok(emailModel) =>
          Ok(UserState(0, nameModel, emailModel, passwordHash, false,
                       Some(confirmationToken), Some(confirmationExpiresAt), None, None, None, now, now))
  }

  /** `RestoreUserModel`: name, address and hash are trimmed; identifier,
      hash, timestamps, name and address are checked in that order; the
      flag, the tokens and the instants are stored as given, without the
      token checks of `Create`. */
  function Restore(id: nat, name: string, email: string, passwordHash: string, isActivated: bool,
                   confirmationToken: Option<string>, confirmationExpiresAt: Option<Time>, confirmedAt: Option<Time>,
                   resetPasswordToken: Option<string>, resetPasswordExpiresAt: Option<Time>,
                   createdAt: Time, updatedAt: Time): (r: Result<UserState>)
    ensures r.Ok? <==>
              && id != 0 && HashOK(TrimSpace(passwordHash)) && TimestampsOK(createdAt, updatedAt)
              && PersonName.WellFormed(TrimSpace(name)) && Email.WellFormed(TrimSpace(email))
    ensures id == 0 ==> r == Err(ErrIDRequired)
    ensures id != 0 && !HashOK(TrimSpace(passwordHash)) ==> r == Err(ValidatePasswordHash(TrimSpace(passwordHash)).value)
    ensures id != 0 && HashOK(TrimSpace(passwordHash)) && !TimestampsOK(createdAt, updatedAt) ==>
              r == Err(ValidateTimestamps(createdAt, updatedAt).value)
    ensures id != 0 && HashOK(TrimSpace(passwordHash)) && TimestampsOK(createdAt, updatedAt)
            && !PersonName.WellFormed(TrimSpace(name)) ==>
              r == Err(PersonName.Validate(TrimSpace(name)).value)
    ensures id != 0 && HashOK(TrimSpace(passwordHash)) && TimestampsOK(createdAt, updatedAt)
            && PersonName.WellFormed(TrimSpace(name)) && !Email.WellFormed(TrimSpace(email)) ==>
              r == Err(Email.Validate(TrimSpace(email)).value)
    ensures r.Ok? ==>
              r.value == UserState(id, PersonName.NameModel(TrimSpace(name)), Email.EmailModel(TrimSpace(email)),
                                   TrimSpace(passwordHash), isActivated,
                                   confirmationToken, confirmationExpiresAt, confirmedAt,
                                   resetPasswordToken, resetPasswordExpiresAt, createdAt, updatedAt)
  {
    NameOfTrimmed(name);
    EmailOfTrimmed(email);
    var name, email, passwordHash := TrimSpace(name), TrimSpace(email), TrimSpace(passwordHash);
    match ValidateRestorationInputs(id, passwordHash, createdAt, updatedAt)
    case Some(e) => Err(e)
    case None =>
      match PersonName.Create(name)
      case Err(e) => Err(e)
      case Ok(nameModel) =>
        match Email.Create(email)
        case Err(e) => Err(e)
        case Ok(emailModel) =>
          Ok(UserState(id, nameModel, emailModel, passwordHash, isActivated,
                       confirmationToken, confirmationExpiresAt, confirmedAt,
                       resetPasswordToken, resetPasswordExpiresAt, createdAt, updatedAt))
  }

  /** `Restore` applied to the fields of a user. */
  function RestoreFields(u: UserState): Result<UserState> {
    Restore(u.id, u.name.String(), u.email.String(), u.passwordHash, u.isActivated,
            u.confirmationToken, u.confirmationExpiresAt, u.confirmedAt,
            u.resetPasswordToken, u.resetPasswordExpiresAt, u.createdAt, u.updatedAt)
  }

  /** `IsConfirmationTokenValid`: confirmation is pending (token and expiry
      present, not yet confirmed), the expiry lies strictly after `now`, and
      the stored token equals the one offered. The constant-time byte
      comparison answers 1 exactly when the UTF-8 encodings are equal, that
      is when the texts are equal. */
  function ConfirmationTokenValid(u: UserState, token: string, now: Time): (b: bool)
    ensures b <==>
              && u.confirmationToken == Some(token)
              && u.confirmationExpiresAt.Some? && u.confirmedAt.None?
              && Seconds(now) < Seconds(u.confirmationExpiresAt.value)
  {
    if u.confirmationToken.None? || u.confirmationExpiresAt.None? || u.confirmedAt.Some? then false
    else if !After(u.confirmationExpiresAt.value, now) then false
    else u.confirmationToken.value == token
  }

  /** `IsResetPasswordTokenValid`: a reset token and expiry are present, the
      expiry lies strictly after `now`, and the stored token equals the one
      offered. */
  function ResetTokenValid(u: UserState, token: string, now: Time): (b: bool)
    ensures b <==>
              && u.resetPasswordToken == Some(token)
              && u.resetPasswordExpiresAt.Some?
              && Seconds(now) < Seconds(u.resetPasswordExpiresAt.value)
  {
    if u.resetPasswordToken.None? || u.resetPasswordExpiresAt.None? then false
    else if !After(u.resetPasswordExpiresAt.value, now) then false
    else u.resetPasswordToken.value == token
  }

  /** A created user satisfies `Valid`. */
  lemma CreatedValid(name: string, email: string, passwordHash: string, confirmationToken: string,
                     confirmationExpiresAt: Time, now: Time)
    requires Create(name, email, passwordHash, confirmationToken, confirmationExpiresAt, now).Ok?
    ensures Valid(Create(name, email, passwordHash, confirmationToken, confirmationExpiresAt, now).value)
  {
    var u := Create(name, email, passwordHash, confirmationToken, confirmationExpiresAt, now).value;
    PersonName.CreateIdempotent(name);
    Email.CreateIdempotent(email);
  }

  /** A created user awaits confirmation: at the moment of creation it
      accepts its own token and no other, and accepts no reset token. */
  lemma CreatedPending(name: string, email: string, passwordHash: string, confirmationToken: string,
                       confirmationExpiresAt: Time, now: Time)
    requires Create(name, email, passwordHash, confirmationToken, confirmationExpiresAt, now).Ok?
    ensures var u := Create(name, email, passwordHash, confirmationToken, confirmationExpiresAt, now).value;
            && u.id == 0 && !u.isActivated
            && (forall t :: ConfirmationTokenValid(u, t, now) <==> t == TrimSpace(confirmationToken))
            && (forall t, n :: !ResetTokenValid(u, t, n))
  {
    var u := Create(name, email, passwordHash, confirmationToken, confirmationExpiresAt, now).value;
    AwaitingConfirmation(u, TrimSpace(confirmationToken), now);
  }

  /** A user holding a confirmation token whose expiry lies after `now`,
      not yet confirmed and without a reset token, accepts at `now` exactly
      that confirmation token and no reset token at all. */
  lemma AwaitingConfirmation(u: UserState, token: string, now: Time)
    requires u.confirmationToken == Some(token) && u.confirmedAt.None? && u.resetPasswordToken.None?
    requires u.confirmationExpiresAt.Some? && After(u.confirmationExpiresAt.value, now)
    ensures forall t :: ConfirmationTokenValid(u, t, now) <==> t == token
    ensures forall t, n :: !ResetTokenValid(u, t, n)
  {
    BeforeIsSeconds(now, u.confirmationExpiresAt.value);
  }

  /** A created user has no identifier, so it cannot be restored until the
      database has given it one. */
  lemma CreatedNotRestorable(name: string, email: string, passwordHash: string, confirmationToken: string,
                             confirmationExpiresAt: Time, now: Time)
    requires Create(name, email, passwordHash, confirmationToken, confirmationExpiresAt, now).Ok?
    ensures RestoreFields(Create(name, email, passwordHash, confirmationToken, confirmationExpiresAt, now).value)
            == Err(ErrIDRequired)
  {
  }

  /** Restoring the fields of a user gives it back exactly when it has an
      identifier, is valid and its timestamps are in order. */
  lemma RestoreStored(u: UserState)
    ensures RestoreFields(u) == Ok(u) <==> u.id != 0 && Valid(u) && TimestampsOK(u.createdAt, u.updatedAt)
  {
    if RestoreFields(u) == Ok(u) {
      RestoredIsStored(u);
    }
    if u.id != 0 && Valid(u) && TimestampsOK(u.createdAt, u.updatedAt) {
      StoredIsRestored(u);
    }
  }

  /** Only a user with an identifier, valid and with ordered timestamps
      comes back from restoring its own fields. */
  lemma RestoredIsStored(u: UserState)
    requires RestoreFields(u) == Ok(u)
    ensures u.id != 0 && Valid(u) && TimestampsOK(u.createdAt, u.updatedAt)
  {
    var n, e := u.name.String(), u.email.String();
    assert n == TrimSpace(n) && e == TrimSpace(e) && u.passwordHash == TrimSpace(u.passwordHash);
    assert PersonName.WellFormed(n) && Email.WellFormed(e);
    PersonName.CreateTrimmed(n);
    TrimmedFixpoint(e);
  }

  /** A user with an identifier, valid and with ordered timestamps comes
      back from restoring its own fields. */
  lemma StoredIsRestored(u: UserState)
    requires u.id != 0 && Valid(u) && TimestampsOK(u.createdAt, u.updatedAt)
    ensures RestoreFields(u) == Ok(u)
  {
    var n, e := u.name.String(), u.email.String();
    assert n == TrimSpace(n) && e == TrimSpace(e);
    TrimmedFixpoint(u.passwordHash);
  }

  /** A user holding a reset token whose expiry lies after `now` accepts
      at `now` exactly that reset token. */
  lemma ResetIssued(u: UserState, token: string, now: Time)
    requires u.resetPasswordToken == Some(token)
    requires u.resetPasswordExpiresAt.Some? && After(u.resetPasswordExpiresAt.value, now)
    ensures forall t :: ResetTokenValid(u, t, now) <==> t == token
  {
    BeforeIsSeconds(now, u.resetPasswordExpiresAt.value);
  }

  /** Validity of a token only ends with time: a token valid at some
      instant was valid at every earlier one. */
  lemma TokensOnlyExpire(u: UserState, token: string, earlier: Time, later: Time)
    requires !Before(later, earlier)
    ensures ConfirmationTokenValid(u, token, later) ==> ConfirmationTokenValid(u, token, earlier)
    ensures ResetTokenValid(u, token, later) ==> ResetTokenValid(u, token, earlier)
  {
    BeforeIsSeconds(later, earlier);
  }

  /** Validity depends on the name, the address and the hash alone, so
      every method of `UserModel` but `UpdatePasswordHash` keeps it. */
  lemma ValidityOfCredentials(u: UserState, v: UserState)
    requires u.name == v.name && u.email == v.email && u.passwordHash == v.passwordHash
    ensures Valid(u) <==> Valid(v)
  {
  }

  /** A user held in place; its fields mirror `UserModel`. */
  class UserModel {
    var id: nat
    var name: PersonName.NameModel
    var email: Email.EmailModel
    var passwordHash: string
    var isActivated: bool
    var confirmationToken: Option<string>
    var confirmationExpiresAt: Option<Time>
    var confirmedAt: Option<Time>
    var resetPasswordToken: Option<string>
    var resetPasswordExpiresAt: Option<Time>
    var createdAt: Time
    var updatedAt: Time

    /** The current field values. */
    function Snapshot(): UserState
      reads this
    {
      UserState(id, name, email, passwordHash, isActivated, confirmationToken, confirmationExpiresAt,
                confirmedAt, resetPasswordToken, resetPasswordExpiresAt, createdAt, updatedAt)
    }

    /** Holds the value built by `Create` or `Restore`. */
    constructor (u: UserState)
      ensures Snapshot() == u
    {
      id, name, email, passwordHash, isActivated := u.id, u.name, u.email, u.passwordHash, u.isActivated;
      confirmationToken, confirmationExpiresAt, confirmedAt := u.confirmationToken, u.confirmationExpiresAt, u.confirmedAt;
      resetPasswordToken, resetPasswordExpiresAt := u.resetPasswordToken, u.resetPasswordExpiresAt;
      createdAt, updatedAt := u.createdAt, u.updatedAt;
    }

    /** `IsConfirmationTokenValid`. */
    function IsConfirmationTokenValid(token: string, now: Time): bool
      reads this
    {
      ConfirmationTokenValid(Snapshot(), token, now)
    }

    /** `IsResetPasswordTokenValid`. */
    function IsResetPasswordTokenValid(token: string, now: Time): bool
      reads this
    {
      ResetTokenValid(Snapshot(), token, now)
    }

    /** `Activate`: sets the flag and stamps the update time. */
    method Activate(now: Time)
      modifies this
      ensures Snapshot() == old(Snapshot()).(isActivated := true, updatedAt := now)
    {
      isActivated := true;
      updatedAt := now;
    }

    /** `ConfirmAccount`: activates the user, records `now` as the
        confirmation instant and discards the confirmation token and its
        expiry, after which no token confirms the account again. */
    method ConfirmAccount(now: Time)
      modifies this
      ensures Snapshot() == old(Snapshot()).(isActivated := true, confirmedAt := Some(now),
                                             confirmationToken := None, confirmationExpiresAt := None,
                                             updatedAt := now)
      ensures forall t, n :: !IsConfirmationTokenValid(t, n)
    {
      isActivated := true;
      confirmedAt := Some(now);
      confirmationToken := None;
      confirmationExpiresAt := None;
      updatedAt := now;
    }

    /** `SetResetPasswordDetails`: the token is trimmed and must be 16 to
        255 bytes with a set expiry after `now`; on failure nothing changes,
        on success the reset token, its expiry and the update time are
        replaced and, at `now`, exactly the new token is accepted. */
    method SetResetPasswordDetails(token: string, expiresAt: Time, now: Time) returns (err: Option<string>)
      modifies this
      ensures err.None? <==> TokenOK(TrimSpace(token)) && ExpiryOK(expiresAt, now)
      ensures err.Some? ==>
                err == ValidateResetPasswordToken(TrimSpace(token), expiresAt, now) && Snapshot() == old(Snapshot())
      ensures err.None? ==>
                Snapshot() == old(Snapshot()).(resetPasswordToken := Some(TrimSpace(token)),
                                               resetPasswordExpiresAt := Some(expiresAt), updatedAt := now)
      ensures err.None? ==> forall t :: IsResetPasswordTokenValid(t, now) <==> t == TrimSpace(token)
    {
      var token := TrimSpace(token);
      err := ValidateResetPasswordToken(token, expiresAt, now);
      if err.Some? {
        return;
      }
      resetPasswordToken := Some(token);
      resetPasswordExpiresAt := Some(expiresAt);
      updatedAt := now;
      ResetIssued(Snapshot(), token, now);
    }

    /** `ClearResetPasswordDetails`: discards the reset token and its
        expiry, after which no reset token is accepted. */
    method ClearResetPasswordDetails(now: Time)
      modifies this
      ensures Snapshot() == old(Snapshot()).(resetPasswordToken := None, resetPasswordExpiresAt := None,
                                             updatedAt := now)
      ensures forall t, n :: !IsResetPasswordTokenValid(t, n)
    {
      resetPasswordToken := None;
      resetPasswordExpiresAt := None;
      updatedAt := now;
    }

    /** `UpdatePasswordHash`: the new hash is trimmed and must be 32 to 255
        bytes; on failure nothing changes, on success only the hash and the
        update time are replaced. */
    method UpdatePasswordHash(newPasswordHash: string, now: Time) returns (err: Option<string>)
      modifies this
      ensures err.None? <==> HashOK(TrimSpace(newPasswordHash))
      ensures err.Some? ==>
                err == ValidatePasswordHash(TrimSpace(newPasswordHash)) && Snapshot() == old(Snapshot())
      ensures err.None? ==> Snapshot() == old(Snapshot()).(passwordHash := TrimSpace(newPasswordHash), updatedAt := now)
      ensures old(Valid(Snapshot())) ==> Valid(Snapshot())
    {
      var newPasswordHash := TrimSpace(newPasswordHash);
      err := ValidatePasswordHash(newPasswordHash);
      if err.Some? {
        return;
      }
      passwordHash := newPasswordHash;
      updatedAt := now;
    }
  }
}
