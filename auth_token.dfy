/** An authentication token issued to a user: an opaque text with an
    expiry instant. The clock reading `time.Now().UTC()` is the parameter
    `now`. */
module AuthToken {
  import opened Wrappers
  import opened Calendar

  const ErrIDRequired := "ID is required"
  const ErrUserIDRequired := "user ID is required"
  const ErrTokenRequired := "token is required"
  const ErrExpirationRequired := "expiration time is required"

  datatype AuthTokenModel = AuthTokenModel(
    id: nat,
    userID: nat,
    token: string,
    expiresAt: Time,
    createdAt: Time,
    updatedAt: Time)
  {
    function ID(): nat { id }
    function UserID(): nat { userID }
    function Token(): string { token }
    function ExpiresAt(): Time { expiresAt }
    function CreatedAt(): Time { createdAt }
    function UpdatedAt(): Time { updatedAt }

    /** `IsExpired`: the current time is past the expiry instant. */
    predicate IsExpired(now: Time) {
      After(now, expiresAt)
    }

    /** `IsValid`: not expired. */
    predicate IsValid(now: Time) {
      !IsExpired(now)
    }
  }

  /** The fields both constructors require: an owner, a token text and an
      expiry instant. */
  predicate Issued(userID: nat, token: string, expiresAt: Time) {
    userID != 0 && token != "" && !IsZero(expiresAt)
  }

  /** The checks of `CreateAuthTokenModel` in their order. */
  function ValidateIssue(userID: nat, token: string, expiresAt: Time): (err: Option<string>)
    ensures err == None <==> Issued(userID, token, expiresAt)
    ensures err in {None, Some(ErrUserIDRequired), Some(ErrTokenRequired), Some(ErrExpirationRequired)}
    ensures userID == 0 ==> err == Some(ErrUserIDRequired)
    ensures userID != 0 && token == "" ==> err == Some(ErrTokenRequired)
    ensures userID != 0 && token != "" && IsZero(expiresAt) ==> err == Some(ErrExpirationRequired)
  {
    if userID == 0 then Some(ErrUserIDRequired)
    else if token == "" then Some(ErrTokenRequired)
    else if IsZero(expiresAt) then Some(ErrExpirationRequired)
    else None
  }

  /** `CreateAuthTokenModel`: a token without an identifier yet, created and
      updated at `now`. */
  function Create(userID: nat, token: string, expiresAt: Time, now: Time): (r: Result<AuthTokenModel>)
    ensures r.Ok? <==> Issued(userID, token, expiresAt)
    ensures r.Err? ==> Some(r.error) == ValidateIssue(userID, token, expiresAt)
    ensures r.Ok? ==> r.value == AuthTokenModel(0, userID, token, expiresAt, now, now)
  {
    match ValidateIssue(userID, token, expiresAt)
    case Some(e) => Err(e)
    case None => Ok(AuthTokenModel(0, userID, token, expiresAt, now, now))
  }

  /** `RestoreAuthTokenModel`: the identifier is checked first, then the
      checks of `Create`; the timestamps are kept as given. */
  function Restore(id: nat, userID: nat, token: string, expiresAt: Time,
                   createdAt: Time, updatedAt: Time): (r: Result<AuthTokenModel>)
    ensures r.Ok? <==> id != 0 && Issued(userID, token, expiresAt)
    ensures r.Err? ==>
              r.error == if id == 0 then ErrIDRequired else ValidateIssue(userID, token, expiresAt).value
    ensures r.Ok? ==> r.value == AuthTokenModel(id, userID, token, expiresAt, createdAt, updatedAt)
  {
    if id == 0 then Err(ErrIDRequired)
    else
      match ValidateIssue(userID, token, expiresAt)
      case Some(e) => Err(e)
      case None => Ok(AuthTokenModel(id, userID, token, expiresAt, createdAt, updatedAt))
  }

  /** A token is valid up to and including its expiry instant, and expired
      at every instant after it. */
  lemma ValidUntilExpiry(t: AuthTokenModel, now: Time)
    ensures t.IsValid(now) <==> Seconds(now) <= Seconds(t.expiresAt)
  {
    BeforeIsSeconds(t.expiresAt, now);
  }

  /** Once expired, a token stays expired. */
  lemma ExpiryIsFinal(t: AuthTokenModel, now: Time, later: Time)
    requires t.IsExpired(now)
    requires !Before(later, now)
    ensures t.IsExpired(later)
  {
    BeforeIsSeconds(t.expiresAt, now);
    BeforeIsSeconds(later, now);
    BeforeIsSeconds(t.expiresAt, later);
  }

  /** A freshly created token is valid as long as it expires no earlier than
      its creation. */
  lemma FreshTokenValid(userID: nat, token: string, expiresAt: Time, now: Time)
    requires Create(userID, token, expiresAt, now).Ok?
    requires !Before(expiresAt, now)
    ensures Create(userID, token, expiresAt, now).value.IsValid(now)
  {
    BeforeIsSeconds(expiresAt, now);
    BeforeIsSeconds(now, expiresAt);
  }

  /** A created token has no identifier, so `Restore` refuses it until the
      store assigns one; with an identifier it is restored unchanged. */
  lemma RestoreCreated(userID: nat, token: string, expiresAt: Time, now: Time, id: nat)
    requires Create(userID, token, expiresAt, now).Ok?
    ensures Restore(0, userID, token, expiresAt, now, now) == Err(ErrIDRequired)
    ensures id != 0 ==> Restore(id, userID, token, expiresAt, now, now)
                        == Ok(Create(userID, token, expiresAt, now).value.(id := id))
  {
  }
}
