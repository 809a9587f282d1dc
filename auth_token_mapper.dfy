/** Conversion between an authentication token and its database row. */
module AuthTokenMapper {
  import opened Wrappers
  import Calendar
  import AuthToken

  /** `entity.AuthTokenEntity`, with the fields the mapper copies. */
  datatype AuthTokenEntity = AuthTokenEntity(
    id: nat,
    userID: nat,
    token: string,
    expiresAt: Calendar.Time,
    createdAt: Calendar.Time,
    updatedAt: Calendar.Time)

  /** `ToModel`: rebuild the token through `RestoreAuthTokenModel`. */
  function ToModel(entity: AuthTokenEntity): (r: Result<AuthToken.AuthTokenModel>)
    ensures r.Ok? <==> entity.id != 0 && AuthToken.Issued(entity.userID, entity.token, entity.expiresAt)
    ensures r.Ok? ==> ToEntity(r.value) == entity
    ensures r.Err? ==>
              r.error == if entity.id == 0 then AuthToken.ErrIDRequired
                         else AuthToken.ValidateIssue(entity.userID, entity.token, entity.expiresAt).value
  {
    AuthToken.Restore(entity.id, entity.userID, entity.token, entity.expiresAt, entity.createdAt, entity.updatedAt)
  }

  /** `ToEntity`: copy every field. */
  function ToEntity(model: AuthToken.AuthTokenModel): (e: AuthTokenEntity)
    ensures e.id == model.ID() && e.userID == model.UserID()
    ensures e.token == model.Token() && e.expiresAt == model.ExpiresAt()
    ensures e.createdAt == model.CreatedAt() && e.updatedAt == model.UpdatedAt()
  {
    AuthTokenEntity(model.ID(), model.UserID(), model.Token(), model.ExpiresAt(), model.CreatedAt(), model.UpdatedAt())
  }

  /** A token that carries an owner, a text and an expiry is stored and read
      back unchanged exactly when it has an identifier. */
  lemma ModelRoundTrip(t: AuthToken.AuthTokenModel)
    requires AuthToken.Issued(t.userID, t.token, t.expiresAt)
    ensures ToModel(ToEntity(t)) == Ok(t) <==> t.id != 0
    ensures t.id == 0 ==> ToModel(ToEntity(t)) == Err(AuthToken.ErrIDRequired)
    ensures forall k: nat :: k != 0 ==> ToModel(ToEntity(t).(id := k)) == Ok(t.(id := k))
  {
  }
}
