/** TokenService: issues token values, and resolves a value back to its
    token, checking the value's shape before looking it up. */
module TokenService {
  import opened Wrappers
  import opened Store
  import opened TokenRepository

  /** The two TokenErrors findByValue throws. */
  datatype TokenError = InvalidToken | TokenNotFound

  class TokenService {
    const repo: TokenRepository
    /** The uuid library's `validate`: whether a string is a well-formed
        uuid. Its definition is outside the model. */
    const isUuid: string -> bool

    ghost predicate Valid()
      reads this, repo
    {
      UniqueValues(repo.rows)
    }

    constructor (repo: TokenRepository, isUuid: string -> bool)
      requires UniqueValues(repo.rows)
      ensures this.repo == repo && this.isUuid == isUuid && Valid()
    {
      this.repo := repo;
      this.isUuid := isUuid;
    }

    /** `generated` is the value uuidv4() returned: a well-formed uuid that no
        stored token has. */
    method Create(generated: string) returns (token: Token)
      requires Valid() && isUuid(generated) && generated !in repo.rows.Values
      modifies repo
      ensures Valid()
      ensures token.value == generated && token.id !in old(repo.rows)
      ensures repo.rows == old(repo.rows)[token.id := generated]
    {
      token := repo.Create(generated);
    }

    /** A malformed value is INVALID_TOKEN whatever the store holds; a
        well-formed value no token has is TOKEN_NOT_FOUND; otherwise the
        stored token with that value. */
    method FindByValue(value: string) returns (r: Result<Token, TokenError>)
      ensures !isUuid(value) ==> r == Failure(InvalidToken)
      ensures isUuid(value) && value !in repo.rows.Values ==> r == Failure(TokenNotFound)
      ensures r.Success? <==> isUuid(value) && value in repo.rows.Values
      ensures r.Success? ==>
        r.value.value == value && r.value.id in repo.rows && repo.rows[r.value.id] == value
    {
      if !isUuid(value) {
        return Failure(InvalidToken);
      }
      var found := repo.FindByValue(value);
      if found.None? {
        return Failure(TokenNotFound);
      }
      r := Success(found.value);
    }

    method Remove(id: Id)
      requires Valid()
      modifies repo
      ensures Valid()
      ensures repo.rows == old(repo.rows) - {id}
    {
      repo.Remove(id);
      if id in old(repo.rows) {
        RemovedValueGone(old(repo.rows), id);
      }
    }
  }

  /** Issue a token, resolve it, remove it, resolve it again, on a fresh
      store: the value resolves to the issued token until it is removed,
      and to TOKEN_NOT_FOUND afterwards. */
  method TokenLifecycle(isUuid: string -> bool, generated: string, malformed: string)
    returns (before: Result<Token, TokenError>, after: Result<Token, TokenError>, rejected: Result<Token, TokenError>)
    requires isUuid(generated) && !isUuid(malformed)
    ensures before.Success? && before.value.value == generated
    ensures after == Failure(TokenNotFound)
    ensures rejected == Failure(InvalidToken)
  {
    var repo := new TokenRepository();
    var service := new TokenService(repo, isUuid);
    var token := service.Create(generated);
    before := service.FindByValue(generated);
    rejected := service.FindByValue(malformed);
    ghost var stored := repo.rows;
    service.Remove(token.id);
    RemovedValueGone(stored, token.id);
    after := service.FindByValue(generated);
  }
}
