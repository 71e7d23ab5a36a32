/** SubscriptionService: the subscribe / confirm / unsubscribe lifecycle
    over the subscriptions table. Each operation is first given as a pure
    step from a table to a result and a new table; the class's methods run
    against the repository and are proved to take exactly that step. */
module SubscriptionService {
  import opened Wrappers
  import opened Store
  import opened SubscriptionDomain
  import opened SubscriptionRepository

  /** The three HttpExceptions the service throws. Their literal message
      strings are not modelled, only which one is thrown. */
  datatype ServiceError =
    | AlreadySubscribed   // 'Email already subscribed', CONFLICT
    | InvalidToken        // 'Invalid token', BAD_REQUEST
    | TokenNotFound       // 'Token not found', NOT_FOUND

  /** The HTTP status each exception is thrown with. */
  function StatusOf(e: ServiceError): nat {
    match e
    case AlreadySubscribed => 409
    case InvalidToken => 400
    case TokenNotFound => 404
  }

  /** What one operation returns, and the table it leaves behind. */
  datatype Step<T> = Step(result: Result<T, ServiceError>, rows: Table)

  predicate SameTriple(e: SubscriptionEntity, email: string, city: string, frequency: Frequency) {
    e.email == email && e.city == city && e.frequency == frequency
  }

  /** The query `subscribe` runs to look for an existing subscription. */
  function TripleQuery(email: string, city: string, frequency: Frequency): Query {
    Query(None, Some(email), Some(city), Some(frequency), None, None)
  }

  /** The query `confirm` and `unsubscribe` run to find the token's row. */
  function TokenQuery(token: string): Query {
    Query(None, None, None, None, None, Some(token))
  }

  /** Some record, confirmed or not, already has this (email, city, frequency). */
  ghost predicate IsSubscribed(rows: Table, email: string, city: string, frequency: Frequency) {
    exists id :: id in rows && SameTriple(rows[id], email, city, frequency)
  }

  /** No two records share a token. */
  ghost predicate TokensUnique(rows: Table) {
    forall a, b :: a in rows && b in rows && rows[a].token == rows[b].token ==> a == b
  }

  /** No two records share an (email, city, frequency) triple. */
  ghost predicate TriplesUnique(rows: Table) {
    forall a, b :: a in rows && b in rows && SameTriple(rows[a], rows[b].email, rows[b].city, rows[b].frequency) ==> a == b
  }

  /** The invariant the service keeps over the table. */
  ghost predicate Consistent(rows: Table) {
    WellKeyed(rows) && TokensUnique(rows) && TriplesUnique(rows)
  }

  /** The record carrying `token`. */
  ghost function OwnerOf(rows: Table, token: string): (id: Id)
    requires Owners(rows, token) != {}
    ensures id in rows && rows[id].token == token
  {
    var id :| id in Owners(rows, token); id
  }

  /** subscribe(dto): a conflict when the triple is taken, whatever the
      stored record's `confirmed`; otherwise one new Pending record under the
      store's fresh key `newId`, carrying the generated token. */
  ghost function SubscribeStep(
    rows: Table, email: string, city: string, frequency: Frequency, token: string, newId: Id
  ): (r: Step<Subscription>)
    requires newId !in rows
    ensures r.result.Failure? <==> IsSubscribed(rows, email, city, frequency)
    ensures r.result.Failure? ==> r.result.error == AlreadySubscribed && r.rows == rows
    ensures r.result.Success? ==>
      && r.rows.Keys == rows.Keys + {newId}
      && (forall id :: id in rows ==> r.rows[id] == rows[id])
      && SameTriple(r.rows[newId], email, city, frequency)
      && !r.rows[newId].confirmed && r.rows[newId].token == token
      && r.result.value == ToDomain(r.rows[newId])
    ensures Consistent(rows) && Owners(rows, token) == {} ==> Consistent(r.rows)
  {
    if IsSubscribed(rows, email, city, frequency) then
      Step(Failure(AlreadySubscribed), rows)
    else
      var e := SubscriptionEntity(newId, email, city, frequency, false, token);
      Step(Success(ToDomain(e)), rows[newId := e])
  }

  /** confirm(token): an empty token is invalid before the table is read; a
      token on no record is not found; a confirmed record is returned as it
      is; a Pending record becomes Confirmed and nothing else changes. */
  ghost function ConfirmStep(rows: Table, token: string): (r: Step<Subscription>)
    requires WellKeyed(rows)
    ensures token == "" ==> r == Step(Failure(InvalidToken), rows)
    ensures token != "" && Owners(rows, token) == {} ==> r == Step(Failure(TokenNotFound), rows)
    ensures token != "" && Owners(rows, token) != {} ==> r.result.Success?
    ensures r.result.Success? ==>
      && token != ""
      && r.rows.Keys == rows.Keys
      && r.result.value.id in Owners(rows, token)
      && r.result.value == ToDomain(r.rows[r.result.value.id])
      && r.result.value.confirmed
      && r.rows == rows[r.result.value.id := rows[r.result.value.id].(confirmed := true)]
    ensures r.result.Failure? ==> r.rows == rows
    ensures forall id :: id in rows && rows[id].confirmed ==> r.rows[id].confirmed
    ensures Consistent(rows) ==> Consistent(r.rows)
  {
    if token == "" then
      Step(Failure(InvalidToken), rows)
    else if Owners(rows, token) == {} then
      Step(Failure(TokenNotFound), rows)
    else
      var id := OwnerOf(rows, token);
      var e := rows[id];
      if e.confirmed then
        assert rows[id := e.(confirmed := true)] == rows;
        Step(Success(ToDomain(e)), rows)
      else
        var confirmed := Apply(e, Patch(None, None, None, Some(true)));
        assert confirmed == e.(confirmed := true);
        Step(Success(ToDomain(confirmed)), rows[id := confirmed])
  }

  /** unsubscribe(token): the same two failures as confirm; otherwise the
      record carrying the token is deleted and no other record changes. */
  ghost function UnsubscribeStep(rows: Table, token: string): (r: Step<()>)
    ensures token == "" ==> r == Step(Failure(InvalidToken), rows)
    ensures token != "" && Owners(rows, token) == {} ==> r == Step(Failure(TokenNotFound), rows)
    ensures token != "" && Owners(rows, token) != {} ==> r.result.Success?
    ensures r.result.Success? ==>
      token != "" && exists id :: id in Owners(rows, token) && r.rows == rows - {id}
    ensures r.result.Failure? ==> r.rows == rows
    ensures Consistent(rows) ==> Consistent(r.rows)
  {
    if token == "" then
      Step(Failure(InvalidToken), rows)
    else if Owners(rows, token) == {} then
      Step(Failure(TokenNotFound), rows)
    else
      Step(Success(()), rows - {OwnerOf(rows, token)})
  }

  class SubscriptionService {
    const repo: TypeOrmSubscriptionRepository

    ghost predicate Valid()
      reads this, repo
    {
      repo.Valid() && Consistent(repo.rows)
    }

    constructor (repo: TypeOrmSubscriptionRepository)
      requires Consistent(repo.rows)
      ensures this.repo == repo && Valid()
    {
      this.repo := repo;
    }

    /** `generated` is the value uuidv4() returned: non-empty and carried by
        no stored record. */
    method Subscribe(email: string, city: string, frequency: Frequency, generated: string)
      returns (r: Result<Subscription, ServiceError>)
      requires Valid()
      requires generated != "" && Owners(repo.rows, generated) == {}
      modifies repo
      ensures Valid()
      ensures exists newId :: (newId !in old(repo.rows) &&
        Step(r, repo.rows) == SubscribeStep(old(repo.rows), email, city, frequency, generated, newId))
    {
      var existing := repo.Find(TripleQuery(email, city, frequency));
      if |existing| > 0 {
        assert existing[0] in existing;
        assert SameTriple(repo.rows[existing[0].id], email, city, frequency);
        UnusedIdExists(repo.rows);
        return Failure(AlreadySubscribed);
      }
      assert !IsSubscribed(repo.rows, email, city, frequency) by {
        forall id | id in repo.rows
          ensures !SameTriple(repo.rows[id], email, city, frequency)
        {
          assert id !in MatchingIds(repo.rows, TripleQuery(email, city, frequency));
        }
      }
      var created := repo.Create(NewSubscription(email, city, frequency, Some(false), generated));
      r := Success(created);
    }

    method Confirm(token: string) returns (r: Result<Subscription, ServiceError>)
      requires Valid()
      modifies repo
      ensures Valid()
      ensures Step(r, repo.rows) == ConfirmStep(old(repo.rows), token)
    {
      if token == "" {
        return Failure(InvalidToken);
      }
      var found := repo.Find(TokenQuery(token));
      if |found| == 0 {
        return Failure(TokenNotFound);
      }
      var subscription := found[0];
      assert subscription in found;
      assert subscription.id == OwnerOf(repo.rows, token);
      if subscription.confirmed {
        return Success(subscription);
      }
      // The source passes subscription['token'] as the key here, but update()
      // looks rows up by id and the domain object carries no token, so the
      // key is undefined (see ConfirmStepAsWritten). The model keys the
      // update by the found record's id, as the operation intends.
      var updated := repo.Update(subscription.id, Patch(None, None, None, Some(true)));
      r := Success(updated.value);
    }

    method Unsubscribe(token: string) returns (r: Result<(), ServiceError>)
      requires Valid()
      modifies repo
      ensures Valid()
      ensures Step(r, repo.rows) == UnsubscribeStep(old(repo.rows), token)
    {
      if token == "" {
        return Failure(InvalidToken);
      }
      var found := repo.Find(TokenQuery(token));
      if |found| == 0 {
        return Failure(TokenNotFound);
      }
      assert found[0] in found;
      assert found[0].id == OwnerOf(repo.rows, token);
      var _ := repo.Remove(found[0].id);
      r := Success(());
    }
  }

  /** confirm as written: once the record is found Pending, the update is
      keyed by `undefined`, and a lookup whose only condition is undefined
      is unconstrained, so the store updates and returns whichever row it
      yields first, `first`, rather than the record carrying the token. */
  ghost function ConfirmStepAsWritten(rows: Table, token: string, first: Id): (r: Step<Subscription>)
    requires WellKeyed(rows) && first in rows
    ensures token == "" || Owners(rows, token) == {} ==> r == ConfirmStep(rows, token)
    ensures token != "" && Owners(rows, token) != {} && !rows[OwnerOf(rows, token)].confirmed ==>
      && r.rows == rows[first := rows[first].(confirmed := true)]
      && r.result == Success(ToDomain(r.rows[first]))
  {
    if token == "" then
      Step(Failure(InvalidToken), rows)
    else if Owners(rows, token) == {} then
      Step(Failure(TokenNotFound), rows)
    else
      var e := rows[OwnerOf(rows, token)];
      if e.confirmed then
        Step(Success(ToDomain(e)), rows)
      else
        var hit := Apply(rows[first], Patch(None, None, None, Some(true)));
        Step(Success(ToDomain(hit)), rows[first := hit])
  }
}
