/** Properties of the subscription lifecycle that relate several calls:
    idempotent confirmation, revocation of a token by unsubscribe, the
    uniqueness invariants and the monotonicity of `confirmed` over any run
    of operations, and the end-to-end scenario of subscribe, confirm,
    unsubscribe. */
module SubscriptionLifecycle {
  import opened Wrappers
  import opened Store
  import opened SubscriptionDomain
  import opened SubscriptionRepository
  import opened SubscriptionService

  /** Confirming twice with the same token gives the same answer and the
      same table as confirming once, whichever answer that was. */
  lemma ConfirmIdempotent(rows: Table, token: string)
    requires Consistent(rows)
    ensures ConfirmStep(ConfirmStep(rows, token).rows, token)
         == Step(ConfirmStep(rows, token).result, ConfirmStep(rows, token).rows)
  {
    var first := ConfirmStep(rows, token);
    if first.result.Success? {
      var id := first.result.value.id;
      var after := first.rows;
      assert Owners(after, token) == {id} by {
        forall other | other in Owners(after, token) ensures other == id {
          assert after[other].token == rows[other].token;
        }
      }
      assert OwnerOf(after, token) == id;
    }
  }

  /** Confirming never removes the (email, city, frequency) a record holds,
      so a later subscribe with that triple still conflicts. */
  lemma ConfirmKeepsTriple(rows: Table, token: string, email: string, city: string, frequency: Frequency)
    requires WellKeyed(rows)
    ensures IsSubscribed(ConfirmStep(rows, token).rows, email, city, frequency)
        <==> IsSubscribed(rows, email, city, frequency)
  {
    var after := ConfirmStep(rows, token).rows;
    if IsSubscribed(rows, email, city, frequency) {
      var id :| id in rows && SameTriple(rows[id], email, city, frequency);
      assert SameTriple(after[id], email, city, frequency);
    }
    if IsSubscribed(after, email, city, frequency) {
      var id :| id in after && SameTriple(after[id], email, city, frequency);
      assert SameTriple(rows[id], email, city, frequency);
    }
  }

  /** After a successful subscribe, and any confirmation of it, subscribing
      the same triple again fails with the conflict. */
  lemma SecondSubscribeConflicts(
    rows: Table, email: string, city: string, frequency: Frequency,
    token: string, newId: Id, confirmFirst: bool, retryToken: string, retryId: Id)
    requires Consistent(rows) && newId !in rows
    requires SubscribeStep(rows, email, city, frequency, token, newId).result.Success?
    requires var after := SubscribeStep(rows, email, city, frequency, token, newId).rows;
      retryId !in after && WellKeyed(after)
    ensures var after := SubscribeStep(rows, email, city, frequency, token, newId).rows;
      var before := if confirmFirst then ConfirmStep(after, token).rows else after;
      retryId !in before &&
      SubscribeStep(before, email, city, frequency, retryToken, retryId)
        == Step(Failure(AlreadySubscribed), before)
  {
    var after := SubscribeStep(rows, email, city, frequency, token, newId).rows;
    assert IsSubscribed(after, email, city, frequency) by {
      assert newId in after && SameTriple(after[newId], email, city, frequency);
    }
    ConfirmKeepsTriple(after, token, email, city, frequency);
  }

  /** Once unsubscribe has succeeded, the token resolves to nothing: a
      second unsubscribe or a confirm with it fails with "Token not found". */
  lemma UnsubscribeRevokesToken(rows: Table, token: string)
    requires Consistent(rows)
    requires UnsubscribeStep(rows, token).result.Success?
    ensures var after := UnsubscribeStep(rows, token).rows;
      && ConfirmStep(after, token) == Step(Failure(TokenNotFound), after)
      && UnsubscribeStep(after, token) == Step(Failure(TokenNotFound), after)
  {
    var after := UnsubscribeStep(rows, token).rows;
    var id := OwnerOf(rows, token);
    assert after == rows - {id};
    assert Owners(after, token) == {} by {
      forall other | other in after ensures after[other].token != token {
        assert other in rows && other != id;
      }
    }
  }

  /** Unsubscribing frees the record's triple: the same email, city and
      frequency can be subscribed afresh. */
  lemma UnsubscribeFreesTriple(rows: Table, token: string)
    requires Consistent(rows)
    requires UnsubscribeStep(rows, token).result.Success?
    ensures var gone := rows[OwnerOf(rows, token)];
      !IsSubscribed(UnsubscribeStep(rows, token).rows, gone.email, gone.city, gone.frequency)
  {
    var id := OwnerOf(rows, token);
    var gone := rows[id];
    var after := UnsubscribeStep(rows, token).rows;
    assert after == rows - {id};
    forall other | other in after
      ensures !SameTriple(after[other], gone.email, gone.city, gone.frequency)
    {
      assert other in rows && other != id;
    }
  }

  /** One request to the service. `token` and `newId` of a subscribe are the
      values uuidv4() and the database produced for it. */
  datatype Op =
    | Subscribe(email: string, city: string, frequency: Frequency, token: string, newId: Id)
    | Confirm(token: string)
    | Unsubscribe(token: string)

  /** A subscribe's generated token and key are fresh, as uuidv4() and the
      database guarantee. */
  ghost predicate Admissible(rows: Table, op: Op) {
    op.Subscribe? ==> op.newId !in rows && op.token != "" && Owners(rows, op.token) == {}
  }

  ghost function Next(rows: Table, op: Op): (r: Table)
    requires Consistent(rows) && Admissible(rows, op)
    ensures Consistent(r)
  {
    match op
    case Subscribe(email, city, frequency, token, newId) =>
      SubscribeStep(rows, email, city, frequency, token, newId).rows
    case Confirm(token) => ConfirmStep(rows, token).rows
    case Unsubscribe(token) => UnsubscribeStep(rows, token).rows
  }

  ghost predicate Feasible(rows: Table, ops: seq<Op>)
    requires Consistent(rows)
    decreases |ops|
  {
    ops == [] || (Admissible(rows, ops[0]) && Feasible(Next(rows, ops[0]), ops[1..]))
  }

  /** The table after a sequence of requests, served one at a time. Every
      such table keeps keys, tokens and (email, city, frequency) triples
      unique. */
  ghost function Run(rows: Table, ops: seq<Op>): (r: Table)
    requires Consistent(rows) && Feasible(rows, ops)
    ensures Consistent(r)
    decreases |ops|
  {
    if ops == [] then rows else Run(Next(rows, ops[0]), ops[1..])
  }

  ghost predicate NeverCreates(ops: seq<Op>, id: Id) {
    forall i :: 0 <= i < |ops| && ops[i].Subscribe? ==> ops[i].newId != id
  }

  /** A key that is absent and that no subscribe in the run creates stays
      absent. */
  lemma {:induction false} AbsentStaysAbsent(rows: Table, ops: seq<Op>, id: Id)
    requires Consistent(rows) && Feasible(rows, ops)
    requires id !in rows && NeverCreates(ops, id)
    ensures id !in Run(rows, ops)
    decreases |ops|
  {
    if ops != [] {
      assert ops[0].Subscribe? ==> ops[0].newId != id;
      assert NeverCreates(ops[1..], id) by {
        forall i | 0 <= i < |ops| - 1 && ops[1..][i].Subscribe?
          ensures ops[1..][i].newId != id
        {
          assert ops[1..][i] == ops[i + 1];
        }
      }
      AbsentStaysAbsent(Next(rows, ops[0]), ops[1..], id);
    }
  }

  /** `confirmed` is never reset: a confirmed record that is still present
      after any run of requests is still confirmed (its key not having been
      reused by a new record). */
  lemma {:induction false} ConfirmedNeverReset(rows: Table, ops: seq<Op>, id: Id)
    requires Consistent(rows) && Feasible(rows, ops)
    requires id in rows && rows[id].confirmed && NeverCreates(ops, id)
    ensures id in Run(rows, ops) ==> Run(rows, ops)[id].confirmed
    decreases |ops|
  {
    if ops != [] {
      var next := Next(rows, ops[0]);
      assert NeverCreates(ops[1..], id) by {
        forall i | 0 <= i < |ops| - 1 && ops[1..][i].Subscribe?
          ensures ops[1..][i].newId != id
        {
          assert ops[1..][i] == ops[i + 1];
        }
      }
      if id in next {
        assert next[id].confirmed;
        ConfirmedNeverReset(next, ops[1..], id);
      } else {
        AbsentStaysAbsent(next, ops[1..], id);
      }
    }
  }

  /** Subscribe, confirm twice, try to subscribe the same triple again,
      unsubscribe, then confirm once more, on a fresh table. */
  method Scenario(email: string, city: string, frequency: Frequency, token: string, retryToken: string)
    returns (created: Result<Subscription, ServiceError>,
             confirmed: Result<Subscription, ServiceError>,
             again: Result<Subscription, ServiceError>,
             duplicate: Result<Subscription, ServiceError>,
             afterwards: Result<Subscription, ServiceError>)
    requires token != "" && retryToken != "" && retryToken != token
    ensures created.Success? && !created.value.confirmed
    ensures created.value.email == email && created.value.city == city && created.value.frequency == frequency
    ensures confirmed.Success? && confirmed.value.confirmed && confirmed.value.id == created.value.id
    ensures again == confirmed
    ensures duplicate == Failure(AlreadySubscribed)
    ensures afterwards == Failure(TokenNotFound)
  {
    var repo := new TypeOrmSubscriptionRepository();
    var service := new SubscriptionService(repo);
    created := service.Subscribe(email, city, frequency, token);
    assert IsSubscribed(repo.rows, email, city, frequency) by {
      assert created.value.id in repo.rows;
    }
    ghost var afterSubscribe := repo.rows;
    assert Owners(repo.rows, token) == {created.value.id};
    confirmed := service.Confirm(token);
    ConfirmIdempotent(afterSubscribe, token);
    ghost var afterConfirm := repo.rows;
    ConfirmKeepsTriple(afterSubscribe, token, email, city, frequency);
    again := service.Confirm(token);
    assert Owners(repo.rows, retryToken) == {};
    duplicate := service.Subscribe(email, city, frequency, retryToken);
    var _ := service.Unsubscribe(token);
    UnsubscribeRevokesToken(afterConfirm, token);
    afterwards := service.Confirm(token);
  }

  /** The finding about confirm: in a table with two Pending records, a
      confirm with the second record's token, as written, confirms the
      first record (the one the unconstrained lookup yields) and leaves the
      second Pending; the intended step confirms the second and only it. */
  lemma ConfirmAsWrittenConfirmsWrongRecord()
    ensures
      var rows := map[
        0 := SubscriptionEntity(0, "a@example.com", "Kyiv", Daily, false, "token-a"),
        1 := SubscriptionEntity(1, "b@example.com", "Lviv", Hourly, false, "token-b")];
      var asWritten := ConfirmStepAsWritten(rows, "token-b", 0);
      var intended := ConfirmStep(rows, "token-b");
      && asWritten.result.Success? && asWritten.result.value.id == 0
      && asWritten.rows[0].confirmed && !asWritten.rows[1].confirmed
      && intended.result.Success? && intended.result.value.id == 1
      && intended.rows[1].confirmed && !intended.rows[0].confirmed
  {
    var rows := map[
      0 := SubscriptionEntity(0, "a@example.com", "Kyiv", Daily, false, "token-a"),
      1 := SubscriptionEntity(1, "b@example.com", "Lviv", Hourly, false, "token-b")];
    assert "token-a" != "token-b" by {
      assert "token-a"[6] != "token-b"[6];
    }
    assert Owners(rows, "token-b") == {1};
    assert OwnerOf(rows, "token-b") == 1;
  }
}
