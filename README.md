# Weather subscription registry — a Dafny model

This project models the subscription registry of a weather-update service. Users subscribe an
email address to weather updates for a city, hourly or daily. They confirm the subscription with
a token, and they unsubscribe with the same token. The model covers:

- the subscription table and its repository (`create`, `find` by token or by fields, `update`,
  `remove`, and the mapping from row to domain object), as a class over a map from primary key to
  row (`subscription_repository.dfy`);
- the subscription service's `subscribe`, `confirm` and `unsubscribe`
  (`subscription_service.dfy`). Each is a pure step from a table to a result and a new table
  (`SubscribeStep`, `ConfirmStep`, `UnsubscribeStep`), and a class method that runs against the
  repository and is proved to take exactly that step;
- properties that relate several calls (`subscription_lifecycle.dfy`): confirm is idempotent,
  unsubscribe revokes its token, any run of requests keeps keys, tokens and
  (email, city, frequency) triples unique, `confirmed` is never reset, and an end-to-end scenario;
- the token store and token service, a second store that the subscription service does not use
  (`token_repository.dfy`, `token_service.dfy`);
- the controller's decision table from error codes to HTTP exceptions
  (`subscription_controller.dfy`).

Modelling choices:

- Primary keys are `nat` (`Store.Id`). On insert the database generates a uuid key; the model
  picks any key not in use.
- `uuidv4()` becomes a parameter `generated` of the operation that calls it. Its precondition is
  the generator's guarantee: the value is non-empty or well formed, and no stored row has it.
- The uuid library's `validate` is the field `isUuid: string -> bool` of `TokenService`. Every
  property is proved for any such predicate.
- The repository itself enforces no uniqueness. When several rows carry the same token, `find`
  returns an unspecified one of them. The service's invariant `Consistent` adds that keys, tokens
  and triples are unique, and every service operation is proved to keep it.
- The service throws exceptions with literal messages; the controller switches on error-code
  constants that are defined outside the modelled files. The two are kept as separate datatypes
  (`SubscriptionService.ServiceError`, `SubscriptionController.ErrorCode`), and nothing assumes that
  the strings coincide. `StatusesAgreeWithService` states what would follow if they did.

Where the service's design and its code disagree, the model follows the code, except for the
key of `confirm`'s update (last item below, and "## Findings"):

- The design has the registry resolve tokens through the token service, so a malformed uuid would
  give "invalid token". The code stores the token as a string column on the subscription and only
  rejects an empty token. `ConfirmStep` and `UnsubscribeStep` follow the code.
- The design deletes the token together with the subscription. The code deletes only the
  subscription row. The token store is modelled separately, as the code has it.
- In `confirm`, the code keys the update by `subscription['token']`. The model keys it by the found
  record's id. See "## Findings".

## Model

| member | source | states |
|---|---|---|
| `SubscriptionRepository.DomainDropsToken` | src/subscription/infrastructure/persistence/typeorm-subscription.repository.ts:15-23 | about `ToDomain`, the model of mapEntityToDomain: the domain object keeps id and confirmed; rows that differ only in their token map to the same domain object |
| `SubscriptionRepository.Apply` | src/subscription/infrastructure/persistence/typeorm-subscription.repository.ts:61 | each supplied field replaces the row's field; absent fields, the id and the token keep their old values |
| `SubscriptionRepository.ApplyIdempotent` | src/subscription/infrastructure/persistence/typeorm-subscription.repository.ts:61-62 | applying a patch twice equals applying it once; the empty patch changes nothing |
| `SubscriptionRepository.Select` | src/subscription/infrastructure/persistence/typeorm-subscription.repository.ts:50-51 | lists exactly the rows matching every given field, each once, as domain objects |
| `SubscriptionRepository.TypeOrmSubscriptionRepository.Create` | src/subscription/infrastructure/persistence/typeorm-subscription.repository.ts:25-38 | adds one row under a fresh key with the given fields and token; `confirmed` is false unless given as true; other rows unchanged |
| `SubscriptionRepository.TypeOrmSubscriptionRepository.Find` | src/subscription/infrastructure/persistence/typeorm-subscription.repository.ts:40-52 | a non-empty token gives at most one result, a row carrying that token, and a result whenever one exists; otherwise exactly the rows matching all given fields |
| `SubscriptionRepository.TypeOrmSubscriptionRepository.Update` | src/subscription/infrastructure/persistence/typeorm-subscription.repository.ts:54-64 | unknown id: null and table unchanged; known id: only that row changes, by the patch, and is returned |
| `SubscriptionRepository.TypeOrmSubscriptionRepository.Remove` | src/subscription/infrastructure/persistence/typeorm-subscription.repository.ts:66-72 | unknown id: null and table unchanged; known id: exactly that row is deleted and returned |
| `Store.UnusedIdExists` | src/database/migrations/1747437840000-CreateSubscriptionsTable.ts:13-19 | an unused primary key always exists for an insert |
| `SubscriptionService.SubscribeStep` | src/subscription/application/subscription.service.ts:15-41 | fails with the conflict exactly when some record, confirmed or not, has the triple, and then writes nothing; otherwise adds exactly one Pending record with the given fields and token, other records unchanged; keeps the uniqueness invariant |
| `SubscriptionService.ConfirmStep` | src/subscription/application/subscription.service.ts:43-66 | empty token: "Invalid token", table unchanged; token on no record: "Token not found", table unchanged; a non-empty token carried by a record always succeeds, and then exactly that record ends confirmed and is returned, nothing else changes, and no record loses `confirmed` |
| `SubscriptionService.UnsubscribeStep` | src/subscription/application/subscription.service.ts:69-81 | the same two failures as confirm, table unchanged; a non-empty token carried by a record always succeeds, and then exactly the record carrying the token is deleted |
| `SubscriptionService.SubscriptionService.Subscribe` | src/subscription/application/subscription.service.ts:15-41 | the repository ends in the state `SubscribeStep` gives, for a fresh key, and the service invariant holds |
| `SubscriptionService.SubscriptionService.Confirm` | src/subscription/application/subscription.service.ts:43-66 | result and new table are those of `ConfirmStep`; the service invariant holds |
| `SubscriptionService.SubscriptionService.Unsubscribe` | src/subscription/application/subscription.service.ts:69-81 | result and new table are those of `UnsubscribeStep`; the service invariant holds |
| `SubscriptionService.ConfirmStepAsWritten` | src/subscription/application/subscription.service.ts:60-63 | as written, confirming a Pending record sets `confirmed` on the row the unconstrained lookup yields, not on the token's record |
| `SubscriptionLifecycle.ConfirmIdempotent` | src/subscription/application/subscription.service.ts:54-58 | a second confirm with the same token returns the same result and leaves the same table as the first |
| `SubscriptionLifecycle.ConfirmKeepsTriple` | src/subscription/application/subscription.service.ts:16-24 | confirming neither adds nor removes any (email, city, frequency) triple |
| `SubscriptionLifecycle.SecondSubscribeConflicts` | src/subscription/application/subscription.service.ts:16-24 | after a successful subscribe, confirmed or not, subscribing the same triple again fails with the conflict and writes nothing |
| `SubscriptionLifecycle.UnsubscribeRevokesToken` | src/subscription/application/subscription.service.ts:74-80 | after a successful unsubscribe, confirm and unsubscribe with that token both fail "Token not found" |
| `SubscriptionLifecycle.UnsubscribeFreesTriple` | src/subscription/application/subscription.service.ts:80 | after a successful unsubscribe, no record has the removed record's triple |
| `SubscriptionLifecycle.Run` | src/subscription/application/subscription.service.ts:15-81 | every table reached by a run of requests keeps keys, tokens and triples unique |
| `SubscriptionLifecycle.ConfirmedNeverReset` | src/subscription/application/subscription.service.ts:15-81 | over any run of requests, a confirmed record that is still present is still confirmed |
| `SubscriptionLifecycle.Scenario` | src/subscription/application/subscription.service.ts:15-81 | on a fresh table: subscribe gives a Pending record; confirm confirms it and repeats identically; a duplicate subscribe conflicts; after unsubscribe, confirm fails "Token not found" |
| `SubscriptionLifecycle.ConfirmAsWrittenConfirmsWrongRecord` | src/subscription/application/subscription.service.ts:60-63 | with two Pending records, confirming the second as written confirms the first and leaves the second Pending; the intended step confirms only the second |
| `TokenRepository.RemovedValueGone` | src/token/infrastructure/persistance/typeorm-token.repository.ts:20-27 | after removing a token whose value is unique, no stored token has that value and values stay unique |
| `TokenRepository.TokenRepository.Create` | src/token/infrastructure/persistance/typeorm-token.repository.ts:14-18 | adds one row under a fresh key and returns a token with the given value |
| `TokenRepository.TokenRepository.FindByValue` | src/token/infrastructure/persistance/typeorm-token.repository.ts:20-23 | null exactly when no stored token has the value; otherwise a stored token with that value |
| `TokenRepository.TokenRepository.Remove` | src/token/infrastructure/persistance/typeorm-token.repository.ts:25-27 | deletes the row with that key and leaves the others; an absent key changes nothing and is no error |
| `TokenService.TokenService.Create` | src/token/application/token.service.ts:20-23 | stores the generated value under a fresh key and returns that token; values stay unique |
| `TokenService.TokenService.FindByValue` | src/token/application/token.service.ts:25-36 | a malformed value is INVALID_TOKEN whatever the store holds; a well-formed value with no token is TOKEN_NOT_FOUND; otherwise the stored token with that value |
| `TokenService.TokenService.Remove` | src/token/application/token.service.ts:38-40 | deletes the token with that key through the repository; values stay unique |
| `TokenService.TokenLifecycle` | src/token/application/token.service.ts:20-40 | a created value resolves to its token; a malformed value is INVALID_TOKEN; after removal the value is TOKEN_NOT_FOUND |
| `SubscriptionController.SubscribeError` | src/subscription/infrastructure/subscription.controller.ts:33-42 | a Conflict exactly for EMAIL_ALREADY_SUBSCRIBED; every other code gives BadRequest with INVALID_INPUT |
| `SubscriptionController.TokenRouteError` | src/subscription/infrastructure/subscription.controller.ts:49-58 | INVALID_TOKEN, and only it, gives BadRequest with INVALID_TOKEN; either TOKEN_NOT_FOUND code, and only those, gives NotFound; anything else gives BadRequest with INVALID_INPUT; never a Conflict |
| `SubscriptionController.Subscribe` | src/subscription/infrastructure/subscription.controller.ts:30-43 | a successful service result is returned unchanged; an error becomes `SubscribeError` of its code |
| `SubscriptionController.Confirm` | src/subscription/infrastructure/subscription.controller.ts:46-60 | a successful service result is returned unchanged; an error becomes `TokenRouteError` of its code |
| `SubscriptionController.Unsubscribe` | src/subscription/infrastructure/subscription.controller.ts:64-78 | success stays success; an error becomes `TokenRouteError` of its code |
| `SubscriptionController.StatusesAgreeWithService` | src/subscription/infrastructure/subscription.controller.ts:34-75 | if the service's messages were the controller's codes, each route would answer with the status the service's own exception carries |

## Left out

- Sending the confirmation email: `sendConfirmationEmail` only writes a console line. `subscribe` passes it `created['token']`, but `created` is the domain object `create` returns, which has no token field, so the value it logs is undefined. The controller also returns that object, so no response or log line ever carries the token. The cause is the one behind the confirm finding below. The model stores the token on the row and does not model what is logged.
- The mail service and templates, and the weather client and endpoint: SMTP and HTTP I/O, and floating-point temperatures.
- The scheduled fan-out to subscribers: the cron handlers call `sendWeatherToSubscribers`, which is not defined in any modelled file. So there is no dispatcher, per-run city cache or failure isolation to model.
- Module wiring, configuration, entity decorators and the migration: declarations only; they give the record shape.
- DTO validation by class-validator: inputs are taken as already valid.
- The uuid library: `validate` is an arbitrary predicate and `uuidv4()` a fresh value supplied by the caller.
- Concurrency: the operations are atomic and sequential. The table has no unique constraint, so two concurrent subscribes with one triple could both succeed; the model does not capture this race.
- Exception message strings: the service's literal messages and the controller's constants are not related.
- SubscriptionRepository.TypeOrmSubscriptionRepository.Update: a patch that sets `id` is not modelled; the service never sends one.
- SubscriptionRepository.TypeOrmSubscriptionRepository.Create: a call missing email, city or frequency fails in the database on a NOT NULL column; the model's argument always carries them.
- SubscriptionRepository.TypeOrmSubscriptionRepository.Remove: the program maps the entity to a domain object only after the ORM's `remove` has run, and that call clears the removed entity's primary key in place. So the returned object's `id` is undefined, not the removed key that the contract states. The model treats the entity as a value and does not capture this in-place change. The only caller, `unsubscribe`, ignores the returned value.
- SubscriptionLifecycle.ConfirmedNeverReset: stated for records whose key no later subscribe reuses. A database-generated uuid key is never reused in practice.

## Findings

| source | as written | input that shows it | evidently intended | confidence | as-written member | corrected member |
|---|---|---|---|---|---|---|
| src/subscription/application/subscription.service.ts:60-63 | `confirm` updates the row keyed by `subscription['token']`. The domain object from `find` has no token field, so the key is undefined, and `update` looks the key up as an id. A lookup whose only condition is undefined has no effective condition, so it returns whichever row the store yields first. That row is confirmed and returned. | two Pending records, row 0 with token `token-a` and row 1 with token `token-b`; `confirm("token-b")` with the store yielding row 0 first | set `confirmed` on the record found by the token, keyed by its id | medium, not executed: it depends on the ORM dropping an undefined where-value. If the ORM instead matched nothing, `update` would return null and the record would still stay Pending. | `SubscriptionService.ConfirmStepAsWritten` | `SubscriptionService.ConfirmStep` |

`SubscriptionLifecycle.ConfirmAsWrittenConfirmsWrongRecord` exhibits the discrepancy on the input above. `SubscriptionService.SubscriptionService.Confirm` implements the corrected step. `ConfirmStep`'s contract and `SubscriptionLifecycle.ConfirmIdempotent` state the intended properties.
