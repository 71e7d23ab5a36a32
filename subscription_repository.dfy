/** TypeOrmSubscriptionRepository: the `subscriptions` table as an in-memory
    map from primary key to row, with the repository's create, find, update
    and remove. */
module SubscriptionRepository {
  import opened Wrappers
  import opened Store
  import opened SubscriptionDomain

  type Table = map<Id, SubscriptionEntity>

  /** Every row is stored under its own primary key. */
  ghost predicate WellKeyed(rows: Table) {
    forall id :: id in rows ==> rows[id].id == id
  }

  /** The argument of `create`: the domain fields, `confirmed` possibly
      absent, and the token string. */
  datatype NewSubscription = NewSubscription(
    email: string,
    city: string,
    frequency: Frequency,
    confirmed: Option<bool>,
    token: string)

  /** The argument of `find`: a partial subscription or a token; `None` is an
      absent field. */
  datatype Query = Query(
    id: Option<Id>,
    email: Option<string>,
    city: Option<string>,
    frequency: Option<Frequency>,
    confirmed: Option<bool>,
    token: Option<string>)

  /** The argument of `update`: the fields to overwrite. */
  datatype Patch = Patch(
    email: Option<string>,
    city: Option<string>,
    frequency: Option<Frequency>,
    confirmed: Option<bool>)

  /** mapEntityToDomain: keeps id, email, city, frequency and confirmed. */
  function ToDomain(e: SubscriptionEntity): Subscription {
    Subscription(e.id, e.email, e.city, e.frequency, e.confirmed)
  }

  /** The domain object forgets the token: rows that differ only in their
      token look the same to every caller of the repository. */
  lemma DomainDropsToken(e: SubscriptionEntity, otherToken: string)
    ensures ToDomain(e.(token := otherToken)) == ToDomain(e)
    ensures ToDomain(e).id == e.id && ToDomain(e).confirmed == e.confirmed
  {
  }

  /** `find` takes its token branch only for a present, non-empty token. */
  predicate IsTokenQuery(q: Query) {
    q.token.Some? && q.token.value != ""
  }

  predicate FieldMatches<T(==)>(wanted: Option<T>, actual: T) {
    wanted.None? || wanted.value == actual
  }

  /** The `where` clause of the field-filter branch: every given field is
      equal to the row's. */
  predicate Matches(e: SubscriptionEntity, q: Query) {
    && FieldMatches(q.id, e.id)
    && FieldMatches(q.email, e.email)
    && FieldMatches(q.city, e.city)
    && FieldMatches(q.frequency, e.frequency)
    && FieldMatches(q.confirmed, e.confirmed)
    && FieldMatches(q.token, e.token)
  }

  ghost function MatchingIds(rows: Table, q: Query): set<Id> {
    set id | id in rows && Matches(rows[id], q)
  }

  /** The keys of the rows that carry `token`. */
  ghost function Owners(rows: Table, token: string): set<Id> {
    set id | id in rows && rows[id].token == token
  }

  /** Object.assign(entity, data): the supplied fields replace the row's,
      and nothing else about the row changes. */
  function Apply(e: SubscriptionEntity, p: Patch): (r: SubscriptionEntity)
    ensures r.id == e.id && r.token == e.token
    ensures r.email == (if p.email.Some? then p.email.value else e.email)
    ensures r.city == (if p.city.Some? then p.city.value else e.city)
    ensures r.frequency == (if p.frequency.Some? then p.frequency.value else e.frequency)
    ensures r.confirmed == (if p.confirmed.Some? then p.confirmed.value else e.confirmed)
  {
    e.(email := p.email.GetOr(e.email),
       city := p.city.GetOr(e.city),
       frequency := p.frequency.GetOr(e.frequency),
       confirmed := p.confirmed.GetOr(e.confirmed))
  }

  /** A patch is idempotent, and the empty patch changes nothing. */
  lemma ApplyIdempotent(e: SubscriptionEntity, p: Patch)
    ensures Apply(Apply(e, p), p) == Apply(e, p)
    ensures Apply(e, Patch(None, None, None, None)) == e
  {
  }

  /** `repo.find({ where })` followed by mapEntityToDomain: one domain object
      for every row that matches all the given fields, each once. */
  method Select(rows: Table, q: Query) returns (found: seq<Subscription>)
    requires WellKeyed(rows)
    ensures |found| == |MatchingIds(rows, q)|
    ensures forall s :: s in found ==>
      s.id in MatchingIds(rows, q) && s.id in rows && s == ToDomain(rows[s.id])
    ensures forall id :: id in MatchingIds(rows, q) ==> ToDomain(rows[id]) in found
  {
    ghost var matching := MatchingIds(rows, q);
    ghost var listed: set<Id> := {};
    var remaining := rows.Keys;
    found := [];
    while remaining != {}
      invariant remaining <= rows.Keys
      invariant listed <= matching && listed !! remaining
      invariant forall id :: id in matching && id !in remaining ==> id in listed
      invariant |found| == |listed|
      invariant forall s :: s in found ==> s.id in listed && s == ToDomain(rows[s.id])
      invariant forall id :: id in listed ==> ToDomain(rows[id]) in found
      decreases remaining
    {
      var id :| id in remaining;
      if Matches(rows[id], q) {
        found := found + [ToDomain(rows[id])];
        listed := listed + {id};
      }
      remaining := remaining - {id};
    }
    assert listed == matching;
  }

  class TypeOrmSubscriptionRepository {
    var rows: Table

    ghost predicate Valid()
      reads this
    {
      WellKeyed(rows)
    }

    constructor ()
      ensures Valid() && rows == map[]
    {
      rows := map[];
    }

    /** Inserts one row under a fresh key; `confirmed` defaults to false. */
    method Create(data: NewSubscription) returns (created: Subscription)
      requires Valid()
      modifies this
      ensures Valid()
      ensures created.id !in old(rows)
      ensures rows == old(rows)[created.id := SubscriptionEntity(
        created.id, data.email, data.city, data.frequency,
        data.confirmed == Some(true), data.token)]
      ensures created == ToDomain(rows[created.id])
    {
      UnusedIdExists(rows);
      var id: Id :| id !in rows;
      var entity := SubscriptionEntity(
        id, data.email, data.city, data.frequency,
        data.confirmed.GetOr(false), data.token);
      rows := rows[id := entity];
      created := ToDomain(entity);
    }

    /** A non-empty token selects at most one row carrying it (findOne);
        otherwise every row matching all the given fields is listed, in no
        particular order. */
    method Find(options: Query) returns (found: seq<Subscription>)
      requires Valid()
      ensures IsTokenQuery(options) ==>
        && |found| <= 1
        && (found == [] <==> Owners(rows, options.token.value) == {})
        && forall s :: s in found ==>
             s.id in Owners(rows, options.token.value) && s == ToDomain(rows[s.id])
      ensures !IsTokenQuery(options) ==>
        && |found| == |MatchingIds(rows, options)|
        && (forall s :: s in found ==>
              s.id in MatchingIds(rows, options) && s.id in rows && s == ToDomain(rows[s.id]))
        && forall id :: id in MatchingIds(rows, options) ==> ToDomain(rows[id]) in found
    {
      if IsTokenQuery(options) {
        var token := options.token.value;
        if exists id :: id in rows && rows[id].token == token {
          var id :| id in rows && rows[id].token == token;
          assert id in Owners(rows, token);
          found := [ToDomain(rows[id])];
        } else {
          assert Owners(rows, token) == {};
          found := [];
        }
        return;
      }
      found := Select(rows, options);
    }

    /** Overwrites the supplied fields of the row with key `id`; an unknown
        key gives null and no change. */
    method Update(id: Id, data: Patch) returns (updated: Option<Subscription>)
      requires Valid()
      modifies this
      ensures Valid()
      ensures id !in old(rows) ==> updated == None && rows == old(rows)
      ensures id in old(rows) ==>
        && rows == old(rows)[id := Apply(old(rows)[id], data)]
        && updated == Some(ToDomain(rows[id]))
    {
      if id !in rows {
        return None;
      }
      var entity := Apply(rows[id], data);
      rows := rows[id := entity];
      updated := Some(ToDomain(entity));
    }

    /** Deletes the row with key `id` and returns it; an unknown key gives
        null and no change. */
    method Remove(id: Id) returns (removed: Option<Subscription>)
      requires Valid()
      modifies this
      ensures Valid()
      ensures id !in old(rows) ==> removed == None && rows == old(rows)
      ensures id in old(rows) ==>
        && rows == old(rows) - {id}
        && removed == Some(ToDomain(old(rows)[id]))
    {
      if id !in rows {
        return None;
      }
      var entity := rows[id];
      rows := rows - {id};
      removed := Some(ToDomain(entity));
    }
  }
}
