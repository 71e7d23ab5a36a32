/** TokenRepository: the token table as an in-memory map from primary key
    to token value. */
module TokenRepository {
  import opened Wrappers
  import opened Store

  /** The token domain object: its store identity and its public value. */
  datatype Token = Token(id: Id, value: string)

  /** No two stored tokens share a value. */
  ghost predicate UniqueValues(rows: map<Id, string>) {
    forall a, b :: a in rows && b in rows && rows[a] == rows[b] ==> a == b
  }

  /** Removing a token whose value is unique leaves no row with that value,
      so a later lookup of the value finds nothing. */
  lemma RemovedValueGone(rows: map<Id, string>, id: Id)
    requires UniqueValues(rows) && id in rows
    ensures rows[id] !in (rows - {id}).Values
    ensures UniqueValues(rows - {id})
  {
    forall other | other in rows - {id} ensures (rows - {id})[other] != rows[id] {
      assert other != id;
    }
  }

  class TokenRepository {
    var rows: map<Id, string>

    constructor ()
      ensures rows == map[]
    {
      rows := map[];
    }

    /** Stores `value` under a fresh key and returns it as a Token. */
    method Create(value: string) returns (token: Token)
      modifies this
      ensures token.value == value && token.id !in old(rows)
      ensures rows == old(rows)[token.id := value]
    {
      UnusedIdExists(rows);
      var id: Id :| id !in rows;
      rows := rows[id := value];
      token := Token(id, value);
    }

    /** findOne by value: a stored token with that value, or null when none
        exists. */
    method FindByValue(value: string) returns (found: Option<Token>)
      ensures found.None? <==> value !in rows.Values
      ensures found.Some? ==>
        found.value.value == value && found.value.id in rows && rows[found.value.id] == value
    {
      if value in rows.Values {
        var id :| id in rows && rows[id] == value;
        found := Some(Token(id, value));
      } else {
        found := None;
      }
    }

    /** delete({ id }): removes the row if there is one; an absent key is
        not an error. */
    method Remove(id: Id)
      modifies this
      ensures rows == old(rows) - {id}
      ensures id !in old(rows) ==> rows == old(rows)
    {
      rows := rows - {id};
    }
  }
}
