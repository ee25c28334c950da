/**
 * UserDao, the gateway of the User entity: AbstractDao specialised to users,
 * with a lookup by email and an update that deliberately does nothing.
 */
module Users {
  import opened Wrappers
  import opened Dao

  /**
   * A stored user: its generated identifier, its email (null for a user
   * built from an identifier alone), and its other columns by name.
   */
  datatype User = User(id: int, email: Option<string>, columns: map<string, string>)

  /** The User entity class: the getter of id, and the user after Hibernate sets its id. */
  const UserClass: EntityClass<User> := EntityClass((u: User) => u.id, (u: User, id: int) => u.(id := id))

  /** The identifiers of the stored users whose email is the given one. */
  function WithEmail(rows: map<int, User>, email: string): (ids: set<int>)
    ensures forall id | id in ids :: id in rows && rows[id].email == Some(email)
    ensures forall id | id in rows && rows[id].email == Some(email) :: id in ids
  {
    set id | id in rows && rows[id].email == Some(email)
  }

  /** A set of one element is that element alone. */
  lemma SingletonIsItsElement(ids: set<int>, id: int)
    requires |ids| == 1 && id in ids
    ensures ids == {id}
  {
    var rest := ids - {id};
    assert |rest| == 0;
    assert forall other | other in ids :: other == id || other in rest;
  }

  /** A set of two or more elements holds two different ones. */
  lemma TwoDistinctMembers(ids: set<int>) returns (a: int, b: int)
    requires |ids| >= 2
    ensures a in ids && b in ids && a != b
  {
    a := SomeMember(ids);
    var rest := ids - {a};
    assert |rest| == |ids| - 1;
    b := SomeMember(rest);
  }

  class UserDao {
    /** The inherited AbstractDao state, over the User entity class. */
    const store: AbstractDao<User>

    ghost predicate Valid()
      reads this, store
    {
      store.Valid() && store.entity == UserClass
    }

    constructor ()
      ensures Valid()
      ensures fresh(store)
      ensures store.rows == map[] && store.nextId == 1
    {
      store := new AbstractDao(UserClass);
    }

    /** save(user): exactly create(user); the user receives the generated identifier. */
    method Save(user: User) returns (saved: User)
      requires Valid()
      modifies store
      ensures Valid()
      ensures saved == user.(id := old(store.nextId))
      ensures old(store.nextId) !in old(store.rows)
      ensures store.rows == old(store.rows)[saved.id := saved]
      ensures store.nextId == old(store.nextId) + 1
    {
      saved := store.Create(user);
    }

    /** delete(user): delete by the user's identifier; no other field of the user is read. */
    method Delete(user: User) returns (outcome: Outcome<DaoError>)
      requires Valid()
      modifies store
      ensures Valid()
      ensures outcome.Pass? <==> user.id in old(store.rows)
      ensures outcome.Pass? ==> store.rows == old(store.rows) - {user.id}
      ensures outcome.Fail? ==> outcome.error == ObjectNotFound(user.id) && store.rows == old(store.rows)
      ensures store.nextId == old(store.nextId)
    {
      outcome := store.Delete(user.id);
    }

    /** getAll(): every stored user exactly once. */
    method GetAll() returns (users: seq<User>)
      requires Valid()
      ensures |users| == |store.rows|
      ensures forall i | 0 <= i < |users| :: users[i].id in store.rows && store.rows[users[i].id] == users[i]
      ensures forall id | id in store.rows :: store.rows[id] in users
      ensures forall i, j | 0 <= i < j < |users| :: users[i].id != users[j].id
    {
      users := store.GetAll();
    }

    /**
     * getByEmail(email): uniqueResult over the users with that email. No user
     * gives null, one user gives that user, several give a NonUniqueResult
     * failure reporting how many there are.
     */
    method GetByEmail(email: string) returns (r: Result<Option<User>, DaoError>)
      requires Valid()
      ensures r == Success(None) <==> forall id | id in store.rows :: store.rows[id].email != Some(email)
      ensures r.Success? && r.value.Some? ==>
                && r.value.value.id in store.rows
                && store.rows[r.value.value.id] == r.value.value
                && r.value.value.email == Some(email)
                && forall id | id in store.rows && store.rows[id].email == Some(email) :: id == r.value.value.id
      ensures r.Failure? <==>
                exists a, b | a in store.rows && b in store.rows :: a != b
                  && store.rows[a].email == Some(email) && store.rows[b].email == Some(email)
      ensures r.Failure? ==> r.error == NonUniqueResult(|WithEmail(store.rows, email)|)
    {
      var matches := WithEmail(store.rows, email);
      if |matches| == 0 {
        r := Success(None);
      } else if |matches| == 1 {
        MinExists(matches);
        var id :| id in matches;
        SingletonIsItsElement(matches, id);
        r := Success(Some(store.rows[id]));
      } else {
        var a, b := TwoDistinctMembers(matches);
        r := Failure(NonUniqueResult(|matches|));
      }
    }

    /** getById(id): exactly get(id). */
    method GetById(id: int) returns (found: Option<User>)
      requires Valid()
      ensures found.Some? <==> id in store.rows
      ensures found.Some? ==> found.value == store.rows[id] && found.value.id == id
    {
      found := store.Get(id);
    }

    /** update(user): the session update is commented out, so nothing is stored. */
    method Update(user: User)
      requires Valid()
      ensures Valid()
      ensures unchanged(store)
    {
      return;
    }
  }
}
