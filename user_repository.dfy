/**
 * The in-memory user store, seeded with three users and keyed by phone.
 */
module UserRepository {
  import opened Wrappers

  datatype User = User(name: string, phone: string)

  type Users = map<string, User>

  /** The users the store starts with. */
  const Seed: Users := map[
    "12345" := User("Luana", "12345"),
    "67890" := User("Caroline", "67890"),
    "cli_test" := User("Amigo(a)", "cli_test")
  ]

  /** Every record is filed under its own phone. */
  predicate Keyed(users: Users) {
    forall p :: p in users ==> users[p].phone == p
  }

  /** `save_user`: rename an existing record, or insert a new one. */
  function Saved(users: Users, phone: string, name: string): (r: Users)
    ensures r.Keys == users.Keys + {phone}
    ensures forall p :: p in users && p != phone ==> r[p] == users[p]
    ensures phone in users ==> r[phone] == users[phone].(name := name)
    ensures phone !in users ==> r[phone] == User(name, phone)
  {
    if phone in users then users[phone := users[phone].(name := name)]
    else users[phone := User(name, phone)]
  }

  /** The seeded store is keyed by phone, and saving keeps it so. */
  lemma SavedKeyed(users: Users, phone: string, name: string)
    requires Keyed(users)
    ensures Keyed(Saved(users, phone, name))
    ensures Saved(users, phone, name)[phone] == User(name, phone)
  {
  }

  lemma SeedKeyed()
    ensures Seed.Keys == {"12345", "67890", "cli_test"}
    ensures Keyed(Seed)
  {
  }

  /** Saving twice with the same arguments is the same as saving once. */
  lemma SaveIdempotent(users: Users, phone: string, name: string)
    ensures Saved(Saved(users, phone, name), phone, name) == Saved(users, phone, name)
  {
    var once := Saved(users, phone, name);
    var twice := Saved(once, phone, name);
    assert once[phone].(name := name) == once[phone];
    assert twice.Keys == once.Keys;
  }

  class UserRepository {
    var users: Users

    constructor()
      ensures users == Seed
    {
      users := Seed;
    }

    /** `get_user_by_phone`: the stored record, or nothing. */
    function GetUserByPhone(phone: string): (r: Option<User>)
      reads this
      ensures r.Some? <==> phone in users
      ensures r.Some? ==> r.value == users[phone]
    {
      if phone in users then Some(users[phone]) else None
    }

    /** `save_user`: stores the record and returns it. */
    method SaveUser(phone: string, name: string) returns (user: User)
      modifies this
      ensures users == Saved(old(users), phone, name)
      ensures user == users[phone]
    {
      if phone in users {
        users := users[phone := users[phone].(name := name)];
      } else {
        users := users[phone := User(name, phone)];
      }
      user := users[phone];
    }
  }
}
