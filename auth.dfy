/** backend/auth.py: the role check every article endpoint runs, the seeding of the
  * role table and registration. Tokens, password hashing and the clock are
  * outside the model: the hash is a function passed in. */
module Auth {
  import opened Wrappers
  import opened Schemas
  import Lists

  /** The role code that bypasses every role requirement. */
  const AdminCode := "admin"

  /** The codes `init_roles` makes sure exist, in the order it visits them. */
  const SeedCodes: seq<string> := ["admin", "author", "reader"]

  /** The role new users receive when it exists. */
  const ReaderCode := "reader"

  /** The answer of `role_checker` when the user lacks a role. */
  const Forbidden := HttpError(403, "Not enough permissions")

  /** The answer of `register` for an e-mail that is taken. */
  const EmailTaken := HttpError(400, "Email already registered")

  /** The condition of `role_checker`: the user holds "admin", or every required role. */
  predicate Admits(userRoles: set<string>, required: seq<string>)
    ensures Admits(userRoles, required) <==> AdminCode in userRoles || (set code | code in required) <= userRoles
  {
    AdminCode in userRoles || (forall code :: code in required ==> code in userRoles)
  }

  /** `require_roles(required)` applied to an authenticated user with the given
    * role codes: the user, or a 403. */
  function RoleChecker<U>(user: U, userRoles: set<string>, required: seq<string>): (r: Result<U, Failure>)
    ensures r.Ok? ==> r.value == user
    ensures r.Err? ==> r.error == Forbidden
    ensures r.Ok? <==> AdminCode in userRoles || (set code | code in required) <= userRoles
  {
    if Admits(userRoles, required) then Ok(user) else Err(Forbidden)
  }

  /** An administrator passes every requirement. */
  lemma AdminPassesEverything(userRoles: set<string>, required: seq<string>)
    requires AdminCode in userRoles
    ensures Admits(userRoles, required)
  {
  }

  /** `require_roles([])` admits every authenticated user. */
  lemma NoRequirementAdmitsAll(userRoles: set<string>)
    ensures Admits(userRoles, [])
  {
  }

  /** A user without "admin" who lacks one required role is refused. */
  lemma MissingRoleIsRefused(userRoles: set<string>, required: seq<string>, code: string)
    requires AdminCode !in userRoles
    requires code in required && code !in userRoles
    ensures !Admits(userRoles, required)
  {
  }

  /** The codes of `codes` not in `existing`, in order: what `init_roles` adds.
    * (The session does not autoflush, so each lookup sees the table as it was
    * before the loop; the seed codes are distinct, so this changes nothing.) */
  function Missing(existing: seq<string>, codes: seq<string>): (r: seq<string>)
    ensures forall k :: 0 <= k < |r| ==> r[k] in codes && r[k] !in existing
    ensures forall c :: c in codes && c !in existing ==> c in r
  {
    if codes == [] then []
    else if codes[0] in existing then Missing(existing, codes[1..])
    else [codes[0]] + Missing(existing, codes[1..])
  }

  /** The role table after `init_roles`. */
  function Seeded(roles: seq<string>): (r: seq<string>)
    ensures |r| >= |roles| && r[..|roles|] == roles
    ensures forall k :: |roles| <= k < |r| ==> r[k] in SeedCodes && r[k] !in roles
    ensures forall c :: c in SeedCodes ==> c in r
  {
    roles + Missing(roles, SeedCodes)
  }

  /** After seeding, every seed code exists. */
  lemma SeededHasAll(roles: seq<string>)
    ensures forall c :: c in SeedCodes ==> c in Seeded(roles)
  {
  }

  /** Nothing is missing from a table that has every code. */
  lemma {:induction false} NothingMissing(existing: seq<string>, codes: seq<string>)
    requires forall c :: c in codes ==> c in existing
    ensures Missing(existing, codes) == []
  {
    if codes != [] {
      NothingMissing(existing, codes[1..]);
    }
  }

  /** Seeding a second time adds nothing. */
  lemma SeededIdempotent(roles: seq<string>)
    ensures Seeded(Seeded(roles)) == Seeded(roles)
  {
    SeededHasAll(roles);
    NothingMissing(Seeded(roles), SeedCodes);
  }

  /** What `Missing` returns has no repeats when `codes` has none. */
  lemma {:induction false} MissingNoDup(existing: seq<string>, codes: seq<string>)
    requires Lists.NoDup(codes)
    ensures Lists.NoDup(Missing(existing, codes))
  {
    if codes != [] {
      assert Lists.NoDup(codes[1..]);
      MissingNoDup(existing, codes[1..]);
      if codes[0] !in existing {
        var rest := Missing(existing, codes[1..]);
        assert forall k :: 0 <= k < |rest| ==> rest[k] in codes[1..];
        assert codes[0] !in codes[1..];
      }
    }
  }

  /** Seeding a table without repeated codes leaves no repeated codes. */
  lemma SeededNoDup(roles: seq<string>)
    requires Lists.NoDup(roles)
    ensures Lists.NoDup(Seeded(roles))
  {
    MissingNoDup(roles, SeedCodes);
  }

  /** A row of the `users` table (the columns registration writes). */
  datatype User = User(id: string, email: string, passwordHash: string)

  /** A row of the `user_roles` table. */
  datatype UserRole = UserRole(userId: string, roleCode: string)

  /** No two users share an id or an e-mail. */
  predicate UniqueUsers(users: seq<User>) {
    forall i, j :: 0 <= i < j < |users| ==> users[i].id != users[j].id && users[i].email != users[j].email
  }

  /** Some user has this e-mail. */
  predicate EmailRegistered(users: seq<User>, email: string) {
    exists k :: 0 <= k < |users| && users[k].email == email
  }

  /** Some user has this id. */
  predicate IdTaken(users: seq<User>, id: string) {
    exists k :: 0 <= k < |users| && users[k].id == id
  }

  /** The role codes a user holds. */
  function CodesOf(userRoles: seq<UserRole>, userId: string): set<string> {
    set k | 0 <= k < |userRoles| && userRoles[k].userId == userId :: userRoles[k].roleCode
  }

  /** The `roles`, `users` and `user_roles` tables. */
  class AuthStore {
    var roles: seq<string>
    var users: seq<User>
    var userRoles: seq<UserRole>

    ghost predicate Valid()
      reads this
    {
      Lists.NoDup(roles) && UniqueUsers(users)
    }

    constructor ()
      ensures Valid()
      ensures roles == [] && users == [] && userRoles == []
    {
      roles, users, userRoles := [], [], [];
    }

    /** `init_roles`: add each of "admin", "author", "reader" that is absent. */
    method InitRoles()
      requires Valid()
      modifies this
      ensures Valid()
      ensures roles == Seeded(old(roles))
      ensures users == old(users) && userRoles == old(userRoles)
    {
      var before := roles;
      var i := 0;
      while i < |SeedCodes|
        invariant 0 <= i <= |SeedCodes|
        invariant roles == before + Missing(before, SeedCodes[..i])
        invariant users == old(users) && userRoles == old(userRoles)
      {
        var code := SeedCodes[i];
        MissingSnoc(before, SeedCodes[..i], code);
        assert SeedCodes[..i + 1] == SeedCodes[..i] + [code];
        if code !in before {
          roles := roles + [code];
        }
        i := i + 1;
      }
      assert SeedCodes[..|SeedCodes|] == SeedCodes;
      SeededNoDup(before);
    }

    /** `register`: refuse a taken e-mail; otherwise add the user with the
      * hashed password and, when the "reader" role exists, give it to them.
      * A generated id that is already taken makes the insert fail. */
    method Register(email: string, password: string, newId: string, hash: string -> string)
      returns (r: Result<User, Failure>)
      requires Valid()
      modifies this
      ensures Valid()
      ensures roles == old(roles)
      ensures EmailRegistered(old(users), email) ==>
                r == Err(EmailTaken) && users == old(users) && userRoles == old(userRoles)
      ensures !EmailRegistered(old(users), email) && IdTaken(old(users), newId) ==>
                r == Err(ServerError) && users == old(users) && userRoles == old(userRoles)
      ensures !EmailRegistered(old(users), email) && !IdTaken(old(users), newId) ==>
                r == Ok(User(newId, email, hash(password)))
                && users == old(users) + [r.value]
                && userRoles == old(userRoles) + (if ReaderCode in roles then [UserRole(newId, ReaderCode)] else [])
    {
      if EmailRegistered(users, email) {
        return Err(EmailTaken);
      }
      if IdTaken(users, newId) {
        return Err(ServerError);
      }
      var u := User(newId, email, hash(password));
      users := users + [u];
      if ReaderCode in roles {
        userRoles := userRoles + [UserRole(newId, ReaderCode)];
      }
      r := Ok(u);
    }
  }

  /** Extending the visited codes by one adds that code when it is absent. */
  lemma {:induction false} MissingSnoc(existing: seq<string>, codes: seq<string>, c: string)
    ensures Missing(existing, codes + [c]) == Missing(existing, codes) + (if c in existing then [] else [c])
  {
    if codes == [] {
      assert codes + [c] == [c];
    } else {
      assert (codes + [c])[0] == codes[0];
      assert (codes + [c])[1..] == codes[1..] + [c];
      MissingSnoc(existing, codes[1..], c);
    }
  }

  /** A user registered right after the roles are seeded may read and may not
    * write: registration grants "reader" only. */
  method NewUserIsReaderOnly() returns (canRead: bool, canWrite: bool)
    ensures canRead && !canWrite
  {
    var store := new AuthStore();
    store.InitRoles();
    assert ReaderCode in store.roles;
    var r := store.Register("reader@example.com", "password123", "u1", s => s);
    assert store.userRoles == [UserRole("u1", ReaderCode)];
    var codes := CodesOf(store.userRoles, "u1");
    assert store.userRoles[0].userId == "u1";
    assert ReaderCode in codes;
    assert forall x :: x in codes ==> x == ReaderCode;
    assert codes == {ReaderCode};
    canRead := Admits(codes, ["reader"]);
    MissingRoleIsRefused(codes, ["author"], "author");
    canWrite := Admits(codes, ["author"]);
  }
}
