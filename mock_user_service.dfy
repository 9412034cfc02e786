/**
 * The in-memory user store used as a test double for the user service: a
 * map from id to user, an index from e-mail to id, the insertion order of
 * the ids (the order `users.values()` lists them in) and the next id to
 * hand out.
 */
module MockUsers {
  import opened Py

  /** The creation time every mock user is given when it is built. */
  const MockCreatedAt: string := "2024-01-01T00:00:00"

  /** A stored user; `role` is fixed when the user is built from `isAdmin`. */
  datatype MockUser = MockUser(
    id: int,
    email: string,
    fullName: string,
    hashedPassword: string,
    isActive: bool,
    isAdmin: bool,
    role: string)

  /** `MockUser(id, email, full_name, hashed_password, is_active, is_admin)`. */
  function NewUser(id: int, email: string, fullName: string, hashedPassword: string,
                   isActive: bool, isAdmin: bool): (u: MockUser)
    ensures u.id == id && u.email == email && u.fullName == fullName
    ensures u.isActive == isActive && u.isAdmin == isAdmin
    ensures u.role == (if isAdmin then "admin" else "user")
  {
    MockUser(id, email, fullName, hashedPassword, isActive, isAdmin, if isAdmin then "admin" else "user")
  }

  /** The fields of a creation request the store reads. */
  datatype UserCreate = UserCreate(email: string, password: string, fullName: string)

  /** The longest full name or password a creation request accepts. */
  const MaxFieldLength := 100

  /** The shortest password a creation request accepts. */
  const MinPasswordLength := 8

  /**
   * Building a creation request validates its fields: a full name of 1 to
   * 100 characters and a password of 8 to 100 characters are accepted,
   * anything else is a validation error for the request as a whole.
   */
  function MakeUserCreate(email: string, password: string, fullName: string): (r: Result<UserCreate>)
    ensures r.Ok? <==> 1 <= |fullName| <= MaxFieldLength && MinPasswordLength <= |password| <= MaxFieldLength
    ensures r.Ok? ==> r.value.email == email && r.value.password == password && r.value.fullName == fullName
    ensures r.Err? ==> r.error == ValidationError("UserCreate")
  {
    if 1 <= |fullName| <= MaxFieldLength && MinPasswordLength <= |password| <= MaxFieldLength then
      Ok(UserCreate(email, password, fullName))
    else
      Err(ValidationError("UserCreate"))
  }

  /** An update request: each field is optional. */
  datatype UserUpdate = UserUpdate(email: Option<string>, fullName: Option<string>, isActive: Option<bool>)

  /** An update names a non-empty e-mail other than the user's own. */
  predicate ChangesEmail(u: MockUser, data: UserUpdate)
  {
    data.email.Some? && data.email.value != "" && data.email.value != u.email
  }

  /**
   * The user after an update: a new e-mail when `ChangesEmail`, a non-empty
   * new name, a given active flag; the rest as before.
   */
  function Updated(u: MockUser, data: UserUpdate): (nu: MockUser)
    ensures nu.id == u.id && nu.isAdmin == u.isAdmin && nu.role == u.role && nu.hashedPassword == u.hashedPassword
    ensures nu.email == (if ChangesEmail(u, data) then data.email.value else u.email)
    ensures data.fullName.Some? && data.fullName.value != "" ==> nu.fullName == data.fullName.value
    ensures !(data.fullName.Some? && data.fullName.value != "") ==> nu.fullName == u.fullName
    ensures nu.isActive == (if data.isActive.Some? then data.isActive.value else u.isActive)
    ensures data == UserUpdate(None, None, None) ==> nu == u
  {
    var u1 := if ChangesEmail(u, data) then u.(email := data.email.value) else u;
    var u2 := if data.fullName.Some? && data.fullName.value != "" then u1.(fullName := data.fullName.value) else u1;
    if data.isActive.Some? then u2.(isActive := data.isActive.value) else u2
  }

  /** `[u for u in users if u.is_active]`. */
  function ActiveUsers(users: seq<MockUser>): (r: seq<MockUser>)
    ensures |r| <= |users|
    ensures forall u :: u in r <==> u in users && u.isActive
  {
    if users == [] then []
    else
      var rest := ActiveUsers(users[1..]);
      assert users == [users[0]] + users[1..];
      if users[0].isActive then [users[0]] + rest else rest
  }

  /** The elements of a sequence without repeats are as many as its length. */
  lemma {:induction false} DistinctCard<T>(xs: seq<T>)
    requires Distinct(xs)
    ensures |set x | x in xs| == |xs|
  {
    if xs != [] {
      var p := xs[..|xs| - 1];
      var last := xs[|xs| - 1];
      DistinctLastFresh(xs, |xs|);
      assert Distinct(p);
      DistinctCard(p);
      assert (set x | x in xs) == (set x | x in p) + {last};
    }
  }

  /** Removing an element from a sequence, keeping the order of the rest. */
  function Without(xs: seq<int>, x: int): (r: seq<int>)
    ensures forall y :: y in r <==> y in xs && y != x
  {
    if xs == [] then []
    else
      var rest := Without(xs[1..], x);
      assert xs == [xs[0]] + xs[1..];
      if xs[0] == x then rest else [xs[0]] + rest
  }

  /** Removing an element keeps a sequence free of repeats. */
  lemma {:induction false} WithoutDistinct(xs: seq<int>, x: int)
    requires Distinct(xs)
    ensures Distinct(Without(xs, x))
  {
    if xs != [] {
      assert Distinct(xs[1..]);
      WithoutDistinct(xs[1..], x);
      assert xs[0] !in xs[1..];
    }
  }

  /** The users of `users` in the order `order` lists their ids. */
  function InOrder(users: map<int, MockUser>, order: seq<int>): (r: seq<MockUser>)
    requires forall k :: 0 <= k < |order| ==> order[k] in users
    ensures |r| == |order| && forall k :: 0 <= k < |r| ==> r[k] == users[order[k]]
  {
    seq(|order|, k requires 0 <= k < |order| => users[order[k]])
  }

  /**
   * When the order lists every id of the map and every user is stored under
   * its own id, the users in order are exactly the stored users.
   */
  lemma InOrderCovers(users: map<int, MockUser>, order: seq<int>)
    requires forall k :: 0 <= k < |order| ==> order[k] in users
    requires forall id :: id in users ==> id in order && users[id].id == id
    ensures forall id :: id in users ==> users[id] in InOrder(users, order)
    ensures forall u :: u in InOrder(users, order) ==> u.id in users && users[u.id] == u
  {
    var all := InOrder(users, order);
    forall u | u in all ensures u.id in users && users[u.id] == u {
      var k :| 0 <= k < |all| && all[k] == u;
      assert order[k] in users && users[order[k]] == u;
      assert u.id == order[k];
    }
    forall id | id in users ensures users[id] in all {
      var k :| 0 <= k < |order| && order[k] == id;
      assert all[k] == users[id];
    }
  }

  class MockUserService {
    var users: map<int, MockUser>
    var emailIndex: map<string, int>
    var nextId: int
    /** The ids in the order they were inserted into `users`. */
    var order: seq<int>

    /**
     * The index maps each e-mail to the id of the one user holding it and
     * back; every id is positive, below `nextId`, and the user's own id; the
     * order lists every id once.
     */
    ghost predicate Valid()
      reads this
    {
      1 <= nextId
      && (forall e :: e in emailIndex ==> emailIndex[e] in users && users[emailIndex[e]].email == e)
      && (forall id :: id in users ==> users[id].email in emailIndex && emailIndex[users[id].email] == id)
      && (forall id :: id in users ==> users[id].id == id && 1 <= id < nextId)
      && Distinct(order)
      && (forall id :: id in order ==> id in users)
      && (forall id :: id in users ==> id in order)
    }

    /** A fresh store holds the admin (id 1) and a regular user (id 2); the next id is 3. */
    constructor ()
      ensures Valid()
      ensures users == map[1 := NewUser(1, "admin@test.com", "Test Admin", "mock_hash", true, true),
                           2 := NewUser(2, "user@test.com", "Test User", "mock_hash", true, false)]
      ensures emailIndex == map["admin@test.com" := 1, "user@test.com" := 2]
      ensures order == [1, 2] && nextId == 3
    {
      users := map[1 := NewUser(1, "admin@test.com", "Test Admin", "mock_hash", true, true),
                   2 := NewUser(2, "user@test.com", "Test User", "mock_hash", true, false)];
      emailIndex := map["admin@test.com" := 1, "user@test.com" := 2];
      order := [1, 2];
      nextId := 3;
    }

    /** Every position of the order holds a stored id. */
    lemma OrderIndexed()
      requires Valid()
      ensures forall k :: 0 <= k < |order| ==> order[k] in users
    {
      assert forall id :: id in order ==> id in users;
      forall k | 0 <= k < |order| ensures order[k] in users {
        assert order[k] in order;
      }
    }

    /** No two stored users share an e-mail. */
    lemma EmailsUnique(i: int, j: int)
      requires Valid() && i in users && j in users && users[i].email == users[j].email
      ensures i == j
    {
      assert emailIndex[users[i].email] == i;
    }

    /** `get_user_by_id`. */
    function GetUserById(id: int): (r: Option<MockUser>)
      reads this
      ensures r.Some? <==> id in users
      ensures r.Some? ==> r.value == users[id]
    {
      if id in users then Some(users[id]) else None
    }

    /** `get_user_by_email`: the one user holding the e-mail, if any. */
    function GetUserByEmail(email: string): (r: Option<MockUser>)
      reads this
      requires Valid()
      ensures r.Some? <==> exists id :: id in users && users[id].email == email
      ensures r.Some? ==> r.value.email == email && r.value.id in users && users[r.value.id] == r.value
    {
      if email in emailIndex && emailIndex[email] != 0 then GetUserById(emailIndex[email]) else None
    }

    /** `list(self.users.values())`, optionally keeping the active users only. */
    function Listed(activeOnly: bool): (r: seq<MockUser>)
      reads this
      requires Valid()
      ensures forall u :: u in r ==> u.id in users && users[u.id] == u && (activeOnly ==> u.isActive)
      ensures forall id :: id in users && (activeOnly ==> users[id].isActive) ==> users[id] in r
    {
      OrderIndexed();
      var all := InOrder(users, order);
      InOrderCovers(users, order);
      if activeOnly then ActiveUsers(all) else all
    }

    /** `get_users(skip, limit, active_only)`: one page of the listing. */
    function GetUsers(skip: int, limit: int, activeOnly: bool): (r: seq<MockUser>)
      reads this
      requires Valid()
      ensures skip >= 0 && limit >= 0 ==> |r| <= limit
      ensures skip >= 0 && limit >= 0 ==>
        forall k :: 0 <= k < |r| ==> skip + k < |Listed(activeOnly)| && r[k] == Listed(activeOnly)[skip + k]
      ensures forall u :: u in r ==> u.id in users && users[u.id] == u && (activeOnly ==> u.isActive)
    {
      var listed := Listed(activeOnly);
      var page := Slice(listed, skip, skip + limit);
      if skip >= 0 && limit >= 0 then SliceWindow(listed, skip, limit); page else page
    }

    /**
     * `get_users_count(active_only)`: as many as the listing holds, which is
     * never more than the stored users.
     */
    function GetUsersCount(activeOnly: bool): (n: nat)
      reads this
      requires Valid()
      ensures n == |Listed(activeOnly)| && n <= |users|
    {
      OrderCount();
      if activeOnly then |Listed(true)| else |users|
    }

    /** The order lists each stored id once, so it is as long as the store. */
    lemma OrderCount()
      requires Valid()
      ensures |order| == |users|
    {
      DistinctCard(order);
      forall id ensures id in (set x | x in order) <==> id in users.Keys {
      }
      assert (set x | x in order) == users.Keys;
      assert |users| == |users.Keys|;
    }

    /** A page as long as the count lists every matching user. */
    lemma CountIsListing(activeOnly: bool)
      requires Valid()
      ensures GetUsers(0, GetUsersCount(activeOnly), activeOnly) == Listed(activeOnly)
    {
    }

    /**
     * `create_user`: a known e-mail is a ValueError and changes nothing;
     * otherwise the user gets the next id, is stored and indexed, and the
     * next id moves on.
     */
    method CreateUser(data: UserCreate) returns (r: Result<MockUser>)
      requires Valid()
      modifies this
      ensures Valid()
      ensures old(data.email in emailIndex) ==>
        r == Err(ValueError("User with email " + data.email + " already exists"))
        && users == old(users) && emailIndex == old(emailIndex) && nextId == old(nextId) && order == old(order)
      ensures !old(data.email in emailIndex) ==>
        r == Ok(NewUser(old(nextId), data.email, data.fullName, "mock_hashed_password", true, false))
        && users == old(users)[old(nextId) := r.value]
        && emailIndex == old(emailIndex)[data.email := old(nextId)]
        && nextId == old(nextId) + 1 && order == old(order) + [old(nextId)]
      ensures r.Ok? ==> GetUserByEmail(data.email) == Some(r.value) && GetUserById(r.value.id) == Some(r.value)
    {
      if data.email in emailIndex {
        return Err(ValueError("User with email " + data.email + " already exists"));
      }
      var user := NewUser(nextId, data.email, data.fullName, "mock_hashed_password", true, false);
      assert nextId !in users;
      users := users[nextId := user];
      emailIndex := emailIndex[data.email := nextId];
      order := order + [nextId];
      nextId := nextId + 1;
      r := Ok(user);
    }

    /**
     * `update_user`: a missing id gives None and changes nothing; a new
     * e-mail held by someone else is a ValueError and changes nothing;
     * otherwise the e-mail is re-indexed when it changes, the name changes
     * when a non-empty one is given, the active flag when one is given.
     */
    method UpdateUser(id: int, data: UserUpdate) returns (r: Result<Option<MockUser>>)
      requires Valid()
      modifies this
      ensures Valid() && nextId == old(nextId) && order == old(order)
      ensures id !in old(users) ==> r == Ok(None) && users == old(users) && emailIndex == old(emailIndex)
      ensures id in old(users) && ChangesEmail(old(users[id]), data) && data.email.value in old(emailIndex) ==>
        r == Err(ValueError("User with email " + data.email.value + " already exists"))
        && users == old(users) && emailIndex == old(emailIndex)
      ensures id in old(users) && !(ChangesEmail(old(users[id]), data) && data.email.value in old(emailIndex)) ==>
        r == Ok(Some(Updated(old(users[id]), data))) && users == old(users)[id := Updated(old(users[id]), data)]
      ensures id in old(users) && r.Ok? && ChangesEmail(old(users[id]), data) ==>
        emailIndex == (old(emailIndex) - {old(users[id].email)})[data.email.value := id]
      ensures id in old(users) && !ChangesEmail(old(users[id]), data) ==> emailIndex == old(emailIndex)
    {
      if id !in users {
        return Ok(None);
      }
      var user := users[id];
      if ChangesEmail(user, data) {
        if data.email.value in emailIndex {
          return Err(ValueError("User with email " + data.email.value + " already exists"));
        }
        ChangeEmail(id, data.email.value);
        user := users[id];
      }
      if data.fullName.Some? && data.fullName.value != "" {
        user := user.(fullName := data.fullName.value);
      }
      if data.isActive.Some? {
        user := user.(isActive := data.isActive.value);
      }
      Replace(id, user);
      r := Ok(Some(user));
    }

    /** `del email_index[old]; email_index[new] = id; user.email = new` for an unused e-mail. */
    method ChangeEmail(id: int, email: string)
      requires Valid() && id in users && email !in emailIndex
      modifies this
      ensures Valid() && nextId == old(nextId) && order == old(order)
      ensures users == old(users)[id := old(users[id]).(email := email)]
      ensures emailIndex == (old(emailIndex) - {old(users[id].email)})[email := id]
    {
      emailIndex := (emailIndex - {users[id].email})[email := id];
      users := users[id := users[id].(email := email)];
    }

    /** Stores a changed user under its id, keeping its id and e-mail. */
    method Replace(id: int, user: MockUser)
      requires Valid() && id in users && user.id == id && user.email == users[id].email
      modifies this
      ensures Valid() && nextId == old(nextId) && order == old(order) && emailIndex == old(emailIndex)
      ensures users == old(users)[id := user]
    {
      users := users[id := user];
    }

    /** `delete_user`: removes the user and its e-mail; False for a missing id. */
    method DeleteUser(id: int) returns (deleted: bool)
      requires Valid()
      modifies this
      ensures Valid() && nextId == old(nextId)
      ensures deleted == (id in old(users))
      ensures deleted ==>
        users == old(users) - {id} && emailIndex == old(emailIndex) - {old(users[id].email)}
        && order == Without(old(order), id)
      ensures !deleted ==> users == old(users) && emailIndex == old(emailIndex) && order == old(order)
    {
      if id !in users {
        return false;
      }
      emailIndex := emailIndex - {users[id].email};
      users := users - {id};
      WithoutDistinct(order, id);
      order := Without(order, id);
      deleted := true;
    }

    /** Sets a user's active flag; False for a missing id. */
    method SetActive(id: int, active: bool) returns (found: bool)
      requires Valid()
      modifies this
      ensures Valid() && nextId == old(nextId) && order == old(order) && emailIndex == old(emailIndex)
      ensures found == (id in old(users))
      ensures found ==> users == old(users)[id := old(users[id]).(isActive := active)]
      ensures !found ==> users == old(users)
    {
      if id !in users {
        return false;
      }
      Replace(id, users[id].(isActive := active));
      found := true;
    }

    /** `deactivate_user`. */
    method DeactivateUser(id: int) returns (found: bool)
      requires Valid()
      modifies this
      ensures Valid() && nextId == old(nextId) && order == old(order) && emailIndex == old(emailIndex)
      ensures found == (id in old(users))
      ensures found ==> users == old(users)[id := old(users[id]).(isActive := false)]
      ensures !found ==> users == old(users)
    {
      found := SetActive(id, false);
    }

    /** `activate_user`. */
    method ActivateUser(id: int) returns (found: bool)
      requires Valid()
      modifies this
      ensures Valid() && nextId == old(nextId) && order == old(order) && emailIndex == old(emailIndex)
      ensures found == (id in old(users))
      ensures found ==> users == old(users)[id := old(users[id]).(isActive := true)]
      ensures !found ==> users == old(users)
    {
      found := SetActive(id, true);
    }

    /** `clear_users`: empties the store and restarts ids at 1. */
    method ClearUsers()
      modifies this
      ensures Valid() && users == map[] && emailIndex == map[] && order == [] && nextId == 1
    {
      users := map[];
      emailIndex := map[];
      order := [];
      nextId := 1;
    }

    /**
     * `add_test_user`: builds a creation request with the fixed password
     * "test_password" (a name outside 1 to 100 characters fails validation
     * before the store is touched), creates the user, then sets the admin
     * flag on the stored user; its role stays the one it was built with.
     */
    method AddTestUser(email: string, fullName: string, isAdmin: bool) returns (r: Result<MockUser>)
      requires Valid()
      modifies this
      ensures Valid()
      ensures !(1 <= |fullName| <= MaxFieldLength) ==>
        r == Err(ValidationError("UserCreate"))
        && users == old(users) && emailIndex == old(emailIndex) && nextId == old(nextId) && order == old(order)
      ensures 1 <= |fullName| <= MaxFieldLength && old(email in emailIndex) ==>
        r == Err(ValueError("User with email " + email + " already exists"))
        && users == old(users) && emailIndex == old(emailIndex) && nextId == old(nextId) && order == old(order)
      ensures 1 <= |fullName| <= MaxFieldLength && !old(email in emailIndex) ==>
        r == Ok(NewUser(old(nextId), email, fullName, "mock_hashed_password", true, false).(isAdmin := isAdmin))
        && r.value.role == "user"
        && users == old(users)[old(nextId) := r.value]
        && emailIndex == old(emailIndex)[email := old(nextId)]
        && nextId == old(nextId) + 1 && order == old(order) + [old(nextId)]
      ensures r.Ok? ==> GetUserByEmail(email) == Some(r.value) && GetUserById(r.value.id) == Some(r.value)
    {
      var data := MakeUserCreate(email, "test_password", fullName);
      if data.Err? {
        return Err(data.error);
      }
      r := CreateUser(data.value);
      if r.Ok? {
        var u := r.value.(isAdmin := isAdmin);
        users := users[u.id := u];
        r := Ok(u);
      }
    }
  }
}
