/**
 * The user service's tables (model/user.go, model/address.go) as
 * `AutoMigrate` lays them out: users with an auto-increment key and unique
 * usernames and emails, and addresses with a string primary key and a
 * foreign key to their owner that cascades on delete. Both structs embed
 * `gorm.Model`, so deleting addresses through gorm only marks them deleted.
 * Tables are sequences of rows in insertion order. For users that is key
 * order, since their keys come from the auto-increment counter; address keys
 * are strings the client chooses, so the address table is not sorted by key.
 * `Preload` asks for no order, and the model returns a user's addresses in
 * insertion order.
 */
module UserModel {
  import opened Wrappers
  import opened Rpc
  import opened Decimal

  /** A row of the `users` table. */
  datatype User = User(
    id: nat,
    username: string,
    password: string,
    email: string,
    phone: string,
    isVip: bool,
    isDeleted: bool,
    vipLevel: string,
    createdAt: int,
    updatedAt: int)

  /**
   * A row of the `addresses` table. `deleted` is the soft-delete mark that
   * gorm keeps in the `deleted_at` column of the embedded `gorm.Model`.
   */
  datatype Address = Address(
    id: string,
    userId: nat,
    tag: string,          // the `Label` column: home, school, office and the like
    province: string,
    city: string,
    district: string,
    detail: string,
    deleted: bool)

  /** The columns of the `users` table; there is no `user_id` among them. */
  const UserColumns: set<string> :=
    {"id", "created_at", "updated_at", "deleted_at", "username", "password", "email", "phone",
     "is_vip", "is_deleted", "vip_level"}

  /**
   * Whether `u` satisfies `column = value`. The key is compared as a number,
   * the text columns as text; the remaining columns are never queried.
   */
  predicate Matches(u: User, column: string, value: string) {
    if column == "id" then ParseUint(value) == Ok(u.id)
    else if column == "username" then u.username == value
    else if column == "email" then u.email == value
    else if column == "phone" then u.phone == value
    else false
  }

  /** The first row, in key order, that satisfies `column = value`. */
  function FirstMatch(users: seq<User>, column: string, value: string): (r: Option<User>)
    ensures r.Some? ==> exists i :: 0 <= i < |users| && users[i] == r.value && Matches(users[i], column, value)
    ensures r.None? <==> forall i :: 0 <= i < |users| ==> !Matches(users[i], column, value)
  {
    if users == [] then None
    else if Matches(users[0], column, value) then Some(users[0])
    else
      var rest := FirstMatch(users[1..], column, value);
      assert forall i :: 1 <= i < |users| ==> users[i] == users[1..][i - 1];
      rest
  }

  /**
   * `Where(column + " = ?", value).First(&user)` on the users table: a
   * column the table lacks is a store error, no match is `ErrRecordNotFound`.
   */
  function UsersWhere(users: seq<User>, column: string, value: string): (r: Result<User, DbError>)
    ensures column !in UserColumns ==> r.Err? && r.error.Fault?
    ensures column in UserColumns ==> (r.Err? <==> forall i :: 0 <= i < |users| ==> !Matches(users[i], column, value))
    ensures column in UserColumns && r.Err? ==> r.error == RecordNotFound
    ensures r.Ok? ==> exists i :: 0 <= i < |users| && users[i] == r.value && Matches(users[i], column, value)
  {
    if column !in UserColumns then Err(Fault("Unknown column '" + column + "' in 'where clause'"))
    else
      match FirstMatch(users, column, value)
      case None => Err(RecordNotFound)
      case Some(u) => Ok(u)
  }

  predicate IsUserId(users: seq<User>, id: nat) {
    exists i :: 0 <= i < |users| && users[i].id == id
  }

  predicate UsernameTaken(users: seq<User>, name: string) {
    exists i :: 0 <= i < |users| && users[i].username == name
  }

  predicate EmailTaken(users: seq<User>, email: string) {
    exists i :: 0 <= i < |users| && users[i].email == email
  }

  /** Two rows in key order: increasing keys, different usernames, different emails. */
  predicate Ordered(a: User, b: User) {
    a.id < b.id && a.username != b.username && a.email != b.email
  }

  /** Every pair of rows, taken in table order, is related by `rel`. */
  ghost predicate Pairwise<T>(s: seq<T>, rel: (T, T) -> bool) {
    forall i, j :: 0 <= i < j < |s| ==> rel(s[i], s[j])
  }

  /**
   * The users table's constraints: keys below the auto-increment counter and
   * increasing in table order, usernames unique, emails unique (the empty
   * email included). Phones carry no constraint.
   */
  ghost predicate UsersWellFormed(users: seq<User>, nextId: nat) {
    && (forall i :: 0 <= i < |users| ==> 1 <= users[i].id < nextId)
    && Pairwise(users, Ordered)
  }

  predicate DifferentKeys(a: Address, b: Address) {
    a.id != b.id
  }

  /** The addresses table's constraints: unique keys, and every row, deleted or not, owned by a stored user. */
  ghost predicate AddressesWellFormed(rows: seq<Address>, users: seq<User>) {
    && Pairwise(rows, DifferentKeys)
    && (forall i :: 0 <= i < |rows| ==> IsUserId(users, rows[i].userId))
  }

  ghost predicate WellFormed(users: seq<User>, rows: seq<Address>, nextId: nat) {
    nextId >= 1 && UsersWellFormed(users, nextId) && AddressesWellFormed(rows, users)
  }

  /** Phones carry no constraint: two users may share one. */
  lemma SharedPhoneAllowed(phone: string)
    ensures var a := User(1, "alice", "pw", "a@example.com", phone, false, false, "", 0, 0);
      var b := User(2, "bob", "pw", "b@example.com", phone, false, false, "", 0, 0);
      UsersWellFormed([a, b], 3)
  {
  }

  /**
   * `Create(&user)`: the row gets the next key; a store fault or a username
   * or email that a unique index already holds refuses the insert.
   */
  function InsertUser(users: seq<User>, nextId: nat, u: User, fault: Option<string>): (r: Result<seq<User>, DbError>)
    ensures r.Ok? <==> fault.None? && !UsernameTaken(users, u.username) && !EmailTaken(users, u.email)
    ensures r.Ok? ==> r.value == users + [u.(id := nextId)]
  {
    if fault.Some? then Err(Fault(fault.value))
    else if UsernameTaken(users, u.username) then Err(DuplicateKey("username"))
    else if EmailTaken(users, u.email) then Err(DuplicateKey("email"))
    else Ok(users + [u.(id := nextId)])
  }

  /** A successful insert keeps the tables well formed and advances the counter. */
  lemma InsertUserKeepsWellFormed(users: seq<User>, rows: seq<Address>, nextId: nat, u: User, fault: Option<string>)
    requires WellFormed(users, rows, nextId)
    requires InsertUser(users, nextId, u, fault).Ok?
    ensures WellFormed(InsertUser(users, nextId, u, fault).value, rows, nextId + 1)
  {
    var users' := InsertUser(users, nextId, u, fault).value;
    forall i | 0 <= i < |rows|
      ensures IsUserId(users', rows[i].userId)
    {
      var k :| 0 <= k < |users| && users[k].id == rows[i].userId;
      assert users'[k] == users[k];
    }
  }

  predicate AddressIdTaken(rows: seq<Address>, id: string) {
    exists i :: 0 <= i < |rows| && rows[i].id == id
  }

  /**
   * `Create(&address)`: refused when the key is held by any row, a
   * soft-deleted one included, or when the owner is not a stored user.
   */
  function InsertAddress(rows: seq<Address>, users: seq<User>, a: Address): (r: Result<seq<Address>, DbError>)
    ensures r.Ok? <==> !AddressIdTaken(rows, a.id) && IsUserId(users, a.userId)
    ensures r.Ok? ==> r.value == rows + [a]
  {
    if AddressIdTaken(rows, a.id) then Err(DuplicateKey("PRIMARY"))
    else if !IsUserId(users, a.userId) then Err(ForeignKey("user_id"))
    else Ok(rows + [a])
  }

  lemma InsertAddressKeepsWellFormed(users: seq<User>, rows: seq<Address>, nextId: nat, a: Address)
    requires WellFormed(users, rows, nextId)
    requires InsertAddress(rows, users, a).Ok?
    ensures WellFormed(users, InsertAddress(rows, users, a).value, nextId)
  {
  }

  /**
   * `Where("user_id = ?", uid).Delete(&Address{})`: every row of `uid` is
   * marked deleted and stays in the table.
   */
  function SoftDeleteOwned(rows: seq<Address>, uid: nat): (r: seq<Address>)
    ensures |r| == |rows|
    ensures forall i :: 0 <= i < |rows| ==>
      r[i] == if rows[i].userId == uid then rows[i].(deleted := true) else rows[i]
  {
    if rows == [] then []
    else
      var last := rows[|rows| - 1];
      SoftDeleteOwned(rows[..|rows| - 1], uid) + [if last.userId == uid then last.(deleted := true) else last]
  }

  lemma SoftDeleteKeepsWellFormed(users: seq<User>, rows: seq<Address>, nextId: nat, uid: nat)
    requires WellFormed(users, rows, nextId)
    ensures WellFormed(users, SoftDeleteOwned(rows, uid), nextId)
  {
    var r := SoftDeleteOwned(rows, uid);
    assert forall i :: 0 <= i < |rows| ==> r[i].id == rows[i].id && r[i].userId == rows[i].userId;
  }

  /** The delete keeps every key: an id is held after it exactly when it was held before. */
  lemma SoftDeleteKeepsIds(rows: seq<Address>, uid: nat, id: string)
    ensures AddressIdTaken(SoftDeleteOwned(rows, uid), id) <==> AddressIdTaken(rows, id)
  {
    var r := SoftDeleteOwned(rows, uid);
    if AddressIdTaken(rows, id) {
      var n :| 0 <= n < |rows| && rows[n].id == id;
      assert r[n].id == id;
    }
    if AddressIdTaken(r, id) {
      var n :| 0 <= n < |r| && r[n].id == id;
      assert rows[n].id == id;
    }
  }

  /** The addresses of `uid` that are not deleted, in table order: what `Preload("Addresses")` reads. */
  function OwnedBy(rows: seq<Address>, uid: nat): seq<Address> {
    if rows == [] then []
    else
      var last := rows[|rows| - 1];
      OwnedBy(rows[..|rows| - 1], uid) + (if last.userId == uid && !last.deleted then [last] else [])
  }

  /** Every row `OwnedBy` returns is a live row of `uid` taken from the table. */
  lemma {:induction false} OwnedByRows(rows: seq<Address>, uid: nat)
    ensures forall a :: a in OwnedBy(rows, uid) ==> a in rows && a.userId == uid && !a.deleted
  {
    if rows != [] {
      OwnedByRows(rows[..|rows| - 1], uid);
    }
  }

  /** After the delete the user has no address left. */
  lemma {:induction false} SoftDeleteClearsBook(rows: seq<Address>, uid: nat)
    ensures OwnedBy(SoftDeleteOwned(rows, uid), uid) == []
  {
    if rows != [] {
      var front := rows[..|rows| - 1];
      assert SoftDeleteOwned(rows, uid)[..|rows| - 1] == SoftDeleteOwned(front, uid);
      SoftDeleteClearsBook(front, uid);
    }
  }

  /** The delete leaves every other user's addresses as they were. */
  lemma {:induction false} SoftDeleteSparesOthers(rows: seq<Address>, uid: nat, other: nat)
    requires other != uid
    ensures OwnedBy(SoftDeleteOwned(rows, uid), other) == OwnedBy(rows, other)
  {
    if rows != [] {
      var front := rows[..|rows| - 1];
      assert SoftDeleteOwned(rows, uid)[..|rows| - 1] == SoftDeleteOwned(front, uid);
      SoftDeleteSparesOthers(front, uid, other);
    }
  }

  /** The elements of `s` that `keep` accepts, in their order. */
  function Filter<T(!new)>(s: seq<T>, keep: T -> bool): (r: seq<T>)
    ensures forall x :: x in r <==> x in s && keep(x)
  {
    if s == [] then []
    else Filter(s[..|s| - 1], keep) + (if keep(s[|s| - 1]) then [s[|s| - 1]] else [])
  }

  /** Filtering keeps the order of what remains, so pairwise constraints survive it. */
  lemma {:induction false} FilterPairwise<T(!new)>(s: seq<T>, keep: T -> bool, rel: (T, T) -> bool)
    requires Pairwise(s, rel)
    ensures Pairwise(Filter(s, keep), rel)
  {
    if s != [] {
      var front := s[..|s| - 1];
      var last := s[|s| - 1];
      assert Pairwise(front, rel) by {
        assert forall i :: 0 <= i < |front| ==> front[i] == s[i];
      }
      FilterPairwise(front, keep, rel);
      var r := Filter(front, keep);
      if keep(last) {
        var all := r + [last];
        forall i, j | 0 <= i < j < |all|
          ensures rel(all[i], all[j])
        {
          assert all[i] == r[i];
          if j == |r| {
            assert r[i] in r;
            var k :| 0 <= k < |front| && front[k] == r[i];
            assert s[k] == r[i] && all[j] == s[|s| - 1];
          } else {
            assert all[j] == r[j];
          }
        }
      }
    }
  }

  /**
   * Removing the row of user `uid`; the `ON DELETE CASCADE` constraint
   * removes the addresses it owns, deleted or not, along with it.
   */
  function DeleteUser(users: seq<User>, rows: seq<Address>, uid: nat): (seq<User>, seq<Address>) {
    (Filter(users, (u: User) => u.id != uid), Filter(rows, (a: Address) => a.userId != uid))
  }

  /**
   * Deleting a user keeps the tables well formed, because the owned
   * addresses go with it, and leaves no row, live or deleted, owned by it.
   */
  lemma DeleteUserCascades(users: seq<User>, rows: seq<Address>, nextId: nat, uid: nat)
    requires WellFormed(users, rows, nextId)
    ensures WellFormed(DeleteUser(users, rows, uid).0, DeleteUser(users, rows, uid).1, nextId)
    ensures forall a :: a in DeleteUser(users, rows, uid).1 ==> a.userId != uid
  {
    var (users', rows') := DeleteUser(users, rows, uid);
    FilterPairwise(users, (u: User) => u.id != uid, Ordered);
    FilterPairwise(rows, (a: Address) => a.userId != uid, DifferentKeys);
    forall i | 0 <= i < |users'|
      ensures 1 <= users'[i].id < nextId
    {
      assert users'[i] in users';
    }
    forall i | 0 <= i < |rows'|
      ensures IsUserId(users', rows'[i].userId)
    {
      assert rows'[i] in rows';
      var n :| 0 <= n < |rows| && rows[n] == rows'[i];
      var k :| 0 <= k < |users| && users[k].id == rows[n].userId;
      assert users[k] in users';
      var m :| 0 <= m < |users'| && users'[m] == users[k];
    }
  }
}
