/**
 * The user service handlers (handler/user_handler.go): registration with its
 * ordered uniqueness checks, login, the cached profile read, and the
 * replacement of a user's address book. The tables and the Redis cache are
 * the fields of the service object; the clock and store faults are
 * parameters.
 */
module UserHandler {
  import opened Wrappers
  import opened Json
  import opened Rpc
  import opened Cache
  import opened Decimal
  import opened UserModel

  datatype RegisterRequest = RegisterRequest(username: string, password: string, email: string, phone: string)

  datatype RegisterResponse = RegisterResponse(success: bool, message: string, userId: string)

  datatype LoginRequest = LoginRequest(username: string, password: string)

  datatype LoginResponse = LoginResponse(token: string, userId: string)

  /** The `pb.Address` message. */
  datatype AddressInfo = AddressInfo(
    id: string,
    tag: string,
    province: string,
    city: string,
    district: string,
    detail: string)

  /** The `pb.UserInfo` message returned by `GetUserInfo` and kept in the cache. */
  datatype UserInfo = UserInfo(
    userId: string,
    username: string,
    email: string,
    phone: string,
    addresses: seq<AddressInfo>,
    isVip: bool,
    vipLevel: string,
    createdAt: int)

  datatype AddressBookRequest = AddressBookRequest(userId: string, addresses: seq<AddressInfo>)

  datatype GenericResponse = GenericResponse(success: bool, message: string)

  // ---------------------------------------------------------------------
  // The cached profile

  /** The cache key of a profile: the requested id text, as given. */
  function ProfileKey(userId: string): string {
    "user_info:" + userId
  }

  /** A profile stays in the cache for 24 hours. */
  const ProfileTtl: nat := 86400

  function AddressInfoJson(a: AddressInfo): Json {
    JObj(map["id" := JStr(a.id), "label" := JStr(a.tag), "province" := JStr(a.province),
             "city" := JStr(a.city), "district" := JStr(a.district), "detail" := JStr(a.detail)])
  }

  /** `json.Unmarshal` into a `pb.Address`; a `null` element reads as the empty address. */
  function DecodeAddressInfo(j: Json): Result<AddressInfo, DecodeError> {
    match j
    case JNull => Ok(AddressInfo("", "", "", "", "", ""))
    case JObj(ms) =>
      var id :- StringField(ms, "id");
      var tag :- StringField(ms, "label");
      var province :- StringField(ms, "province");
      var city :- StringField(ms, "city");
      var district :- StringField(ms, "district");
      var detail :- StringField(ms, "detail");
      Ok(AddressInfo(id, tag, province, city, district, detail))
    case _ => Err(WrongKind("Address"))
  }

  /** The naming members of an encoded address read back as the fields they were written from. */
  lemma EncodingHoldsAddressName(a: AddressInfo)
    ensures StringField(AddressInfoJson(a).members, "id") == Ok(a.id)
    ensures StringField(AddressInfoJson(a).members, "label") == Ok(a.tag)
    ensures StringField(AddressInfoJson(a).members, "detail") == Ok(a.detail)
  {
  }

  /** The place members of an encoded address read back as the fields they were written from. */
  lemma EncodingHoldsAddressPlace(a: AddressInfo)
    ensures StringField(AddressInfoJson(a).members, "province") == Ok(a.province)
    ensures StringField(AddressInfoJson(a).members, "city") == Ok(a.city)
    ensures StringField(AddressInfoJson(a).members, "district") == Ok(a.district)
  {
  }

  /** An encoded address decodes back to the same address. */
  lemma AddressInfoRoundTrip(a: AddressInfo)
    ensures DecodeAddressInfo(AddressInfoJson(a)) == Ok(a)
  {
    EncodingHoldsAddressName(a);
    EncodingHoldsAddressPlace(a);
    var ms := AddressInfoJson(a).members;
    assert DecodeAddressInfo(JObj(ms)) == Ok(a);
  }

  function AddressListJson(book: seq<AddressInfo>): seq<Json> {
    seq(|book|, i requires 0 <= i < |book| => AddressInfoJson(book[i]))
  }

  function DecodeAddressList(items: seq<Json>): Result<seq<AddressInfo>, DecodeError> {
    if items == [] then Ok([])
    else
      var first :- DecodeAddressInfo(items[0]);
      var rest :- DecodeAddressList(items[1..]);
      Ok([first] + rest)
  }

  /** An encoded address list decodes back to the same list. */
  lemma {:induction false} AddressListRoundTrip(book: seq<AddressInfo>)
    ensures DecodeAddressList(AddressListJson(book)) == Ok(book)
  {
    if book != [] {
      AddressInfoRoundTrip(book[0]);
      assert AddressListJson(book)[1..] == AddressListJson(book[1..]);
      AddressListRoundTrip(book[1..]);
      assert [book[0]] + book[1..] == book;
    }
  }

  function AddressListField(ms: map<string, Json>, key: string): Result<seq<AddressInfo>, DecodeError> {
    match Find(ms, key)
    case None => Ok([])
    case Some(JNull) => Ok([])
    case Some(JArr(items)) => DecodeAddressList(items)
    case Some(_) => Err(WrongKind(key))
  }

  /** `json.Marshal` of a `pb.UserInfo`. */
  function UserInfoJson(u: UserInfo): Json {
    JObj(map["user_id" := JStr(u.userId), "username" := JStr(u.username), "email" := JStr(u.email),
             "phone" := JStr(u.phone), "addresses" := JArr(AddressListJson(u.addresses)),
             "is_vip" := JBool(u.isVip), "vip_level" := JStr(u.vipLevel),
             "created_at" := TimestampJson(u.createdAt)])
  }

  /** `json.Unmarshal` into a `pb.UserInfo`. */
  function DecodeUserInfo(j: Json): Result<UserInfo, DecodeError> {
    match j
    case JNull => Ok(UserInfo("", "", "", "", [], false, "", 0))
    case JObj(ms) =>
      var userId :- StringField(ms, "user_id");
      var username :- StringField(ms, "username");
      var email :- StringField(ms, "email");
      var phone :- StringField(ms, "phone");
      var addresses :- AddressListField(ms, "addresses");
      var isVip :- BoolField(ms, "is_vip");
      var vipLevel :- StringField(ms, "vip_level");
      var createdAt :- TimestampField(ms, "created_at");
      Ok(UserInfo(userId, username, email, phone, addresses, isVip, vipLevel, createdAt))
    case _ => Err(WrongKind("UserInfo"))
  }

  /** The members a profile is written to, each holding what `Unmarshal` reads back as field `u`. */
  predicate HoldsUserInfo(ms: map<string, Json>, u: UserInfo) {
    && StringField(ms, "user_id") == Ok(u.userId)
    && StringField(ms, "username") == Ok(u.username)
    && StringField(ms, "email") == Ok(u.email)
    && StringField(ms, "phone") == Ok(u.phone)
    && AddressListField(ms, "addresses") == Ok(u.addresses)
    && BoolField(ms, "is_vip") == Ok(u.isVip)
    && StringField(ms, "vip_level") == Ok(u.vipLevel)
    && TimestampField(ms, "created_at") == Ok(u.createdAt)
  }

  /** An object whose members hold every field of `u` decodes to `u`, whatever else it holds. */
  lemma DecodeHeldUserInfo(ms: map<string, Json>, u: UserInfo)
    requires HoldsUserInfo(ms, u)
    ensures DecodeUserInfo(JObj(ms)) == Ok(u)
  {
  }

  /** The identity members of an encoded profile read back as the fields they were written from. */
  lemma EncodingHoldsUserIdentity(u: UserInfo)
    ensures StringField(UserInfoJson(u).members, "user_id") == Ok(u.userId)
    ensures StringField(UserInfoJson(u).members, "username") == Ok(u.username)
    ensures StringField(UserInfoJson(u).members, "email") == Ok(u.email)
    ensures StringField(UserInfoJson(u).members, "phone") == Ok(u.phone)
  {
  }

  /** The remaining members of an encoded profile read back as the fields they were written from. */
  lemma EncodingHoldsUserDetails(u: UserInfo)
    ensures AddressListField(UserInfoJson(u).members, "addresses") == Ok(u.addresses)
    ensures BoolField(UserInfoJson(u).members, "is_vip") == Ok(u.isVip)
    ensures StringField(UserInfoJson(u).members, "vip_level") == Ok(u.vipLevel)
    ensures TimestampField(UserInfoJson(u).members, "created_at") == Ok(u.createdAt)
  {
    AddressListRoundTrip(u.addresses);
    TimestampReadsBack(UserInfoJson(u).members, "created_at", u.createdAt);
  }

  /** What `GetUserInfo` writes to the cache decodes back to the same profile. */
  lemma UserInfoRoundTrip(u: UserInfo)
    ensures DecodeUserInfo(UserInfoJson(u)) == Ok(u)
  {
    EncodingHoldsUserIdentity(u);
    EncodingHoldsUserDetails(u);
    DecodeHeldUserInfo(UserInfoJson(u).members, u);
  }

  /** The `pb.Address` built from a stored address. */
  function Info(a: Address): AddressInfo {
    AddressInfo(a.id, a.tag, a.province, a.city, a.district, a.detail)
  }

  /** The messages of a list of stored addresses, in order. */
  function Infos(rows: seq<Address>): (r: seq<AddressInfo>)
    ensures |r| == |rows|
    ensures forall i :: 0 <= i < |rows| ==> r[i] == Info(rows[i])
  {
    if rows == [] then [] else Infos(rows[..|rows| - 1]) + [Info(rows[|rows| - 1])]
  }

  /** The profile of a stored user with the given address list. */
  function Profile(u: User, book: seq<AddressInfo>): UserInfo {
    UserInfo(FormatUint(u.id), u.username, u.email, u.phone, book, u.isVip, u.vipLevel, u.createdAt)
  }

  // ---------------------------------------------------------------------
  // Registration and login

  predicate PhoneTaken(users: seq<User>, phone: string) {
    exists i :: 0 <= i < |users| && users[i].phone == phone
  }

  /** The row `RegisterUser` builds from the request: default flags, no VIP level, created and updated now. */
  function NewUser(req: RegisterRequest, now: int): User {
    User(0, req.username, req.password, req.email, req.phone, false, false, "", now, now)
  }

  /** The registration checks query existing columns, so each finds a row exactly when one has the value. */
  lemma RegistrationQueries(users: seq<User>, req: RegisterRequest)
    ensures UsersWhere(users, "username", req.username).Ok? <==> UsernameTaken(users, req.username)
    ensures UsersWhere(users, "email", req.email).Ok? <==> EmailTaken(users, req.email)
    ensures UsersWhere(users, "phone", req.phone).Ok? <==> PhoneTaken(users, req.phone)
  {
    assert "username" in UserColumns && "email" in UserColumns && "phone" in UserColumns;
  }

  /**
   * Phones carry no unique index: when the phone check's query fails, a
   * request with fresh credentials and a phone already in use is inserted,
   * and the table then holds two users with that phone.
   */
  lemma SkippedPhoneCheckStoresDuplicate(users: seq<User>, nextId: nat, req: RegisterRequest, now: int)
    requires PhoneTaken(users, req.phone)
    requires !UsernameTaken(users, req.username) && !EmailTaken(users, req.email)
    ensures InsertUser(users, nextId, NewUser(req, now), None).Ok?
    ensures var t := InsertUser(users, nextId, NewUser(req, now), None).value;
      exists i, j :: 0 <= i < j < |t| && t[i].phone == req.phone && t[j].phone == req.phone
  {
    var t := InsertUser(users, nextId, NewUser(req, now), None).value;
    var i :| 0 <= i < |users| && users[i].phone == req.phone;
    assert t[i] == users[i] && t[|users|].phone == req.phone;
  }

  /**
   * When the username check's query fails and the name is taken, the
   * request reaches the insert and the unique index refuses it.
   */
  lemma SkippedNameCheckRefusedByIndex(users: seq<User>, nextId: nat, req: RegisterRequest, now: int)
    requires UsernameTaken(users, req.username)
    ensures InsertUser(users, nextId, NewUser(req, now), None) == Err(DuplicateKey("username"))
  {
  }

  /** `Where("username = ? AND password = ?", name, password).First(&user)`. */
  function FirstWithCredentials(users: seq<User>, name: string, password: string): (r: Option<User>)
    ensures r.Some? ==> r.value in users && r.value.username == name && r.value.password == password
    ensures r.None? <==> forall i :: 0 <= i < |users| ==> users[i].username != name || users[i].password != password
  {
    if users == [] then None
    else if users[0].username == name && users[0].password == password then Some(users[0])
    else
      var rest := FirstWithCredentials(users[1..], name, password);
      assert forall i :: 1 <= i < |users| ==> users[i] == users[1..][i - 1];
      rest
  }

  /** A user appended under a fresh username is found by its own credentials. */
  lemma {:induction false} RegisteredUserLogsIn(users: seq<User>, u: User)
    requires !UsernameTaken(users, u.username)
    ensures FirstWithCredentials(users + [u], u.username, u.password) == Some(u)
  {
    if users != [] {
      assert (users + [u])[1..] == users[1..] + [u];
      assert !UsernameTaken(users[1..], u.username) by {
        assert forall i :: 0 <= i < |users[1..]| ==> users[1..][i] == users[i + 1];
      }
      RegisteredUserLogsIn(users[1..], u);
    }
  }

  // ---------------------------------------------------------------------
  // The address book

  /** Whose id a new address row carries. */
  datatype NewRowOwner = OwnerUnset | OwnerRequester

  /** The owner column of a new row: Go's zero value when the field is left unset. */
  function OwnerId(owner: NewRowOwner, uid: nat): nat {
    if owner == OwnerUnset then 0 else uid
  }

  /** The row inserted for a requested address. */
  function NewRow(item: AddressInfo, ownerId: nat): Address {
    Address(item.id, ownerId, item.tag, item.province, item.city, item.district, item.detail, false)
  }

  /**
   * Inserting the requested addresses one after another, each error being
   * ignored; `faults` holds the positions whose insert fails for a reason the
   * model does not see.
   */
  function InsertEach(rows: seq<Address>, users: seq<User>, ownerId: nat, items: seq<AddressInfo>, faults: set<nat>): seq<Address>
  {
    if items == [] then rows
    else
      var prev := InsertEach(rows, users, ownerId, items[..|items| - 1], faults);
      var k := |items| - 1;
      if k in faults then prev
      else match InsertAddress(prev, users, NewRow(items[k], ownerId))
        case Ok(next) => next
        case Err(_) => prev
  }

  /** One more request is inserted on top of the table the earlier ones left, unless its insert fails. */
  lemma InsertEachSnoc(rows: seq<Address>, users: seq<User>, ownerId: nat, items: seq<AddressInfo>,
                       x: AddressInfo, faults: set<nat>)
    ensures var prev := InsertEach(rows, users, ownerId, items, faults);
      var inserted := InsertAddress(prev, users, NewRow(x, ownerId));
      InsertEach(rows, users, ownerId, items + [x], faults)
        == if |items| !in faults && inserted.Ok? then inserted.value else prev
  {
    assert (items + [x])[..|items|] == items;
  }

  /** The addresses table after the old book of `uid` is deleted and the new one inserted. */
  function Rebuilt(rows: seq<Address>, users: seq<User>, uid: nat, ownerId: nat, items: seq<AddressInfo>, faults: set<nat>): seq<Address> {
    InsertEach(SoftDeleteOwned(rows, uid), users, ownerId, items, faults)
  }

  /** The requested addresses whose insert does not fail, in request order. */
  function Surviving(items: seq<AddressInfo>, faults: set<nat>): (r: seq<AddressInfo>)
    ensures forall x :: x in r ==> x in items
  {
    if items == [] then []
    else Surviving(items[..|items| - 1], faults) + (if |items| - 1 in faults then [] else [items[|items| - 1]])
  }

  /** The rows inserted for a list of requested addresses. */
  function NewRows(items: seq<AddressInfo>, ownerId: nat): (r: seq<Address>)
    ensures |r| == |items|
    ensures forall i :: 0 <= i < |items| ==> r[i] == NewRow(items[i], ownerId)
  {
    if items == [] then [] else NewRows(items[..|items| - 1], ownerId) + [NewRow(items[|items| - 1], ownerId)]
  }

  /** With no stored user 0, a row whose owner is left unset is refused by the foreign key. */
  lemma {:induction false} UnsetOwnerInsertsNothing(rows: seq<Address>, users: seq<User>, items: seq<AddressInfo>, faults: set<nat>)
    requires forall i :: 0 <= i < |users| ==> users[i].id >= 1
    ensures InsertEach(rows, users, 0, items, faults) == rows
  {
    if items != [] {
      UnsetOwnerInsertsNothing(rows, users, items[..|items| - 1], faults);
    }
  }

  /**
   * As written, the new rows carry no owner: whatever is requested, the user
   * is left with no address at all.
   */
  lemma UnsetOwnerEmptiesBook(users: seq<User>, rows: seq<Address>, nextId: nat, uid: nat,
                              items: seq<AddressInfo>, faults: set<nat>)
    requires WellFormed(users, rows, nextId)
    ensures OwnedBy(Rebuilt(rows, users, uid, OwnerId(OwnerUnset, uid), items, faults), uid) == []
  {
    UnsetOwnerInsertsNothing(SoftDeleteOwned(rows, uid), users, items, faults);
    SoftDeleteClearsBook(rows, uid);
  }

  /** Requested ids that are pairwise different. */
  ghost predicate DistinctIds(items: seq<AddressInfo>) {
    forall i, j :: 0 <= i < j < |items| ==> items[i].id != items[j].id
  }

  /** An id held neither by the table nor by any appended request stays free. */
  lemma FreeAfterNewRows(rows: seq<Address>, kept: seq<AddressInfo>, uid: nat, id: string)
    requires !AddressIdTaken(rows, id)
    requires forall y :: y in kept ==> y.id != id
    ensures !AddressIdTaken(rows + NewRows(kept, uid), id)
  {
    var all := rows + NewRows(kept, uid);
    forall i | 0 <= i < |all|
      ensures all[i].id != id
    {
      if i >= |rows| {
        assert all[i] == NewRow(kept[i - |rows|], uid);
        assert kept[i - |rows|] in kept;
      }
    }
  }

  /** Appending one request appends one row. */
  lemma NewRowsSnoc(kept: seq<AddressInfo>, x: AddressInfo, uid: nat)
    ensures NewRows(kept + [x], uid) == NewRows(kept, uid) + [NewRow(x, uid)]
  {
    assert (kept + [x])[..|kept|] == kept;
  }

  /** The requests before the last one keep the distinct, fresh ids, and none of them reaches the last one's id. */
  lemma FrontOfFresh(rows: seq<Address>, items: seq<AddressInfo>, front: seq<AddressInfo>, faults: set<nat>)
    requires items != [] && front == items[..|items| - 1] && DistinctIds(items)
    requires forall i :: 0 <= i < |items| ==> !AddressIdTaken(rows, items[i].id)
    ensures DistinctIds(front)
    ensures forall i :: 0 <= i < |front| ==> !AddressIdTaken(rows, front[i].id)
    ensures forall y :: y in Surviving(front, faults) ==> y.id != items[|items| - 1].id
  {
    assert forall i :: 0 <= i < |front| ==> front[i] == items[i];
    forall y | y in Surviving(front, faults)
      ensures y.id != items[|items| - 1].id
    {
      var m :| 0 <= m < |front| && front[m] == y;
    }
  }

  /** Inserts of fresh, distinct ids for a stored owner all succeed except the faulty ones. */
  lemma {:induction false} FreshInsertsAppend(rows: seq<Address>, users: seq<User>, uid: nat,
                                              items: seq<AddressInfo>, faults: set<nat>)
    requires IsUserId(users, uid)
    requires DistinctIds(items)
    requires forall i :: 0 <= i < |items| ==> !AddressIdTaken(rows, items[i].id)
    ensures InsertEach(rows, users, uid, items, faults) == rows + NewRows(Surviving(items, faults), uid)
  {
    if items != [] {
      var front := items[..|items| - 1];
      var x := items[|items| - 1];
      FrontOfFresh(rows, items, front, faults);
      FreshInsertsAppend(rows, users, uid, front, faults);
      var kept := Surviving(front, faults);
      var prev := rows + NewRows(kept, uid);
      if |items| - 1 !in faults {
        FreeAfterNewRows(rows, kept, uid, x.id);
        assert InsertAddress(prev, users, NewRow(x, uid)) == Ok(prev + [NewRow(x, uid)]);
        NewRowsSnoc(kept, x, uid);
      }
    }
  }

  lemma {:induction false} OwnedByAppend(rows: seq<Address>, more: seq<Address>, uid: nat)
    ensures OwnedBy(rows + more, uid) == OwnedBy(rows, uid) + OwnedBy(more, uid)
  {
    if more == [] {
      assert rows + more == rows;
    } else {
      var front := more[..|more| - 1];
      var last := more[|more| - 1];
      assert (rows + more)[..|rows + more| - 1] == rows + front;
      assert (rows + more)[|rows + more| - 1] == last;
      OwnedByAppend(rows, front, uid);
    }
  }

  lemma {:induction false} NewRowsOwned(items: seq<AddressInfo>, uid: nat)
    ensures Infos(OwnedBy(NewRows(items, uid), uid)) == items
  {
    if items != [] {
      var front := items[..|items| - 1];
      NewRowsOwned(front, uid);
      assert NewRows(items, uid)[..|items| - 1] == NewRows(front, uid);
      assert OwnedBy(NewRows(items, uid), uid) == OwnedBy(NewRows(front, uid), uid) + [NewRow(items[|items| - 1], uid)];
      assert items == front + [items[|items| - 1]];
    }
  }

  /**
   * With the owner set, the user's book after the update is exactly the
   * requested addresses whose insert succeeded, in request order, provided
   * the requested ids are distinct and held by no row, deleted or not.
   */
  lemma RequesterGetsRequestedBook(users: seq<User>, rows: seq<Address>, uid: nat,
                                   items: seq<AddressInfo>, faults: set<nat>)
    requires IsUserId(users, uid)
    requires DistinctIds(items)
    requires forall i :: 0 <= i < |items| ==> !AddressIdTaken(rows, items[i].id)
    ensures Infos(OwnedBy(Rebuilt(rows, users, uid, OwnerId(OwnerRequester, uid), items, faults), uid))
            == Surviving(items, faults)
  {
    var cleared := SoftDeleteOwned(rows, uid);
    forall i | 0 <= i < |items|
      ensures !AddressIdTaken(cleared, items[i].id)
    {
      SoftDeleteKeepsIds(rows, uid, items[i].id);
    }
    var added := NewRows(Surviving(items, faults), uid);
    FreshInsertsAppend(cleared, users, uid, items, faults);
    assert Rebuilt(rows, users, uid, OwnerId(OwnerRequester, uid), items, faults) == cleared + added;
    OwnedByAppend(cleared, added, uid);
    SoftDeleteClearsBook(rows, uid);
    assert OwnedBy(cleared + added, uid) == OwnedBy(added, uid);
    NewRowsOwned(Surviving(items, faults), uid);
  }

  /** Inserts of ids the table already holds all fail. */
  lemma {:induction false} TakenInsertsFail(rows: seq<Address>, users: seq<User>, ownerId: nat,
                                            items: seq<AddressInfo>, faults: set<nat>)
    requires forall i :: 0 <= i < |items| ==> AddressIdTaken(rows, items[i].id)
    ensures InsertEach(rows, users, ownerId, items, faults) == rows
  {
    if items != [] {
      assert forall i :: 0 <= i < |items| - 1 ==> items[..|items| - 1][i] == items[i];
      TakenInsertsFail(rows, users, ownerId, items[..|items| - 1], faults);
    }
  }

  /**
   * Deleted addresses keep their keys: sending back ids the table already
   * holds, such as the user's current book, leaves the user with no address.
   */
  lemma ResubmittedBookEmpties(users: seq<User>, rows: seq<Address>, uid: nat, ownerId: nat,
                               items: seq<AddressInfo>, faults: set<nat>)
    requires forall i :: 0 <= i < |items| ==> AddressIdTaken(rows, items[i].id)
    ensures OwnedBy(Rebuilt(rows, users, uid, ownerId, items, faults), uid) == []
  {
    var cleared := SoftDeleteOwned(rows, uid);
    forall i | 0 <= i < |items|
      ensures AddressIdTaken(cleared, items[i].id)
    {
      SoftDeleteKeepsIds(rows, uid, items[i].id);
    }
    TakenInsertsFail(cleared, users, ownerId, items, faults);
    SoftDeleteClearsBook(rows, uid);
  }

  lemma SurvivingSkipsSecond(a: AddressInfo, b: AddressInfo, c: AddressInfo)
    ensures Surviving([a, b, c], {1}) == [a, c]
  {
    assert [a, b, c][..2] == [a, b] && [a, b][..1] == [a] && [a][..0] == [];
    assert Surviving([a], {1}) == [a];
    assert Surviving([a, b], {1}) == [a];
  }

  /**
   * The inserts are not one transaction: when the second of three fresh
   * addresses fails to insert, the first and the third still make up the
   * user's book.
   */
  lemma SecondOfThreeFails(users: seq<User>, rows: seq<Address>, uid: nat, a: AddressInfo, b: AddressInfo, c: AddressInfo)
    requires IsUserId(users, uid)
    requires a.id != b.id && a.id != c.id && b.id != c.id
    requires !AddressIdTaken(rows, a.id) && !AddressIdTaken(rows, b.id) && !AddressIdTaken(rows, c.id)
    ensures Infos(OwnedBy(Rebuilt(rows, users, uid, OwnerId(OwnerRequester, uid), [a, b, c], {1}), uid)) == [a, c]
  {
    var items := [a, b, c];
    forall i | 0 <= i < |items|
      ensures !AddressIdTaken(rows, items[i].id)
    {
      if i == 0 {} else if i == 1 {}
    }
    RequesterGetsRequestedBook(users, rows, uid, items, {1});
    SurvivingSkipsSecond(a, b, c);
  }

  /** The profile a cache read yields: a hit holding a JSON text that decodes as a `UserInfo`. */
  function CachedProfile(cache: map<string, Entry>, online: bool, key: string, now: int): (p: Option<UserInfo>)
    ensures p.Some? <==> Get(cache, online, key, now).Hit? && Get(cache, online, key, now).value.Doc?
                         && DecodeUserInfo(Get(cache, online, key, now).value.doc).Ok?
    ensures p.Some? ==> p.value == DecodeUserInfo(cache[key].value.doc).value
  {
    match Get(cache, online, key, now)
    case Hit(Doc(doc)) => (match DecodeUserInfo(doc) case Ok(u) => Some(u) case Err(_) => None)
    case _ => None
  }

  // ---------------------------------------------------------------------
  // The service

  class UserService {
    /** The `users` and `addresses` tables, in insertion order, and the next auto-increment key. */
    var users: seq<User>
    var addresses: seq<Address>
    var nextId: nat
    /** The Redis entries and whether Redis answers. */
    var cache: map<string, Entry>
    var cacheOnline: bool

    ghost predicate Valid()
      reads this
    {
      WellFormed(users, addresses, nextId)
    }

    constructor()
      ensures Valid() && users == [] && addresses == [] && cache == map[] && cacheOnline
    {
      users := [];
      addresses := [];
      nextId := 1;
      cache := map[];
      cacheOnline := true;
    }

    /**
     * `RegisterUser`: the username, then the email, then the phone is
     * checked, and the first check whose query finds a row answers with a
     * failure and stores nothing. A check counts only when its query
     * succeeds: `checkFaults` names the columns whose query fails, and such a
     * check is passed over as though no row had the value. Then the user is
     * inserted with default flags; a failed insert, such as one a unique
     * index refuses after its check was passed over, is reported in the
     * response, not as an error.
     */
    method RegisterUser(req: RegisterRequest, now: int, checkFaults: set<string>, fault: Option<string>)
      returns (r: RegisterResponse)
      requires Valid()
      modifies this`users, this`nextId
      ensures Valid()
      ensures "username" !in checkFaults && UsernameTaken(old(users), req.username) ==>
        r == RegisterResponse(false, "Username already exists!", "") && users == old(users)
      ensures !("username" !in checkFaults && UsernameTaken(old(users), req.username))
              && "email" !in checkFaults && EmailTaken(old(users), req.email) ==>
        r == RegisterResponse(false, "Email already exists!", "") && users == old(users)
      ensures !("username" !in checkFaults && UsernameTaken(old(users), req.username))
              && !("email" !in checkFaults && EmailTaken(old(users), req.email))
              && "phone" !in checkFaults && PhoneTaken(old(users), req.phone) ==>
        r == RegisterResponse(false, "Phone already exists!", "") && users == old(users)
      ensures !("username" !in checkFaults && UsernameTaken(old(users), req.username))
              && !("email" !in checkFaults && EmailTaken(old(users), req.email))
              && !("phone" !in checkFaults && PhoneTaken(old(users), req.phone))
              && InsertUser(old(users), old(nextId), NewUser(req, now), fault).Err? ==>
        && r == RegisterResponse(false, "Register failed:" + DbMessage(InsertUser(old(users), old(nextId), NewUser(req, now), fault).error), "")
        && users == old(users)
      ensures r.success <==>
        && !("username" !in checkFaults && UsernameTaken(old(users), req.username))
        && !("email" !in checkFaults && EmailTaken(old(users), req.email))
        && !("phone" !in checkFaults && PhoneTaken(old(users), req.phone))
        && fault.None? && !UsernameTaken(old(users), req.username) && !EmailTaken(old(users), req.email)
      ensures r.success ==>
        && r == RegisterResponse(true, "Register success!", FormatUint(old(nextId)))
        && users == old(users) + [NewUser(req, now).(id := old(nextId))]
    {
      RegistrationQueries(users, req);
      var user := NewUser(req, now);
      // the transaction begun here is left open on this path
      if "username" !in checkFaults && UsersWhere(users, "username", req.username).Ok? {
        return RegisterResponse(false, "Username already exists!", "");
      }
      if "email" !in checkFaults && UsersWhere(users, "email", req.email).Ok? {
        return RegisterResponse(false, "Email already exists!", "");
      }
      if "phone" !in checkFaults && UsersWhere(users, "phone", req.phone).Ok? {
        return RegisterResponse(false, "Phone already exists!", "");
      }
      var inserted := InsertUser(users, nextId, user, fault);
      if inserted.Err? {
        return RegisterResponse(false, "Register failed:" + DbMessage(inserted.error), "");
      }
      InsertUserKeepsWellFormed(users, addresses, nextId, user, fault);
      var id := nextId;
      users := inserted.value;
      nextId := nextId + 1;
      r := RegisterResponse(true, "Register success!", FormatUint(id));
    }

    /**
     * `LoginUser`: the first user with both the username and the password;
     * an unknown name, a wrong password and a store fault give the same
     * error.
     */
    method LoginUser(req: LoginRequest, fault: Option<string>) returns (r: Result<LoginResponse, Error>)
      ensures fault.Some? || FirstWithCredentials(users, req.username, req.password).None? ==>
        r == Err(Status(Unauthenticated, "username/password error"))
      ensures fault.None? && FirstWithCredentials(users, req.username, req.password).Some? ==>
        var id := FormatUint(FirstWithCredentials(users, req.username, req.password).value.id);
        r == Ok(LoginResponse("fake-jwt-token-" + id, id))
    {
      var found := FirstWithCredentials(users, req.username, req.password);
      if fault.Some? || found.None? {
        return Err(Status(Unauthenticated, "username/password error"));
      }
      var user := found.value;
      var token := "fake-jwt-token-" + FormatUint(user.id);
      r := Ok(LoginResponse(token, FormatUint(user.id)));
    }

    /**
     * `GetUserInfo`: a cached profile that decodes is returned without
     * reading the store; a cache miss, an undecodable entry or a cache error
     * falls through to the store. Any store error is NotFound. Otherwise the
     * user's live addresses are copied in order, and the profile is cached
     * for 24 hours and returned.
     */
    method GetUserInfo(userId: string, now: int, fault: Option<string>) returns (r: Result<UserInfo, Error>)
      modifies this`cache
      ensures CachedProfile(old(cache), cacheOnline, ProfileKey(userId), now).Some? ==>
        r == Ok(CachedProfile(old(cache), cacheOnline, ProfileKey(userId), now).value) && cache == old(cache)
      ensures CachedProfile(old(cache), cacheOnline, ProfileKey(userId), now).None?
              && (fault.Some? || UsersWhere(users, "id", userId).Err?) ==>
        r == Err(Status(NotFound, "user is NOT FOUND!")) && cache == old(cache)
      ensures CachedProfile(old(cache), cacheOnline, ProfileKey(userId), now).None?
              && fault.None? && UsersWhere(users, "id", userId).Ok? ==>
        var u := UsersWhere(users, "id", userId).value;
        && r == Ok(Profile(u, Infos(OwnedBy(addresses, u.id))))
        && cache == if cacheOnline then old(cache)[ProfileKey(userId) := Entry(Doc(UserInfoJson(r.value)), Some(now + ProfileTtl))]
                    else old(cache)
    {
      var key := ProfileKey(userId);
      var reply := Get(cache, cacheOnline, key, now);
      if reply.Hit? && reply.value.Doc? {
        var decoded := DecodeUserInfo(reply.value.doc);
        if decoded.Ok? {
          return Ok(decoded.value);
        }
      }
      if fault.Some? {
        return Err(Status(NotFound, "user is NOT FOUND!"));
      }
      var found := UsersWhere(users, "id", userId);
      if found.Err? {
        return Err(Status(NotFound, "user is NOT FOUND!"));
      }
      var user := found.value;
      var owned := OwnedBy(addresses, user.id);
      var book: seq<AddressInfo> := [];
      var i := 0;
      while i < |owned|
        invariant 0 <= i <= |owned|
        invariant book == Infos(owned[..i])
      {
        assert owned[..i + 1][..i] == owned[..i];
        book := book + [Info(owned[i])];
        i := i + 1;
      }
      assert owned[..i] == owned;
      var info := Profile(user, book);
      if cacheOnline {
        cache := Put(cache, key, Doc(UserInfoJson(info)), ProfileTtl, now);
      }
      r := Ok(info);
    }

    /**
     * The body of `UpdateAddressBook`, for a lookup column and an owner of
     * the new rows: an unknown user is NotFound and nothing is deleted; a
     * failed delete is Internal; otherwise the user's old addresses are
     * deleted, the requested ones inserted in order with every insert error
     * ignored, and success is reported.
     */
    method ReplaceAddresses(column: string, owner: NewRowOwner, req: AddressBookRequest,
                            deleteFault: bool, faults: set<nat>) returns (r: Result<GenericResponse, Error>)
      requires Valid()
      modifies this`addresses
      ensures Valid()
      ensures UsersWhere(users, column, req.userId).Err? ==>
        r == Err(Status(NotFound, "user is NOT FOUND!")) && addresses == old(addresses)
      ensures UsersWhere(users, column, req.userId).Ok? && deleteFault ==>
        r == Err(Status(Internal, "clear old address Failed!")) && addresses == old(addresses)
      ensures UsersWhere(users, column, req.userId).Ok? && !deleteFault ==>
        var uid := UsersWhere(users, column, req.userId).value.id;
        && r == Ok(GenericResponse(true, "AddressBook update success!"))
        && addresses == Rebuilt(old(addresses), users, uid, OwnerId(owner, uid), req.addresses, faults)
    {
      var found := UsersWhere(users, column, req.userId);
      if found.Err? {
        return Err(Status(NotFound, "user is NOT FOUND!"));
      }
      var user := found.value;
      if deleteFault {
        return Err(Status(Internal, "clear old address Failed!"));
      }
      SoftDeleteKeepsWellFormed(users, addresses, nextId, user.id);
      addresses := SoftDeleteOwned(addresses, user.id);
      ghost var cleared := addresses;
      var ownerId := OwnerId(owner, user.id);
      var i := 0;
      while i < |req.addresses|
        invariant 0 <= i <= |req.addresses|
        invariant Valid()
        invariant addresses == InsertEach(cleared, users, ownerId, req.addresses[..i], faults)
      {
        assert req.addresses[..i + 1] == req.addresses[..i] + [req.addresses[i]];
        InsertEachSnoc(cleared, users, ownerId, req.addresses[..i], req.addresses[i], faults);
        var newAddr := NewRow(req.addresses[i], ownerId);
        if i !in faults {
          var inserted := InsertAddress(addresses, users, newAddr);
          if inserted.Ok? {
            InsertAddressKeepsWellFormed(users, addresses, nextId, newAddr);
            addresses := inserted.value;
          }
        }
        i := i + 1;
      }
      assert req.addresses[..i] == req.addresses;
      r := Ok(GenericResponse(true, "AddressBook update success!"));
    }

    /**
     * `UpdateAddressBook` as written: the user is looked up by a `user_id`
     * column that the users table does not have, so the query fails and
     * every request is answered NotFound with nothing changed.
     */
    method UpdateAddressBook(req: AddressBookRequest, deleteFault: bool, faults: set<nat>)
      returns (r: Result<GenericResponse, Error>)
      requires Valid()
      modifies this`addresses
      ensures Valid()
      ensures r == Err(Status(NotFound, "user is NOT FOUND!")) && addresses == old(addresses)
    {
      r := ReplaceAddresses("user_id", OwnerUnset, req, deleteFault, faults);
    }

    /**
     * `UpdateAddressBook` as intended: the user is looked up by key and the
     * new rows carry the user's id.
     */
    method UpdateAddressBookIntended(req: AddressBookRequest, deleteFault: bool, faults: set<nat>)
      returns (r: Result<GenericResponse, Error>)
      requires Valid()
      modifies this`addresses
      ensures Valid()
      ensures UsersWhere(users, "id", req.userId).Err? ==>
        r == Err(Status(NotFound, "user is NOT FOUND!")) && addresses == old(addresses)
      ensures UsersWhere(users, "id", req.userId).Ok? && deleteFault ==>
        r == Err(Status(Internal, "clear old address Failed!")) && addresses == old(addresses)
      ensures UsersWhere(users, "id", req.userId).Ok? && !deleteFault ==>
        var uid := UsersWhere(users, "id", req.userId).value.id;
        && r == Ok(GenericResponse(true, "AddressBook update success!"))
        && addresses == Rebuilt(old(addresses), users, uid, uid, req.addresses, faults)
    {
      r := ReplaceAddresses("id", OwnerRequester, req, deleteFault, faults);
    }
  }

  /**
   * The address book update does not touch the cache: a profile read before
   * the update is what the next read returns until it expires, whatever the
   * new book holds.
   */
  method ProfileStaysStale(s: UserService, req: AddressBookRequest, now: int, later: int)
    requires s.Valid() && s.cacheOnline && ProfileKey(req.userId) !in s.cache
    requires now <= later < now + ProfileTtl
    modifies s
  {
    var before := FillProfile(s, req.userId, now);
    if before.Ok? {
      ghost var filled := s.cache;
      var _ := s.UpdateAddressBookIntended(req, false, {});
      assert s.cache == filled;
      UserInfoRoundTrip(before.value);
      var after := s.GetUserInfo(req.userId, later, None);
      assert after == before;
    }
  }

  /** A first read of a profile that is not cached leaves it cached for 24 hours. */
  method FillProfile(s: UserService, userId: string, now: int) returns (r: Result<UserInfo, Error>)
    requires s.cacheOnline && ProfileKey(userId) !in s.cache
    modifies s`cache
    ensures r.Ok? ==> ProfileKey(userId) in s.cache
                      && s.cache[ProfileKey(userId)] == Entry(Doc(UserInfoJson(r.value)), Some(now + ProfileTtl))
  {
    r := s.GetUserInfo(userId, now, None);
  }

  /** A user who has just registered logs in with the same name and password and gets the new id. */
  method RegisterThenLogin(s: UserService, req: RegisterRequest, now: int)
    requires s.Valid()
    modifies s
  {
    var reg := s.RegisterUser(req, now, {}, None);
    if reg.success {
      var u := s.users[|s.users| - 1];
      RegisteredUserLogsIn(s.users[..|s.users| - 1], u);
      assert s.users[..|s.users| - 1] + [u] == s.users;
      var login := s.LoginUser(LoginRequest(req.username, req.password), None);
      assert login == Ok(LoginResponse("fake-jwt-token-" + reg.userId, reg.userId));
    }
  }

  /** No request ever finds a user through a `user_id` column of the users table. */
  lemma UserIdColumnMissing(users: seq<User>, text: string)
    ensures UsersWhere(users, "user_id", text).Err?
  {
  }
}
