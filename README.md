# Mairuida core, modelled in Dafny

Mairuida is a small logistics back end with two gRPC services. The user service handles registration, login, profiles and address books. It keeps users and addresses in MySQL and caches profiles in Redis. A JWT interceptor is written for its calls, but the service's entry point does not install it. The order service creates orders, reads them through a Redis cache, and estimates shipping costs. This project models the core of both services and proves properties of that model:

- `Gate` (gate.dfy) is the authentication interceptor's guard chain, plus the handler that reads the user id it binds into the context.
- `Jwt` (jwt.dfy) covers the claims `GenerateJWT` signs and the checks `jwt.Parse` makes. Signing is symbolic: a signature records its key, algorithm and payload.
- `Decimal` (decimal.dfy) is `strconv.ParseUint` for base 10 and 64 bits, `FormatUint` / `%d`, and the `%f` rendering used in a cache key.
- `Json` (json.dfy) is JSON values with `encoding/json` decoding rules. An absent member or a `null` reads as the zero value, a member of the wrong kind is an error, and timestamps follow `timestamppb`.
- `Cache` (cache.dfy) is Redis `GET` and `SET` with expiry, and a client that may be offline.
- `OrderModel` (order_model.dfy) holds the order status codes and the `orders` table with its constraints.
- `OrderHandler` (order_handler.dfy) has the `OrderService` class with `CreateOrder`, `GetOrder` and `EstimateCost`. The store and the cache are its fields, and `Estimate` is the pricing rule they are specified against.
- `UserModel` (user_model.dfy) holds the `users` and `addresses` tables: keys, unique indexes, the foreign key and its cascade, and gorm's soft delete of addresses.
- `UserHandler` (user_handler.dfy) has the `UserService` class with `RegisterUser`, `LoginUser`, `GetUserInfo` and `UpdateAddressBook`. The address-book functions describe the table after an update.

Clocks, generated order ids and store faults are method parameters. So are which address inserts fail for reasons outside the model, and the decoder from a compact token string to a token. Tables are sequences of rows in insertion order, and gorm's `First` is the first matching row. For users and orders that is primary-key order, because their keys come from an auto-increment counter. Address keys are strings the client chooses, so the address table is not sorted by key, and a user's addresses come back in insertion order. The client methods `GetOrderTwice`, `ProfileStaysStale` and `RegisterThenLogin` chain service calls the way a caller would. They have no contract of their own, so they have no row in the table.

## Model

| member | source | states |
|---|---|---|
| Gate.ExemptPassesThrough | middleware/jwt_interceptor.go:37-42 | a method name ending in one of the four exempt suffixes reaches the handler with its context unchanged, whatever its metadata and token |
| Gate.ExemptNames | middleware/jwt_interceptor.go:37-40 | the four public operations are exempt, and so is any name that merely ends like one of them |
| Gate.ProtectedNames | middleware/jwt_interceptor.go:37-40 | `GetUserInfo` and `UpdateAddressBook` are not exempt |
| Gate.NoMetadataRefused | middleware/jwt_interceptor.go:46-50 | without incoming metadata a protected call is rejected with Unauthenticated "metadata read error" and the handler does not run |
| Gate.NoAuthorizationRefused | middleware/jwt_interceptor.go:53-57 | with no `authorization` value the call is rejected with "Authorization head is empty" |
| Gate.MissingBearerRefused | middleware/jwt_interceptor.go:61-66 | a first `authorization` value without the "Bearer " prefix is rejected with "format error: lack Bearer begin", whatever the later values are |
| Gate.BearerTokenExactly | middleware/jwt_interceptor.go:46-66 | the header guards pass exactly when the first `authorization` value starts with "Bearer ", and then the token string is that value with one prefix removed |
| Gate.OnlyStrippedTokenVerified | middleware/jwt_interceptor.go:61-72 | the outcome depends on the token text only through the stripped first value: two decoders that agree on it give the same outcome |
| Gate.InvalidTokenRefused | middleware/jwt_interceptor.go:69-77 | a token that does not parse, fails verification, is expired or is not yet valid is rejected with "Token invalid or outtime" |
| Gate.AdmittedCallCarriesClaim | middleware/jwt_interceptor.go:80-93 | a protected call that reaches the handler carried a verified token, and the handler's context is the caller's with the string `user_id` claim bound under the private key and nothing else changed |
| Gate.GetUserIdFromContext | middleware/jwt_interceptor.go:98-102 | `(uid, true)` exactly when a string is bound under the private key, and then `uid` is that string; otherwise `("", false)` |
| Gate.PlainKeyIgnored | middleware/jwt_interceptor.go:16-21 | a value bound under the plain string key "user_id" does not change what `GetUserIDFromContext` returns |
| Gate.GetUserIdByJwt | handler/jwt_handler.go:12-21 | echoes the bound user id when there is one; otherwise an Internal status |
| Gate.GeneratedTokenRefused | middleware/jwt_interceptor.go:20 | the interceptor as written rejects every token `GenerateJWT` issues |
| Gate.GeneratedTokenPanicsOnAssertion | middleware/jwt_interceptor.go:87 | with the secrets made equal, the string assertion on `user_id` panics on every live generated token |
| Gate.IssuedTokenAdmitted | middleware/jwt_interceptor.go:69-93 | the intended interceptor admits a generated token exactly while it is live and binds the decimal user id, which `GetUserIDByJWT` returns; an expired one is rejected |
| Jwt.GenerateJWT | util/jwt_helper.go:19-35 | the token is HS256, its payload is the claims for the caller's id at the current time, and it is signed under config.JwtSecret |
| Jwt.GeneratedPayload | util/jwt_helper.go:21-28 | the payload holds `user_id` = the argument, `iat` = now, `exp` = now + 604800 seconds (seven days) and `iss` = "mairuida_user_service" |
| Jwt.GeneratedTokenLifetime | util/jwt_helper.go:24-26 | a generated token parses under config.JwtSecret exactly while now is before its expiry, and then yields its own claims |
| Jwt.Parse | middleware/jwt_interceptor.go:69-77 | a parse succeeds exactly for an HMAC token with an object payload, signed under the given secret over that payload, whose `exp` (if present) is a number still ahead of now and whose `nbf` (if present) is a number now has reached; it then returns that payload as the claims |
| Jwt.ExpiredRefused | middleware/jwt_interceptor.go:69-77 | a token whose `exp` is not ahead of now is refused, whatever its signature |
| Jwt.NotYetValidRefused | middleware/jwt_interceptor.go:69-77 | a token whose `nbf` lies after now is refused |
| Jwt.ForeignSecretRefused | middleware/jwt_interceptor.go:69-72 | a token signed under one secret never parses under another |
| Decimal.ParseUint | order_service/handler/order_handler.go:36-43 | succeeds exactly on a non-empty string of decimal digits whose value fits in 64 bits, and returns that value; the empty string is a syntax error |
| Decimal.ScanCorrect | order_service/handler/order_handler.go:37 | the left-to-right digit scan with its cutoff and overflow tests accepts exactly the in-range digit strings and returns their value |
| Decimal.FormatUintSpells | order_service/handler/order_handler.go:137 | the decimal rendering is a non-empty digit string with no leading zero that spells the number |
| Decimal.ParseFormatRoundTrip | order_service/handler/order_handler.go:36-43 | parsing the rendering of any 64-bit value gives the value back |
| Decimal.FormatUintInjective | handler/user_handler.go:83 | different ids are never rendered as the same text |
| Decimal.RoundHalfEven | order_service/handler/order_handler.go:178 | the `%f` rounding step lands within one half of its argument |
| Json.IntFieldReadsBack | order_service/handler/order_handler.go:115 | a member holding a whole number decodes as that integer |
| Json.TimestampReadsBack | order_service/handler/order_handler.go:144-148 | an encoded timestamp decodes back to the same second, zero included |
| Cache.Get | order_service/handler/order_handler.go:111 | a hit exactly when Redis answers and the key holds a live entry, and then that entry's value; an error exactly when Redis does not answer |
| Cache.PutThenGet | handler/user_handler.go:161 | a value written with a time to live is read back until the time to live runs out, and indefinitely when it is 0 |
| Cache.PutExpires | handler/user_handler.go:161 | after its time to live the value reads as a miss |
| Cache.PutOtherKey | order_service/handler/order_handler.go:156 | writing one key leaves every other key's reads unchanged |
| Cache.Float64 | order_service/handler/order_handler.go:181 | `Float64()` yields a number exactly when the read is a hit holding a number |
| OrderModel.Code | order_service/model/order.go:12-19 | every status is stored as a code between 0 and 5 |
| OrderModel.CodesConsecutive | order_service/model/order.go:12-19 | the codes run 0 to 5, one per status in declaration order, and each reads back to its status |
| OrderModel.DefaultIsCreated | order_service/model/order.go:35 | the column default 1 is the code of StatusCreated |
| OrderModel.FindByOrderId | order_service/handler/order_handler.go:125 | finds a row exactly when one holds the order id, and the row found holds it |
| OrderModel.InsertKeepsWellFormed | order_service/model/order.go:23-24 | appending a row with a fresh order id and the next key keeps the keys increasing and the order ids unique |
| OrderModel.OrderIdUnique | order_service/model/order.go:24 | in a well-formed table an order id picks out at most one row |
| OrderHandler.OrderService.constructor | order_service/handler/order_handler.go:28-33 | a service with an empty table and an empty, reachable cache, holding the injected configuration |
| OrderHandler.OrderService.CreateOrder | order_service/handler/order_handler.go:46-106 | a bad user id gives "invalid user_id format" and stores nothing; a failed insert returns the store error and stores nothing; otherwise the response echoes the generated order id, and exactly one order is appended with that id, status Created and the current time, unless the unchecked commit fails, in which case the same success is answered and nothing is stored |
| OrderHandler.OrderService.GetOrder | order_service/handler/order_handler.go:109-160 | requires the service to hold a Redis client, which the source uses unchecked; a decodable cached entry is returned as is; otherwise a store fault is Internal, a missing order is NotFound, and a found order is returned and cached under "order:"+id with no expiry |
| OrderHandler.DecodeHeldOrderInfo | order_service/handler/order_handler.go:113-118 | an object whose members hold each field of an `OrderInfo` decodes as that `OrderInfo`, whatever else it holds |
| OrderHandler.OrderInfoRoundTrip | order_service/handler/order_handler.go:152-157 | what `GetOrder` caches decodes back to the `OrderInfo` it returned |
| OrderHandler.OrderService.EstimateCost | order_service/handler/order_handler.go:170-244 | the result is always the reference estimate, whatever the cache held; a successful estimate is cached under the request's fingerprint with no expiry |
| OrderHandler.CostInSteps | order_service/handler/order_handler.go:205-235 | the step-by-step update of the running total gives the reference cost |
| OrderHandler.BillingWeightIsMax | order_service/handler/order_handler.go:205-211 | the billing weight is the larger of the actual and the volumetric weight |
| OrderHandler.UnknownMethodFirst | order_service/handler/order_handler.go:195-198 | an unknown transport method is reported whatever the distance and the weight |
| OrderHandler.ParametersChecked | order_service/handler/order_handler.go:214-216 | with a known method, the estimate fails exactly when the distance or the weight is not positive, with "invalid request parameters" |
| OrderHandler.UrgentOverridesDelay | order_service/handler/order_handler.go:225-235 | an urgent request costs the same whether or not it is also marked delayed |
| OrderHandler.ExampleByRoad | client/order_client.go:43-48 | the client's example request (120.5 km, 3.2 kg, 0.0045 m³ by road, rate 5000) bills 22.5 kg and costs base price plus 22.5 × price × 120.5, times the road rate |
| UserModel.FirstMatch | handler/user_handler.go:129 | finds a row exactly when some row satisfies the condition, and the row found satisfies it |
| UserModel.UsersWhere | handler/user_handler.go:176 | a query on a column the users table lacks is a store error; otherwise it fails with RecordNotFound exactly when no row matches |
| UserModel.InsertUser | handler/user_handler.go:67 | the insert succeeds exactly when there is no fault and neither the username nor the email is taken, and then appends the user under the next key |
| UserModel.InsertUserKeepsWellFormed | model/user.go:14-17 | a successful user insert keeps keys increasing and below the counter, usernames and emails unique, and every address owned by a stored user |
| UserModel.SharedPhoneAllowed | model/user.go:18 | two users may share a phone number |
| UserModel.InsertAddress | model/address.go:12-14 | an address insert succeeds exactly when its id is held by no row, deleted rows included, and its owner is a stored user |
| UserModel.InsertAddressKeepsWellFormed | model/address.go:12-14 | a successful address insert keeps address keys unique and every owner stored |
| UserModel.SoftDeleteOwned | handler/user_handler.go:181 | every row of the user is marked deleted and stays in place; other rows are unchanged |
| UserModel.SoftDeleteKeepsWellFormed | handler/user_handler.go:181 | the delete keeps the tables well formed |
| UserModel.SoftDeleteKeepsIds | model/address.go:11-12 | after the delete an address id is held exactly when it was held before |
| UserModel.OwnedByRows | handler/user_handler.go:129 | every address `Preload` returns is a live row of that user from the table |
| UserModel.SoftDeleteClearsBook | handler/user_handler.go:181 | after the delete the user has no live address |
| UserModel.SoftDeleteSparesOthers | handler/user_handler.go:181 | the delete leaves every other user's live addresses unchanged |
| UserModel.DeleteUserCascades | model/user.go:24 | removing a user removes the addresses it owns, keeps the tables well formed and leaves no address owned by it |
| UserHandler.UserService.constructor | handler/user_handler.go:21-24 | a service with empty tables and an empty, reachable cache |
| UserHandler.RegistrationQueries | handler/user_handler.go:40-64 | each registration check finds a row exactly when a stored user has the value |
| UserHandler.UserService.RegisterUser | handler/user_handler.go:27-85 | the username, then the email, then the phone is checked, each conflict answered with its own failure message and nothing stored; a check whose query fails is passed over as no conflict; a failed insert (a fault, or a unique index refusing a name or email whose check was passed over) answers "Register failed:" plus the error; success appends the user with default flags and answers with the decimal of the new key |
| UserHandler.SkippedPhoneCheckStoresDuplicate | handler/user_handler.go:58-67 | when the phone check is passed over, a request with fresh credentials and a phone in use is inserted, leaving two users with that phone |
| UserHandler.SkippedNameCheckRefusedByIndex | handler/user_handler.go:40-72 | when the username check is passed over and the name is taken, the insert is refused by the username index |
| UserHandler.FirstWithCredentials | handler/user_handler.go:93 | finds a user exactly when one has both the username and the password, and the user found has both |
| UserHandler.RegisteredUserLogsIn | handler/user_handler.go:67-104 | a user appended under a fresh username is the one found by its own credentials |
| UserHandler.UserService.LoginUser | handler/user_handler.go:88-105 | no user with both the name and the password, or a store fault, gives Unauthenticated "username/password error"; otherwise the token "fake-jwt-token-"+id and the decimal id |
| UserHandler.Infos | handler/user_handler.go:135-144 | one address message per stored address, in order, copied field for field |
| UserHandler.UserService.GetUserInfo | handler/user_handler.go:108-170 | a decodable cached profile is returned as is; otherwise a store fault or an unknown user is NotFound, and a found user's profile with their live addresses in table order is returned and cached for 24 hours |
| UserHandler.AddressInfoRoundTrip | handler/user_handler.go:136-143 | an encoded address decodes back to the same address |
| UserHandler.AddressListRoundTrip | handler/user_handler.go:134-144 | an encoded address list decodes back to the same list |
| UserHandler.DecodeHeldUserInfo | handler/user_handler.go:117 | an object whose members hold each field of a profile decodes as that profile |
| UserHandler.UserInfoRoundTrip | handler/user_handler.go:159-161 | what `GetUserInfo` caches decodes back to the profile it returned |
| UserHandler.FillProfile | handler/user_handler.go:158-164 | a first read of an uncached profile leaves it cached for 24 hours |
| UserHandler.UserService.ReplaceAddresses | handler/user_handler.go:173-202 | an unknown user is NotFound and nothing changes; a failed delete is Internal and nothing changes; otherwise the old book is deleted, the requested addresses are inserted in order with every insert error ignored, and success is answered |
| UserHandler.UserService.UpdateAddressBook | handler/user_handler.go:176 | as written, every request is answered NotFound and nothing changes |
| UserHandler.UserIdColumnMissing | handler/user_handler.go:176 | no query on a `user_id` column of the users table finds a user |
| UserHandler.UserService.UpdateAddressBookIntended | handler/user_handler.go:173-202 | with the user looked up by key and the new rows owned by them, the table becomes the rebuilt table of the address-book functions |
| UserHandler.InsertEachSnoc | handler/user_handler.go:186-196 | each further requested address is inserted on top of what the earlier ones left, unless its insert fails |
| UserHandler.UnsetOwnerInsertsNothing | handler/user_handler.go:187-195 | rows built without an owner are all refused by the foreign key |
| UserHandler.UnsetOwnerEmptiesBook | handler/user_handler.go:181-196 | with the owner left unset, the user ends with no address at all, whatever was requested |
| UserHandler.FreshInsertsAppend | handler/user_handler.go:186-196 | distinct, unused ids for a stored owner are all appended in request order, except those whose insert fails |
| UserHandler.RequesterGetsRequestedBook | handler/user_handler.go:181-196 | with the owner set, the user's book becomes exactly the requested addresses whose insert succeeded, in request order |
| UserHandler.TakenInsertsFail | handler/user_handler.go:195 | inserts of ids the table already holds all fail |
| UserHandler.ResubmittedBookEmpties | handler/user_handler.go:181-195 | sending back ids the table already holds, such as the current book, leaves the user with no address |
| UserHandler.SecondOfThreeFails | handler/user_handler.go:186-196 | the inserts are not one transaction: when the second of three fresh addresses fails to insert, the user's book in the table is the first and the third |

| Gate.Guard | middleware/jwt_interceptor.go:25-95 | no contract of its own: the interceptor's guard chain for a secret and a way of reading `user_id`; its properties are ExemptPassesThrough, NoMetadataRefused, NoAuthorizationRefused, MissingBearerRefused, InvalidTokenRefused and AdmittedCallCarriesClaim |
| Gate.Intercept | middleware/jwt_interceptor.go:25-95 | no contract of its own: `JWTAuthInterceptor()` as written; its properties are GeneratedTokenRefused and GeneratedTokenPanicsOnAssertion |
| Gate.InterceptIntended | middleware/jwt_interceptor.go:25-95 | no contract of its own: the interceptor with the signing secret and the numeric claim; its property is IssuedTokenAdmitted |
| Gate.BearerToken | middleware/jwt_interceptor.go:46-66 | no contract of its own: the header guards; its property is BearerTokenExactly |
| Jwt.CheckExpiry | middleware/jwt_interceptor.go:69-72 | no contract of its own: the `exp` check inside `jwt.Parse`; Parse's contract states it through TimesAllow |
| Jwt.CheckNotBefore | middleware/jwt_interceptor.go:69-72 | no contract of its own: the `nbf` check inside `jwt.Parse`; Parse's contract states it through TimesAllow |
| Decimal.FormatUint | order_service/handler/order_handler.go:137 | no contract of its own: `strconv.FormatUint` and `%d`; its properties are FormatUintSpells, ParseFormatRoundTrip and FormatUintInjective |
| Decimal.FormatFixed | order_service/handler/order_handler.go:178 | no contract of its own: `%f` with six decimals, built on RoundHalfEven |
| Json.StringField | order_service/handler/order_handler.go:115 | no contract of its own: a string field under `json.Unmarshal`, absent or null reading as "" |
| Json.IntField | order_service/handler/order_handler.go:115 | no contract of its own: an integer field under `json.Unmarshal`; its property is IntFieldReadsBack |
| Json.TimestampField | order_service/handler/order_handler.go:115 | no contract of its own: a `timestamppb` field; its property is TimestampReadsBack |
| Cache.Put | order_service/handler/order_handler.go:156 | no contract of its own: Redis `SET` with a time to live; its properties are PutThenGet, PutExpires and PutOtherKey |
| OrderHandler.ToOrderInfo | order_service/handler/order_handler.go:135-149 | no contract of its own: the `OrderInfo` built from a stored row, used in GetOrder's contract |
| OrderHandler.DecodeOrderInfo | order_service/handler/order_handler.go:113-118 | no contract of its own: `json.Unmarshal` into `pb.OrderInfo`; its properties are DecodeHeldOrderInfo and OrderInfoRoundTrip |
| OrderHandler.EstimateKey | order_service/handler/order_handler.go:178 | no contract of its own: the `estimate:%f:%f:%f:%t:%t:%d` cache key, used in EstimateCost's contract |
| OrderHandler.Estimate | order_service/handler/order_handler.go:170-244 | no contract of its own: the reference estimate EstimateCost is proved against; its properties are BillingWeightIsMax, UnknownMethodFirst, ParametersChecked, UrgentOverridesDelay and ExampleByRoad |
| UserModel.OwnedBy | handler/user_handler.go:129 | no contract of its own: the live addresses `Preload("Addresses")` reads; its properties are OwnedByRows, SoftDeleteClearsBook and SoftDeleteSparesOthers |
| UserModel.DeleteUser | model/user.go:24 | no contract of its own: removing a user with the declared cascade; its property is DeleteUserCascades |
| UserHandler.DecodeAddressInfo | handler/user_handler.go:117 | no contract of its own: `json.Unmarshal` into `pb.Address`; its property is AddressInfoRoundTrip |
| UserHandler.DecodeUserInfo | handler/user_handler.go:117 | no contract of its own: `json.Unmarshal` into `pb.UserInfo`; its properties are DecodeHeldUserInfo and UserInfoRoundTrip |
| UserHandler.CachedProfile | handler/user_handler.go:113-120 | a cache read yields a profile exactly when it is a hit holding a document that decodes, and then the decoded profile |
| UserHandler.InsertEach | handler/user_handler.go:186-196 | no contract of its own: the insert loop over the requested addresses, errors ignored; its properties are InsertEachSnoc, FreshInsertsAppend, TakenInsertsFail and UnsetOwnerInsertsNothing |
## Left out

- Transport: the gRPC server set-up and wire format, Kafka, database and Redis connection set-up, and configuration loading. The shipping configuration, the transport-name table and whether a Redis client was injected are constructor parameters.
- Tokens: base64, the compact serialization and real HMAC-SHA256 are not modelled. A token is held as its parts, and the interceptor takes a decoder from the header text to a token.
- Verification accepts any HMAC algorithm. The interceptor does not pin HS256, so this is what the library does with a `[]byte` key.
- Time claims: the interceptor's `jwt.Parse` checks `exp` and `nbf` by default and not `iat`.
- `Jwt.Parse` states only which tokens succeed and what they yield, not which failure comes first. The order of the checks is in its body.
- Clocks and order ids: `time.Now()` and `uuid.New()` are inputs. Times are whole seconds; sub-second precision and time zones are left out.
- `Jwt.GenerateJWT`: the source reads the clock twice, once for `exp` and once for `iat`. The model reads it once, so `exp - iat` is always 604800 seconds; in the source it can be 604799 when a second boundary falls between the two reads.
- `Jwt.Parse`: jwt/v5 reads a numeric `exp` or `nbf` of 0 as unset; the model compares it like any other time. No token the service issues carries 0.
- Numbers are exact reals. `float64` rounding and the IEEE behaviour of the cost arithmetic are not modelled.
- `Decimal.RoundHalfEven`: states only that the `%f` key rounds to within a half, not the exact float64 decimal expansion.
- JSON: member names match exactly, not case-insensitively as `encoding/json` allows. `omitempty` on the generated message fields is not modelled (every field is written). Numbers are exact.
- MySQL's rule for comparing the `id` column with a text value is approximated by `ParseUint`. So "007" matches user 7, but text such as "7abc", which MySQL would coerce, matches no user.
- `UserModel.Matches`, `UserModel.UsernameTaken`, `UserModel.EmailTaken`, `UserModel.InsertUser`, `UserHandler.FirstWithCredentials` and `OrderModel.FindByOrderId`: text is compared exactly. The tables are created over a `utf8mb4` connection with no collation given, so MySQL's default case-insensitive collation applies to the WHERE comparisons and to the unique indexes. With alice/password stored, `LoginUser("ALICE", "PASSWORD")` succeeds in MySQL but is refused in the model, and registering "Alice" is answered "Username already exists!" in MySQL but succeeds in the model.
- `UserHandler.UserService.GetUserInfo`, `UserHandler.Infos` and `UserHandler.RequesterGetsRequestedBook`: `Preload("Addresses")` asks for no order, and the model returns a user's addresses in insertion order. MySQL may return them in another order, such as by the string key. The list's contents and their ownership do not depend on this order.
- `OrderHandler.OrderService.CreateOrder` and `UserHandler.UserService.RegisterUser`: an auto-increment value consumed by an insert that is rolled back or refused is not skipped in the model. The counter advances only when a row is stored, so later keys can differ from MySQL's. Key order and uniqueness are unaffected.
- Transactions and concurrency:
  - `RegisterUser` leaves its transaction open on the username-conflict path and after a failed insert.
  - `RegisterUser` queries the username and inserts through the handle, not the transaction.
  - Nothing is modelled of the race between the checks and the insert.
  - Each call is one atomic step.
- `CreateOrder`'s rollback-on-panic path is not modelled, because nothing in the model panics.
- User rows: `gorm.Model` also gives users a soft-delete column. No handler deletes users, so `users` rows are never marked deleted. `UserModel.DeleteUser` is the SQL-level delete whose cascade the schema declares.
- Login by one-time code, password hashing, and users' soft delete and restore do not occur in the modelled code.
- `UpdateAddressBook` is not atomic: it uses no transaction and ignores every insert error. The model follows the code.
- The user service's entry point builds its gRPC server with no interceptor (cmd/main.go:23), so the interceptor modelled here guards nothing in the running service. The entry point itself is not modelled.
- Log output is left out.

## Findings

| source | as written | input that shows it | evidently intended | confidence | as-written member | corrected member |
|---|---|---|---|---|---|---|
| middleware/jwt_interceptor.go:20 | tokens are verified under `JWT_SECRET = "your_secret_key"`, while `GenerateJWT` signs under config.JwtSecret "MairuidaSuperSecretKey" | any token from `GenerateJWT`, sent to a protected method | verification under the secret the tokens are signed with | high, not executed | Gate.GeneratedTokenRefused | Gate.IssuedTokenAdmitted |
| middleware/jwt_interceptor.go:87 | `claims["user_id"].(string)` asserts a string, but `GenerateJWT` writes `user_id` as a number, which `MapClaims` holds as `float64` | a live token from `GenerateJWT` with the secrets made equal: the assertion panics | the numeric claim bound as the user's decimal id | high, not executed | Gate.GeneratedTokenPanicsOnAssertion | Gate.IssuedTokenAdmitted |
| handler/user_handler.go:187-194 | the new `Address` rows set no `UserID`, so they carry owner 0, which the foreign key refuses when there is no user 0 | a stored user sending one new address with an unused id ends with no address | the rows owned by the requesting user | high, not executed | UserHandler.UnsetOwnerEmptiesBook | UserHandler.RequesterGetsRequestedBook |
| handler/user_handler.go:176 | the user is looked up with `Where("user_id = ?")` on the users table, which has no `user_id` column | any request, for instance user id "1" with user 1 stored: the query errors and the answer is NotFound | a lookup by the key column `id` | high, not executed | UserHandler.UserService.UpdateAddressBook | UserHandler.UserService.UpdateAddressBookIntended |
