# BRB back end: access rules, payments and composite creates

A Dafny model of the security-relevant decisions in the BRB crowdfunding back end (an Express application over PostgreSQL).

- **Credential gates.** Two HTTP Basic checks (`app/middleware/index.js`, `app/middleware/basic_auth.js`) and the bearer-token gate of the users router (`app/routes/users.js`). Each is a decision over the `Authorization` header with three possible ends: `next()`, a 401/403 response, or an exception.
- **Field-level redaction in `app/routes/specifics.js`.**
  - The profile view shows the owner everything. Anyone else gets the first name, the last-name initial and the startup ids.
  - The startup page shows the agreement only to the startup's entrepreneur and its contributors, and the founder's email only to contributors.
  - A contribution is readable only by its contributor or by the startup's entrepreneur.
  - There are also a per-startup listing and a summary.
- **The Payme (Paycom) gateway boundary.** `app/services/payment/payme/index.js` and `app/routes/payments.js` cover:
  - the `X-Auth` signature, which is base64 (section 4 of RFC 4648) of the UTF-8 bytes of `key + ':'`;
  - the webhook dispatch;
  - the tiyin conversion;
  - error normalisation to code -32400;
  - the payment URL;
  - input validation and the router's error middleware.
- **Composite creation.** `POST /entrepreneurs` and `POST /contributors` create Address, then Passport, then an optional BankAgreement, then the Entrepreneur or Contributor row. Each row's foreign keys come from the rows just created, and a failure does not roll back the earlier rows. The GET/PUT/DELETE `/:id` routes map store results to 200/404/500 (400 for PUT).

## How the model is organised

**Base modules**

| module (file) | what it holds |
|---|---|
| `Wrappers` (wrappers.dfy) | Option and Result |
| `Js` (js.dfy) | JSON values and JavaScript truthiness; `split`, `charAt(0)`; the TypeError messages of reading a property of `undefined` or `null` |
| `Utf8`, `Base64` (utf8.dfy, base64.dfy) | `Buffer`'s UTF-8 decoding (WHATWG, with U+FFFD replacement) and its lenient base64 decoder; encode/decode round trips are proved |
| `Sql` (sql.dfy) | rows, how a model class binds its listed columns (absent gives NULL), and PostgreSQL's parse of a text id compared with an `integer` column (syntax and range errors) |
| `Http` (http.dfy) | responses and the shared found/missing/failed status mapping |

**The store of the composite routes** (`Database`, database.dfy)

- The five tables are maps from id to row, each with a serial counter, plus a log of the statements issued.
- `Insert`, `FindById`, `UpdateById` and `DeleteById` are the specification functions of the model classes' `create`, `findById`, `update` and `delete`.
- Database failures come from an oracle `faults` that maps each statement to an optional error message.
- The class `Store` holds the same state in mutable fields. Each of its methods is proved equal to the corresponding function.

**The route modules**

- `AppBasicAuth`, `TableBasicAuth`, `UsersRoutes`, `PaymeService` and `PaymentsRoutes` are functions over their inputs.
- `SpecificsRoutes` builds its responses step by step in methods, as the handlers do, over a read-only `Catalog` (catalog.dfy) of records. Each method is proved against predicates that say which fields the answer holds for which asker.
- `EntrepreneursRoutes` and `ContributorsRoutes` have imperative handlers, proved equal to the functional `Post`/`GetById`/… specifications. Lemmas decompose a successful POST into its steps.

**Oracles.** Every external dependency is a parameter:

- the clock (`now`);
- `jwt.verify` (`verify`);
- `User.authenticate` (`authenticate`);
- the users table (`insert`, `find`, `update`, `remove`);
- the gateway's HTTP client (`post`);
- database failures (`faults`).

**Source notes.**

- The routes require `../models/address`, `../models/passport` and `../models/bankAgreement` from `app/routes/`, and `app/routes/specifics.js` also requires `../models/phone` and `../models/startup`. The repository keeps these classes under the root `models/` directory (`models/address.js`, `models/passport.js`, `models/bankAgreement.js`, `models/phone.js`, `models/startup.js`). The model takes their behaviour from those files, which have the same shape as `app/models/entrepreneur.js`.
- `app/routes/specifics.js` calls `findOne`, `findByContributorId`, `findByStartupId`, `findAll` and `exists`. No model class defines them: `app/models/contribution.js`, `app/models/entrepreneur.js` and `app/models/user.js` define only `create`, `findById`, `update` and `delete`. The model gives these calls their evident meaning (first-match lookups and storage-order filters); "## Left out" says what the code as it stands does instead.
- `authenticateUser` and `Agreement` are unbound in `app/routes/specifics.js`. The asker id those routes read (`req.userId`) is an input, and agreements are looked up by id.

**Hazards the model makes explicit** (each has a lemma):

- The profile self check `req.user.user_id === userId` compares against the path parameter, which is text. Claims whose `user_id` is a number never see their own profile (`SpecificsRoutes.NumericUserIdNeverOwner`).
- `user.contributor_id === contribution.contributor_id` holds for `null === null`. A user who is no contributor may read every contribution whose contributor is NULL (`SpecificsRoutes.NullContributorMatchesNull`).
- Unset `API_PASS`: a Basic payload that is just the username, with no `:`, is accepted (`AppBasicAuth.UnsetPasswordAcceptsBareUser`).
- A password containing `:` can never be presented (`AppBasicAuth.ColonInPasswordNeverMatches`).
- A header that is exactly `Basic` makes `Buffer.from(undefined)` throw.
- The bearer gate accepts any scheme word. `Bearer ` with an empty token goes to the verifier and gives 403, not 401 (`UsersRoutes.EmptyTokenIsVerified`).
- Any valid token may read, change or delete any user (`UsersRoutes.NoOwnershipCheck`).
- `handlePaycomError` tests `instanceof PaycomError`, but `PaycomError` is not bound in `app/routes/payments.js` (see Findings).
- The composite POSTs run without a transaction. Rows created before a failure stay (`EntrepreneursRoutes.NoRollback`).
- A PUT binds every listed column, so an omitted field becomes NULL (`Database.UpdateOverwrites`).

## Model

| member | source | states |
|---|---|---|
| Js.Prop | app/routes/entrepreneurs.js:127 | destructuring or reading a property throws exactly when the value is `undefined` or `null`; on an object it yields the property or `undefined` |
| Js.Split | app/middleware/index.js:14 | `split` on one character: at least one piece, no piece holds the separator, a single piece iff the separator is absent |
| Js.JoinSplit | app/middleware/index.js:21 | joining the pieces of a split with the separator gives back the text |
| Js.SplitJoin | app/middleware/index.js:21 | splitting pieces free of the separator, once joined, gives back the pieces |
| Js.Initial | app/routes/specifics.js:27 | `${last_name.charAt(0)}.`: the first character and a dot, or just the dot for an empty name |
| Utf8.Encode | app/middleware/index.js:3 | UTF-8 encoding of text: at least one byte per character |
| Utf8.Decode | app/middleware/index.js:3 | `toString('utf-8')`: at most one character per byte |
| Utf8.DecodeEncode | app/middleware/index.js:3 | `toString('utf-8')` of the UTF-8 bytes of a text is that text |
| Utf8.EncodeAppend | app/services/payment/payme/index.js:16 | encoding distributes over concatenation |
| Base64.Encode | app/services/payment/payme/index.js:16 | `toString('base64')`: 4 characters per started 3-byte group, with no space or ':' in the output |
| Base64.Decode | app/middleware/index.js:3 | `Buffer.from(s, 'base64')`: at most three bytes per four characters |
| Base64.DecodeEncode | app/middleware/index.js:3 | `Buffer.from(s, 'base64')` of the base64 encoding of bytes gives those bytes back |
| Base64.BytesSextets | app/middleware/index.js:3 | regrouping 6-bit values into bytes inverts splitting bytes into 6-bit values |
| Sql.Project | models/address.js:5-7 | the values a model binds: exactly its listed columns, each from the data or NULL |
| Sql.ParseInt4 | models/address.js:12-15 | PostgreSQL's reading of a text id as `integer`: sign and digits only, within 32 bits, else a syntax or range error |
| Sql.ParseNatToString | models/address.js:12-15 | the decimal spelling of an id parses back to that id |
| Sql.ParamId | models/address.js:12-15 | an absent parameter binds NULL; text binds its integer value or fails with the parse error |
| Http.GetReply | app/routes/entrepreneurs.js:176-187 | GET: found iff 200 with the row, missing iff 404 "<entity> not found", failure iff 500 with the message |
| Http.PutReply | app/routes/entrepreneurs.js:220-231 | PUT: the same, but a failure is 400 |
| Http.DeleteReply | app/routes/entrepreneurs.js:254-265 | DELETE: found iff 200 with "<entity> deleted successfully" (the row not echoed), missing 404, failure 500 |
| AppBasicAuth.DecodeBase64 | app/middleware/index.js:3 | `Buffer.from(str, 'base64').toString('utf-8')`: at most three characters per four of input |
| AppBasicAuth.DecodeBase64Inverts | app/middleware/index.js:3 | a payload a client encoded from text decodes back to that text |
| AppBasicAuth.Credentials | app/middleware/index.js:21 | the username is the text before the first ':', the password the next field or `undefined` iff there is no ':' |
| AppBasicAuth.BasicAuth | app/middleware/index.js:1-34 | no header or an empty one: 401 with the challenge; a first piece other than `Basic` (iff): 401 without it; bare `Basic`: a throw (iff); `next` with `req.user` = API_USER iff the decoded pair equals (API_USER, API_PASS); every other outcome is a 401 |
| AppBasicAuth.SplitBasicHeader | app/middleware/index.js:14 | `Basic <payload>` splits into exactly the scheme and the payload |
| AppBasicAuth.TrailingFieldsIgnored | app/middleware/index.js:21 | text after a second ':' does not change the credentials |
| AppBasicAuth.AcceptsConfiguredPair | app/middleware/index.js:3-28 | round trip: the header a client encodes from the configured pair is accepted with `req.user` the username, when neither part holds ':' |
| AppBasicAuth.ColonInPasswordNeverMatches | app/middleware/index.js:21-25 | a configured password containing ':' is never accepted |
| AppBasicAuth.UnsetPasswordAcceptsBareUser | app/middleware/index.js:21-25 | with API_PASS unset, the bare username with no ':' is accepted |
| AppBasicAuth.UnsetUserRejectsAll | app/middleware/index.js:25 | with API_USER unset nothing is accepted |
| TableBasicAuth.IsValidUser | app/middleware/basic_auth.js:14-19 | true iff the pair is ("allowed", "secretpassword"); a name the table lacks is always refused |
| TableBasicAuth.BasicAuthMiddleware | app/middleware/basic_auth.js:3-12 | `next` iff the parsed credentials are the one valid pair; otherwise the single 401 "Authentication required." with the challenge |
| TableBasicAuth.MissingAndWrongAlike | app/middleware/basic_auth.js:6-9 | missing and wrong credentials get the identical refusal |
| UsersRoutes.BearerToken | app/routes/users.js:9-10 | no header: no token; an empty header: the empty token; otherwise a token iff the header holds a space, and it holds none itself |
| UsersRoutes.AnySchemeCarriesToken | app/routes/users.js:10 | whatever word precedes the space, the token is the text after it |
| UsersRoutes.AuthenticateToken | app/routes/users.js:8-19 | no token iff 401; a token the verifier rejects iff 403; otherwise proceeds with the verified claims and their `isAdmin` |
| UsersRoutes.NoTokenNoVerify | app/routes/users.js:9-11 | without a token the outcome, 401, does not depend on the verifier |
| UsersRoutes.EmptyTokenIsVerified | app/routes/users.js:10-14 | `Bearer ` reaches the verifier with the empty token and a rejection is 403 |
| UsersRoutes.RegisterData | app/routes/users.js:24 | the data holds `is_admin` = false and otherwise equals the body |
| UsersRoutes.UserCreateReadsListedColumns | app/models/user.js:4-10 | `User.create` reads only its six listed columns: data that agree on them are created alike |
| UsersRoutes.Register | app/routes/users.js:22-30 | 201 with the created user iff `User.create` succeeds, else 400 with its message |
| UsersRoutes.IsAdminCannotBeChosen | app/routes/users.js:24-25 | bodies that differ only in `is_admin` register identically |
| UsersRoutes.Login | app/routes/users.js:33-45 | truthy result iff 200 (with `{token}`), falsy iff 401 "Invalid credentials", exception iff 500 |
| UsersRoutes.Guarded | app/routes/users.js:48 | a protected handler's answer is the gate's refusal, or the handler's when the gate proceeds |
| UsersRoutes.GetUser | app/routes/users.js:48-59 | GET `/:id`: the gate's refusal, or 200/404/500 from `findById` |
| UsersRoutes.PutUser | app/routes/users.js:62-73 | PUT `/:id`: the gate's refusal, or 200/404/400 from `update` |
| UsersRoutes.DeleteUser | app/routes/users.js:76-87 | DELETE `/:id`: the gate's refusal, or 200/404/500 from `delete` |
| UsersRoutes.NoOwnershipCheck | app/routes/users.js:48-87 | any two verified callers get the same answer for the same id on all three routes |
| UsersRoutes.MissingUserIs404 | app/routes/users.js:48-87 | a missing user is 404 "User not found" on GET, PUT and DELETE |
| Catalog.Find | app/routes/specifics.js:104 | `findOne`: some matching row with no matching row before it (the first match), and none iff no row matches |
| Catalog.Filter | app/routes/specifics.js:247-249 | `filter`: every kept row is a matching row of the input, every matching row is kept, never longer |
| Catalog.FilterAppend | app/routes/specifics.js:247-249 | filtering a concatenation is the concatenation of the filtered parts (storage order is kept) |
| Catalog.FilterOccurrences | app/routes/specifics.js:247-249 | a matching row occurs in the result exactly as often as in the input, any other row not at all |
| Catalog.FilterCount | app/routes/specifics.js:247-249 | the result has exactly as many rows as the input has matching positions |
| SpecificsRoutes.SelfCheck | app/routes/specifics.js:27-30 | throws iff `req.user` is `undefined` or `null`; otherwise true iff the claims are an object whose `user_id` is the very text of the parameter |
| SpecificsRoutes.OwnerProfileShown | app/routes/specifics.js:15-59 | claims carrying the path's id are the owner's, and the owner's profile is shown iff the user and the records it points to exist |
| SpecificsRoutes.NumericUserIdNeverOwner | app/routes/specifics.js:17-30 | claims with a numeric `user_id` are never the owner |
| SpecificsRoutes.ContributionIds | app/routes/specifics.js:57 | the contributions' ids, same length and order |
| SpecificsRoutes.EntrepreneurPart | app/routes/specifics.js:36-47 | the owner's `entrepreneur` object: gender, and the passport, address and startup ids exactly when those records exist |
| SpecificsRoutes.ContributorPart | app/routes/specifics.js:50-58 | the owner's `contributor` object: gender, the passport when it exists, and all contribution ids |
| SpecificsRoutes.ViewProfile | app/routes/specifics.js:15-75 | 404 "User not found" iff the id parses and names no user; 200 iff the profile can be built; claims whose `user_id` is the path's id get the owner profile, anyone else the stranger profile; each 500 with its TypeError or parse message |
| SpecificsRoutes.OwnerView | app/routes/specifics.js:30-59 | 200 iff the entrepreneur and contributor records the user points to exist; then full name, email, phone number (NULL without a phone) and the two parts exactly when their ids are truthy |
| SpecificsRoutes.StrangerView | app/routes/specifics.js:60-69 | only `first_name`, the initial and `startup_ids` (when the user's startup exists); 500 when the entrepreneur record is missing |
| SpecificsRoutes.Card | app/routes/specifics.js:88-101 | the card a visitor sees: the listed columns under their card names, and region and category names or null |
| SpecificsRoutes.CardLeavesRoom | app/routes/specifics.js:88-129 | the fields the page adds never collide with card fields |
| SpecificsRoutes.DisplayName | app/routes/specifics.js:125 | the first name and a space, then the last name's first character (when there is one), ending in a dot: two or three characters longer than the first name |
| SpecificsRoutes.StartupExtras | app/routes/specifics.js:103-129 | agreement iff the asker is the startup's entrepreneur or a contributor to it and the agreement exists; founder name iff the startup has an entrepreneur; founder email iff that and the asker contributed; fails exactly when the founder's name cannot be built |
| SpecificsRoutes.CardWithExtras | app/routes/specifics.js:88-131 | the card with the added fields is the startup page |
| SpecificsRoutes.ViewStartup | app/routes/specifics.js:78-135 | 404 "Startup not found" iff the id parses and names no startup; 200 iff the startup and asker exist and the founder's name can be built, with the page for that asker; each 500 with its message |
| SpecificsRoutes.ViewContribution | app/routes/specifics.js:168-211 | 404 iff no such contribution; 403 "Access denied" iff the asker is neither its contributor nor the entrepreneur of its startup; 200 iff access is granted and (for the entrepreneur) the contributor's name can be built |
| SpecificsRoutes.ContributionReply | app/routes/specifics.js:194-207 | startup, date and amount, plus `contributor_name` exactly for the startup's entrepreneur |
| SpecificsRoutes.NullContributorMatchesNull | app/routes/specifics.js:178 | a user with no contributor id counts as the contributor of every contribution whose contributor is NULL |
| SpecificsRoutes.Listings | app/routes/specifics.js:223-228 | one `{id, startup_id, date, amount}` per contribution, same length and order |
| SpecificsRoutes.StartupContributions | app/routes/specifics.js:214-234 | 404 iff the startup has no contributions; otherwise 200 with their listings, all belonging to that startup |
| SpecificsRoutes.Recent | app/routes/specifics.js:244-249 | the contributions started at or after the cutoff: only those, all of them, and exactly as many as there are such positions |
| SpecificsRoutes.Summary | app/routes/specifics.js:237-259 | exactly three fields: `total_amount` the sum of amounts, `total_contributions` the count, `recent_contributions` the number of contributions started within the last seven days |
| SpecificsRoutes.TotalAmount | app/routes/specifics.js:241 | `reduce((sum, c) => sum + c.amount, 0)`: non-negative amounts total at least 0 |
| SpecificsRoutes.TotalAmountFront | app/routes/specifics.js:241 | the left fold equals the first amount plus the total of the rest |
| SpecificsRoutes.TotalAmountAppend | app/routes/specifics.js:241 | the total over two runs of contributions is the sum of their totals |
| SpecificsRoutes.TotalAmountBounded | app/routes/specifics.js:241 | amounts in [0, b] total between 0 and count times b |
| SpecificsRoutes.RecentShrinks | app/routes/specifics.js:244-249 | a later cutoff never counts more recent contributions |
| PaymeService.Signature | app/services/payment/payme/index.js:16 | base64 of the UTF-8 bytes of `key + ':'`, of the length RFC 4648 fixes |
| PaymeService.SignatureCarriesKey | app/services/payment/payme/index.js:75 | the signature decodes back to the key followed by ':' |
| PaymeService.SignatureInjective | app/services/payment/payme/index.js:73-77 | distinct keys give distinct signatures |
| PaymeService.Normalise | app/services/payment/payme/index.js:34-44 | resolves iff there is a body whose `error` is falsy, with `data.result`; a truthy `error` becomes a PaycomError with its code and message; a transport failure or a `null` body becomes (-32400, "System Error") |
| PaymeService.ToNumber | app/services/payment/payme/index.js:27 | `Number(v)` for an amount: a number is itself; `[]` is 0; `[n]` is n and `["s"]` the reading of s; two or more items, or an object, are NaN |
| PaymeService.IntTextToNumber | app/services/payment/payme/index.js:27 | `Number(String(n))` is n for every integer |
| PaymeService.Tiyin | app/services/payment/payme/index.js:27 | `amount * 100`: 100 times the numeric value, or null for NaN |
| PaymeService.TiyinOfDecimalText | app/services/payment/payme/index.js:27 | an amount given as decimal text is sent as 100 times its value |
| PaymeService.CreateRequest | app/services/payment/payme/index.js:24-31 | `receipts.create` with the tiyin amount and `account.order_id` |
| PaymeService.CheckRequest | app/services/payment/payme/index.js:49-54 | `receipts.check` with the transaction id |
| PaymeService.Dispatch | app/services/payment/payme/index.js:86-99 | `{result:{success:true}}` iff the method is `receipts.pay` or `receipts.cancel`, else 400 "Unknown method" |
| PaymeService.Paycom.constructor | app/services/payment/payme/index.js:11-20 | the client keeps the configured key; its header is the key's signature |
| PaymeService.Paycom.VerifyWebhookSignature | app/services/payment/payme/index.js:73-77 | the client's own header passes; a header that passes decodes to the configured key followed by ':' |
| PaymeService.Paycom.CreateTransaction | app/services/payment/payme/index.js:22-45 | resolves iff the gateway answered with a falsy `error`, with `data.result`; a transport failure is PaycomError(-32400, "System Error") |
| PaymeService.Paycom.CheckTransaction | app/services/payment/payme/index.js:47-67 | the same settlement for the `receipts.check` call |
| PaymeService.Paycom.GeneratePaymentUrl | app/services/payment/payme/index.js:69-71 | the checkout address followed by the id's text |
| PaymeService.Paycom.HandleWebhook | app/services/payment/payme/index.js:79-100 | a bad signature is 401 "Invalid signature" before the method is read; otherwise the dispatch |
| PaymeService.OwnHeaderVerifies | app/services/payment/payme/index.js:16-76 | the client's own `X-Auth` header passes its webhook check |
| PaymeService.PaymentUrlInjective | app/services/payment/payme/index.js:69-71 | different string ids give different URLs |
| PaymentsRoutes.CreatePayment | app/routes/payments.js:17-36 | a falsy amount or orderId is 400 with no gateway call; a gateway failure is passed on; otherwise `transactionId` is `transaction.id` and `paymentUrl` the URL built from it |
| PaymentsRoutes.CreatedUrlNamesTransaction | app/routes/payments.js:25-32 | for a string id the answer carries that id and the checkout address followed by it |
| PaymentsRoutes.CheckPayment | app/routes/payments.js:39-56 | an empty id is 400 with no gateway call; a failure is passed on; otherwise the result as `status` |
| PaymentsRoutes.Webhook | app/routes/payments.js:59-82 | a failed signature is 401 first; then 200 iff the method is `receipts.pay` or `receipts.cancel`, else 400 |
| PaymentsRoutes.WebhookAgreesWithClient | app/routes/payments.js:59-82 | the route answers as the client's `handleWebhook` |
| PaymentsRoutes.HandlePaycomErrorAsWritten | app/routes/payments.js:9-14 | as written every error, a gateway error included, is passed on as the ReferenceError |
| PaymentsRoutes.GatewayErrorNotMapped | app/routes/payments.js:9-14 | as written a gateway error is never answered, and the error passed on is not that gateway error |
| PaymentsRoutes.HandlePaycomError | app/routes/payments.js:9-14 | intended: answered iff the error is a PaycomError, with 400 `{error, code}`; anything else is passed on unchanged |
| PaymentsRoutes.GatewayFailureIs400 | app/routes/payments.js:9-36 | with the intended middleware, a transport failure during create-payment is 400 with code -32400 and "System Error" |
| Database.Bind | models/address.js:4-7 | destructuring the data throws for `undefined` and for `null` (iff); otherwise the bound values are exactly the listed columns |
| Database.Insert | models/address.js:4-10 | a created row carries the table's next serial id in its id column |
| Database.InsertEffect | models/address.js:4-10 | on a valid store a create stores the bound row under a fresh id, advances that table's serial, touches nothing else, logs the INSERT, and keeps the store valid |
| Database.InsertOther | models/address.js:4-10 | a create leaves every other table and its serial unchanged |
| Database.InsertStores | models/address.js:4-10 | the returned row is the one stored under the id it carries |
| Database.InsertLog | models/address.js:4-10 | the INSERT is issued iff binding succeeded; otherwise the store is untouched |
| Database.FindById | models/address.js:12-16 | changes no rows; found iff the id parses, the statement succeeds and the row exists, and then it is that row |
| Database.UpdateById | models/address.js:18-24 | keeps the serials; found iff the data binds, the id parses, the UPDATE is accepted and the row exists; then the stored row is the bound columns with the id kept, and no other row or table changes; otherwise rows are unchanged |
| Database.DeleteById | models/address.js:26-30 | keeps the serials; rows change only when a row is found |
| Database.UpdateValid | models/address.js:18-24 | an update keeps the store valid |
| Database.DeleteValid | models/address.js:26-30 | a delete keeps the store valid |
| Database.UpdateOverwrites | app/models/entrepreneur.js:18-24 | a listed column the PUT body omits becomes NULL in the updated row |
| Database.DeleteRemoves | models/address.js:26-30 | a found row is returned and is no longer stored |
| Database.CreateAgreement | app/routes/entrepreneurs.js:132-135 | no insert and `null` when `bankAgreement` is falsy; otherwise the BankAgreement create, giving its `agreement_id` |
| Database.InsertKeeps | models/address.js:4-10 | a create removes and changes no existing row |
| Database.KeepsTransitive | models/address.js:4-10 | keeping existing rows composes over successive steps |
| Database.FindCreated | models/address.js:4-16 | reading a created row by its new id gives that row |
| Database.FindUpdated | models/address.js:12-24 | reading an updated row gives the updated row |
| Database.FindDeleted | models/address.js:12-30 | reading a deleted id finds nothing |
| Database.ReadRoute | app/routes/entrepreneurs.js:176-187 | GET `/:id` changes no rows; 200 with the row iff found, 404 iff missing, otherwise 500 |
| Database.UpdateRoute | app/routes/entrepreneurs.js:220-231 | PUT `/:id`: 200 iff updated, 404 iff missing, otherwise 400; a 200 answers the stored row (body columns, id kept) and only that row changed; any other answer changes no rows |
| Database.RemoveRoute | app/routes/entrepreneurs.js:254-265 | DELETE `/:id`: 200 iff a row was removed (and it is gone), 404 iff missing, otherwise 500 |
| Database.Store.constructor | db/setup.js:14-37 | a new store is empty, as the tables of a freshly set-up schema are |
| Database.Store.Create | models/address.js:4-10 | the store's new state and answer are `Insert` of its old state |
| Database.Store.Find | models/address.js:12-16 | the store's new state and answer are `FindById` of its old state |
| Database.Store.Update | models/address.js:18-24 | the store's new state and answer are `UpdateById` of its old state |
| Database.Store.Delete | models/address.js:26-30 | the store's new state and answer are `DeleteById` of its old state |
| EntrepreneursRoutes.EntrepreneurData | app/routes/entrepreneurs.js:127-143 | the body without `address`, `passport`, `bankAgreement`, with the three links set last so they override the body's values |
| EntrepreneursRoutes.Post | app/routes/entrepreneurs.js:125-149 | 201 with the created object, or 400 with `{error}` |
| EntrepreneursRoutes.HandlePost | app/routes/entrepreneurs.js:125-149 | the handler's effect on the store and its answer are `Post` |
| EntrepreneursRoutes.EntrepreneurRow | app/routes/entrepreneurs.js:138-143 | the stored entrepreneur row holds its listed columns and id, the three links, and its own columns from the body |
| EntrepreneursRoutes.OwnColumn | app/routes/entrepreneurs.js:138-143 | `gender`, `dob` and `startup_id` come from the body (NULL when absent) |
| EntrepreneursRoutes.Created | app/routes/entrepreneurs.js:125-149 | a 201 means each create succeeded in turn, the links are the new ids, and the answer is the stored row |
| EntrepreneursRoutes.CreatesInOrder | app/routes/entrepreneurs.js:130-143 | the statements issued are INSERT Address, INSERT Passport, INSERT BankAgreement only when supplied, then INSERT Entrepreneur |
| EntrepreneursRoutes.StepsLog | app/routes/entrepreneurs.js:130-135 | the first three steps issue exactly their INSERTs |
| EntrepreneursRoutes.LinksCreatedRows | app/routes/entrepreneurs.js:138-142 | the new entrepreneur's `address_id` and `passport_id` are the new rows' ids and those rows exist; its own columns come from the body |
| EntrepreneursRoutes.AgreementOnlyWhenSupplied | app/routes/entrepreneurs.js:132-142 | `agreement_id` is null iff `bankAgreement` is falsy, and then no agreement row is created; otherwise it names a new, stored agreement |
| EntrepreneursRoutes.KeepsAfterPassport | app/routes/entrepreneurs.js:131-143 | the steps after the passport create keep every row then stored |
| EntrepreneursRoutes.KeepsAfterAddress | app/routes/entrepreneurs.js:130-143 | the steps after the address create keep every row then stored |
| EntrepreneursRoutes.NoRollback | app/routes/entrepreneurs.js:126-148 | whatever the outcome, earlier rows stay, and the address and passport rows created before a failure remain |
| EntrepreneursRoutes.ReadBackCreated | app/routes/entrepreneurs.js:145-187 | GET with the new id returns 200 with the object the POST answered |
| EntrepreneursRoutes.HandleGet | app/routes/entrepreneurs.js:176-187 | the handler is `ReadRoute` on the Entrepreneur table |
| EntrepreneursRoutes.HandlePut | app/routes/entrepreneurs.js:220-231 | the handler is `UpdateRoute` on the Entrepreneur table |
| EntrepreneursRoutes.HandleDelete | app/routes/entrepreneurs.js:254-265 | the handler is `RemoveRoute` on the Entrepreneur table |
| ContributorsRoutes.ContributorData | app/routes/contributors.js:103-117 | the body without `passport`, `bankAgreement`, with the two links set last |
| ContributorsRoutes.Post | app/routes/contributors.js:101-123 | 201 with the created object, or 400 with `{error}` |
| ContributorsRoutes.HandlePost | app/routes/contributors.js:101-123 | the handler's effect on the store and its answer are `Post` |
| ContributorsRoutes.ContributorRow | app/routes/contributors.js:113-117 | the stored contributor row holds its listed columns and id, the two links, and its own columns from the body |
| ContributorsRoutes.OwnColumn | app/routes/contributors.js:113-117 | `gender` and `dob` come from the body (NULL when absent) |
| ContributorsRoutes.Created | app/routes/contributors.js:101-123 | a 201 means each create succeeded in turn, the links are the new ids, and the answer is the stored row |
| ContributorsRoutes.CreatesInOrder | app/routes/contributors.js:106-117 | INSERT Passport, INSERT BankAgreement only when supplied, then INSERT Contributor; no address is created |
| ContributorsRoutes.LinksCreatedRows | app/routes/contributors.js:113-116 | the new contributor's `passport_id` is the new passport's id and that row exists; its own columns come from the body |
| ContributorsRoutes.AgreementOnlyWhenSupplied | app/routes/contributors.js:107-116 | `agreement_id` is null iff `bankAgreement` is falsy, and then no agreement row is created |
| ContributorsRoutes.KeepsAfterPassport | app/routes/contributors.js:106-117 | the steps after the passport create keep every row then stored |
| ContributorsRoutes.NoRollback | app/routes/contributors.js:102-122 | whatever the outcome, earlier rows stay, and the passport row created before a failure remains |
| ContributorsRoutes.ReadBackCreated | app/routes/contributors.js:119-161 | GET with the new id returns 200 with the object the POST answered |
| ContributorsRoutes.HandleGet | app/routes/contributors.js:150-161 | the handler is `ReadRoute` on the Contributor table |
| ContributorsRoutes.HandlePut | app/routes/contributors.js:194-205 | the handler is `UpdateRoute` on the Contributor table |
| ContributorsRoutes.HandleDelete | app/routes/contributors.js:228-239 | the handler is `RemoveRoute` on the Contributor table |

## Left out

- Express wiring is not modelled: mount prefixes, route order and which routers `app/index.js` mounts.
  - `/startup/all` and `/contribution/summary` are registered after the `/:id` routes that shadow them. The model gives the summary handler on its own, as if it were reachable.
  - The `/startup/all` handler itself is not modelled. It only maps the visitor card (`SpecificsRoutes.Card`) over every startup.
  - The security-header middleware is not modelled.
- `jsonwebtoken` signing and verification, `User.authenticate`, and the `basic-auth` header parser are oracles (`verify`, `authenticate`, an optional credential pair).
- The gateway's HTTP transport (`axios`) is an oracle (`post`). Configuration (`config.js`) is the key parameter.
- The database pool is not modelled, and SQL inside `pg` is abstract apart from the int4 parse of ids. There is no concurrency.
- Database failures are an oracle on statements. After a failed INSERT, PostgreSQL's serial sequence may still have advanced, leaving a gap. The model does not advance it.
- The users table behind `User.create/findById/update/delete` is an oracle. So `User.create` writing to `Users` while the others use `"User"` has no modelled consequence.
- `console.log` in the webhook route is not modelled.
- Swagger generation and `app/swagger.js` are not modelled.
- The thin CRUD routers are not modelled: phones, contributions, startups, regions and categories.
- SpecificsRoutes.Summary: amounts and dates are integers (dates as milliseconds since the epoch), not floating point.
  - `setDate(getDate() - 7)` is a fixed seven-day span, so daylight-saving shifts are not modelled.
  - Adding a string amount (string concatenation in JavaScript) is not modelled.
- PaymeService.Tiyin: `Number(...)` reads text as a signed decimal integer only, and arrays and objects through that reading of `String(v)` (so `[]` is 0 and `[5]` is 5). Whitespace, fractions, exponents and hex literals read as NaN here, and `amount * 100` is exact rather than floating point.
- Model methods that `app/routes/specifics.js` calls but no model class defines: `Contribution.findByContributorId`, `Contribution.findByStartupId`, `Contribution.findAll`, `Contribution.exists`, `Entrepreneur.findOne` and `User.findOne`. As the code stands, each call throws a TypeError ("... is not a function"), so the route answers 500. This affects:
  - a contributor's own profile (specifics.js:57);
  - the startup page once the startup is found (:104);
  - the entrepreneur's view of a contribution (:203);
  - `/contribution/all/:id` (:217);
  - the summary (:239).
  The model instead gives these methods their evident meaning (`Catalog`: first match, storage-order filter, existence), so its 200 answers describe the routes as they would behave once the methods exist.
- Sql.ParseInt4: the surrounding whitespace PostgreSQL tolerates is not accepted here.
- Js.Initial: `charAt(0)` takes the first Unicode scalar. For a character outside the BMP, JavaScript would return half a surrogate pair.
- Request bodies are JSON objects. A non-object body, such as an array or a string sent to the webhook or to a POST, is not modelled.
- The asker of `/startup/:id` and `/contribution/:id` is the text of `req.userId`. The middleware that would set it (`authenticateUser`) is unbound in that file and is not modelled.

## Findings

| source | as written | input that shows it | evidently intended | confidence | as-written member | corrected member |
|---|---|---|---|---|---|---|
| app/routes/payments.js:9-14 | `error instanceof PaycomError` names a class that is neither defined nor imported in this file (the module exports only `Paycom`), so the test throws a ReferenceError for every error the router passes on | create-payment while the gateway is unreachable: `createTransaction` throws `PaycomError(-32400, 'System Error')`, and the middleware raises "PaycomError is not defined" instead of answering | a `PaycomError` becomes 400 `{error: message, code}` and any other error goes to `next` | not executed | PaymentsRoutes.HandlePaycomErrorAsWritten, PaymentsRoutes.GatewayErrorNotMapped | PaymentsRoutes.HandlePaycomError, PaymentsRoutes.GatewayFailureIs400 |
