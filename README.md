# Init utility of the collector server, in Dafny

This project models `server/util/init/initUtility.js`, the code the
collector server runs when a page sends its init event:

- `setupCookie` and `setupUserCookie` decide which device cookie and which
  user cookie to hand back. A missing cookie gets a freshly minted token. A
  cookie that passes its auth check is kept. A cookie that fails the check
  causes one retry without a cookie, which mints.
- `sortFeatureByCount` sorts, in place, the versions of every feature of a
  customer ascending by participation count. It uses the stable
  `Array.prototype.sort` with the three-way count comparator. Any failure
  becomes `InvalidArgumentError`, and the features sorted before the
  failure stay sorted.
- `handleUserOnInit` looks up the user and then the customer. An unknown
  customer is `UnauthorizedError`. Otherwise it counts the users on every
  version, sorts, and then either inserts a new user carrying the sorted
  features or syncs the user it found.

The model has four modules:

- `Base` holds the optional values and the two error classes, with
  JavaScript truthiness of an optional string.
- `Features` holds the feature data and the sort. `SortByCount` is the
  stable insertion sort that the comparator defines. `SortPass` is the
  specification of the `for...of` loop.
- `Backend` holds the collaborators: the MongoDB utility and
  `featureManipulator.syncFeatureList`. They form an abstract `Store` class
  with a ghost log of calls. Its contracts follow the tests in
  `server/test/mongoUtility.test.js`.
- `InitUtility` holds the four functions of the file. The cookie
  functions are functions over abstract auth checks and token generators.
  `SortFeatureByCount` is a method over an array. `HandleUserOnInit` is a
  method over the store, proved equal to the reference function `InitRun`.

## Model

| member | source | states |
|---|---|---|
| InitUtility.SetupCookie | server/util/init/initUtility.js:10-26 | no cookie (undefined, null or empty) gives `generateToken(now)`; a cookie that passes `authorized` is returned as is; one that fails it gives `generateToken(now)`, never an error; the recursion terminates because the retry carries no cookie |
| InitUtility.SetupUserCookie | server/util/init/initUtility.js:28-43 | the same three cases with `hashAuthorized`, minting `generateHashToken(hashedUserId)` |
| InitUtility.SetupCookieOrigin | server/util/init/initUtility.js:10-26 | the device cookie handed out is either a minted token or the presented cookie, which passed the check |
| InitUtility.SetupCookieReused | server/util/init/initUtility.js:16-20 | when minted tokens are non-empty and authorized, presenting the cookie handed out returns that same cookie on a later init |
| InitUtility.SetupUserCookieReused | server/util/init/initUtility.js:33-37 | the same for the user cookie |
| Features.Insert | server/util/init/initUtility.js:46-50 | one step of the stable sort: the result is the input plus the element, as a multiset, every entry still counted |
| Features.InsertSorted | server/util/init/initUtility.js:46-50 | inserting by the comparator keeps a list nondecreasing by count |
| Features.SortByCount | server/util/init/initUtility.js:46-53 | `versions.sort(sorter)` as repeated insertion by the comparator; every sorted version still carries its count (what else it promises is the next two lemmas) |
| Features.SortByCountSorted | server/util/init/initUtility.js:46-53 | the sorted versions are nondecreasing by count |
| Features.SortByCountPermutes | server/util/init/initUtility.js:46-53 | the sorted versions are a permutation of the versions, of the same length |
| Features.SortByCountStable | server/util/init/initUtility.js:46-53 | versions with equal counts keep their relative order (the sort is stable) |
| Features.SortByCountOfSorted | server/util/init/initUtility.js:46-53 | a versions list already nondecreasing by count is left exactly as it was |
| Features.SortByCountIdempotent | server/util/init/initUtility.js:46-53 | sorting twice gives the same list as sorting once |
| Features.SortVersions | server/util/init/initUtility.js:53 | sorting one feature keeps its name and leaves it with a versions list, every version counted |
| Features.SortVersionsSorts | server/util/init/initUtility.js:53 | the sorted feature's versions are a permutation of its old versions, nondecreasing by count |
| Features.FirstUnsortable | server/util/init/initUtility.js:52-56 | the first feature whose versions cannot be sorted; it is past the end exactly when every feature can be sorted |
| Features.SortPass | server/util/init/initUtility.js:51-57 | the feature list after the loop: same length, and every feature that has versions has them counted |
| Features.SortPassAt | server/util/init/initUtility.js:52-53 | a feature the loop reaches before any unsortable one is replaced by its sorted version |
| Features.SortPassBeyond | server/util/init/initUtility.js:52-57 | where the loop stops (the end, or a feature without versions) is the first unsortable feature, and from there on the list is unchanged |
| Features.SortPassEffect | server/util/init/initUtility.js:51-57 | the loop sorts every feature before the first unsortable one and leaves that one and the rest untouched (no rollback) |
| Features.SortPassFromEffect | server/util/init/initUtility.js:51-57 | conversely, a list built that way is the result of the loop |
| Features.SortPassSorts | server/util/init/initUtility.js:45-54 | after the loop, each processed feature keeps its name and position, and its versions are a permutation of the old ones, nondecreasing by count |
| Features.SortPassOfSorted | server/util/init/initUtility.js:46-54 | a feature list whose versions are all already nondecreasing by count is left unchanged |
| Features.SortPassIdempotent | server/util/init/initUtility.js:45-58 | running the loop a second time changes nothing |
| InitUtility.SortFeatureByCount | server/util/init/initUtility.js:45-58 | an undefined list fails with `InvalidArgumentError`; otherwise the array becomes `SortPass` of the old one, the call passes exactly when every feature can be sorted, and every failure is `InvalidArgumentError` |
| Backend.FirstMatch | server/test/mongoUtility.test.js:23-34 | the position of the first stored user matching customer, host and uid or cookie, with no match before it |
| Backend.FindUser | server/test/mongoUtility.test.js:48-70 | `getUser` finds nothing exactly when no stored user matches, and otherwise the first one that does |
| Backend.CountVersions | server/test/mongoUtility.test.js:173-181 | every version of a feature gets the count of users on it, in order, nothing else changing |
| Backend.CountFeature | server/test/mongoUtility.test.js:173-181 | a counted feature keeps its name and the number of its versions, and every version carries its count |
| Backend.CountFeatures | server/test/mongoUtility.test.js:173-181 | counting keeps the length of the list and counts every feature of it |
| Backend.CountedFeaturesSortable | server/test/mongoUtility.test.js:173-181 | after counting, every feature has versions and every version a count, so the sort cannot fail |
| Backend.Store.GetUser | server/test/mongoUtility.test.js:23-70 | a missing customer code or hostname is `InvalidArgumentError`; otherwise the matching user or none; only the log changes |
| Backend.Store.GetCustomer | server/test/mongoUtility.test.js:87-127 | a missing code or hostname is `InvalidArgumentError`; an unknown customer is none; a known one comes back as a document with a fresh feature array holding its stored features, or with no array exactly when it has no feature list |
| Backend.Store.GetFeatureUniqueCount | server/test/mongoUtility.test.js:143-196 | an undefined list or one that is not of `{name, versions}` records is `InvalidArgumentError` and is not changed; otherwise every version gets its count in place |
| Backend.Store.InsertNewUser | server/test/mongoUtility.test.js:215-408 | a missing customer code or malformed features is `InvalidArgumentError` and inserts nothing; otherwise the new user is appended and returned, or nothing is returned when the insert reports no record |
| Backend.Store.SyncFeatureList | server/util/init/initUtility.js:74 | the sync returns the reconciled user and is logged |
| InitUtility.AssignRun | server/util/init/initUtility.js:66-76 | the second half of an init starts with the count query on the customer's stored list, and adds at most one user, only when no user was found and the insert reports its record |
| InitUtility.InitRun | server/util/init/initUtility.js:60-77 | an init always starts with `getUser`; it goes on to further calls exactly when customer code and hostname are present; a failed init leaves the users as they were |
| InitUtility.PreparedFeatures | server/util/init/initUtility.js:66-67 | after counting and sorting, the customer's features keep their number, names and versions up to order, every version counted, each versions list nondecreasing by count |
| InitUtility.UnknownCustomerUnauthorized | server/util/init/initUtility.js:61-65 | an unknown customer is `UnauthorizedError` after `getUser` and `getCustomer`, with no count, insert or sync and no user added |
| InitUtility.InitErrors | server/util/init/initUtility.js:60-67 | `InvalidArgumentError` exactly when code or hostname is missing or the customer's document has no feature list or a malformed one; `UnauthorizedError` exactly when the customer is unknown; a failed init assigns nothing and adds no user |
| InitUtility.InitCallOrder | server/util/init/initUtility.js:60-77 | a successful init calls getUser, getCustomer, the count query on the stored feature list, then exactly one of insert (no user found) or sync (user found); the insert gets the customer's features counted and sorted, the sync gets the found user and the customer with those features, and the init returns what that call returned |
| InitUtility.InsertedUserFeatures | server/util/init/initUtility.js:66-71 | the users grow by at most the one inserted record, which carries the given ids and exactly the stored customer's features counted and sorted by count, feature by feature with the same names |
| InitUtility.CountAndSort | server/util/init/initUtility.js:66-67 | the count query then the sort pass exactly when the loaded array exists and is well-formed, leaving it counted and sorted; otherwise `InvalidArgumentError` with the array unchanged; one count query is logged |
| InitUtility.AssignFeatures | server/util/init/initUtility.js:66-76 | counting and sorting the loaded feature array, then inserting or syncing, has the result, users and calls of `AssignRun`; the array ends counted and sorted when it was well-formed and unchanged otherwise; customers are not touched |
| InitUtility.HandleUserOnInit | server/util/init/initUtility.js:60-77 | the whole init has the result, users and call log of `InitRun`, whose properties the lemmas above state; customers are not touched |

## Left out

- Logging through `winston` is not modelled: it has no effect on results.
- The wall clock read by `setupCookie` is the parameter `now`.
- `authorized`, `hashAuthorized`, `generateToken` and `generateHashToken` are not part of this model. They are function parameters, and a check that throws is a check that answers false.
- Asynchrony is not modelled: every `await` is a sequential call.
- A customer document whose `features` field is missing or not an array is stored without a feature list. The count query rejects both with `InvalidArgumentError`. The model logs that query's argument as `None` in both cases, although the source passes a non-array field on as it is.
- Store failures other than input validation are not modelled: a driver or connection error, which `handleUserOnInit` lets propagate unchanged. So `InitErrors` (an error exactly when …) and `InitCallOrder` (a success makes four calls) hold for a store whose calls fail only by validation.
- Backend.Store.tally: the count of users on a version is fixed for the store's lifetime and does not depend on the stored users. A user inserted by one init is not reflected in the counts a later init on the same store reads.
- The internals of the MongoDB utility and of `featureManipulator.syncFeatureList` are not part of this model. The store keeps users and customers abstractly. The count query is an uninterpreted `tally`, and the sync result is an uninterpreted `reconcile`. The sync writes nothing to the store in this model.
- Backend.Matches: the query `getUser` sends (same customer and host, same uid or same cookie) is assumed, since the utility's code is not part of this model. Only the validation and the found/not-found outcomes come from the tests.
- SortFeatureByCount: requires every versions list present to carry counts. The comparator's behaviour on a missing or non-numeric `count` (JavaScript `<` on `undefined`) is left out. In `handleUserOnInit` the count query always attaches counts first.
- Features.Feature: an entry whose `versions` is present but not an array is modelled like a missing `versions`, since both make `sort` throw.
- The in-place update of a feature object's `versions` is modelled as replacing that element of the feature array. Aliasing between feature objects is not modelled.
- AssignFeatures: requires a customer code and hostname, because it models only lines 66-76, which run after `getUser` has rejected a missing one.
- Counts are unbounded naturals and percents unbounded integers, not JavaScript numbers.
