/** server/util/init/initUtility.js: the identity cookies of an init request
    (`setupCookie`, `setupUserCookie`), the in-place sort of a feature list
    by participation count (`sortFeatureByCount`) and the user/feature
    initialisation (`handleUserOnInit`).

    The auth checks (`authorized`, `hashAuthorized`) and the token
    generators (`generateToken`, `generateHashToken`) are not part of this
    model; they are parameters, a check that throws being a check that
    answers false. The wall-clock time `setupCookie` reads is the parameter
    `now`. */
module InitUtility {
  import opened Base
  import opened Features
  import opened Backend

  /** `setupCookie(cookie)`: without a cookie, a device token minted from the
      time; with a cookie that passes the check, that cookie; with a cookie
      that fails it, a retry without a cookie, which can only mint. The
      retry passes no cookie, so the recursion is one call deep at most. */
  function SetupCookie(cookie: Option<string>, now: nat, authorized: string -> bool,
                       generateToken: nat -> string): (token: string)
    decreases if Truthy(cookie) then 1 else 0
    ensures !Truthy(cookie) ==> token == generateToken(now)
    ensures Truthy(cookie) && authorized(cookie.value) ==> token == cookie.value
    ensures Truthy(cookie) && !authorized(cookie.value) ==> token == generateToken(now)
  {
    if !Truthy(cookie) then
      generateToken(now)
    else if authorized(cookie.value) then
      cookie.value
    else
      SetupCookie(None, now, authorized, generateToken)
  }

  /** `setupUserCookie(hashedUserId, cookie)`: the same decision with the
      hash check, minting from the hashed user id. */
  function SetupUserCookie(hashedUserId: string, cookie: Option<string>, hashAuthorized: string -> bool,
                           generateHashToken: string -> string): (token: string)
    decreases if Truthy(cookie) then 1 else 0
    ensures !Truthy(cookie) ==> token == generateHashToken(hashedUserId)
    ensures Truthy(cookie) && hashAuthorized(cookie.value) ==> token == cookie.value
    ensures Truthy(cookie) && !hashAuthorized(cookie.value) ==> token == generateHashToken(hashedUserId)
  {
    if !Truthy(cookie) then
      generateHashToken(hashedUserId)
    else if hashAuthorized(cookie.value) then
      cookie.value
    else
      SetupUserCookie(hashedUserId, None, hashAuthorized, generateHashToken)
  }

  /** Whatever came in, the device cookie handed out is either the presented
      cookie, which passed the check, or a freshly minted token. */
  lemma SetupCookieOrigin(cookie: Option<string>, now: nat, authorized: string -> bool, generateToken: nat -> string)
    ensures var token := SetupCookie(cookie, now, authorized, generateToken);
            || token == generateToken(now)
            || (Truthy(cookie) && token == cookie.value && authorized(token))
  {
  }

  /** When minted tokens are non-empty and pass the check, presenting the
      device cookie handed out on a later init gets the same cookie back. */
  lemma SetupCookieReused(cookie: Option<string>, now: nat, later: nat, authorized: string -> bool,
                          generateToken: nat -> string)
    requires generateToken(now) != "" && authorized(generateToken(now))
    ensures var token := SetupCookie(cookie, now, authorized, generateToken);
            SetupCookie(Some(token), later, authorized, generateToken) == token
  {
  }

  /** The same for the user cookie. */
  lemma SetupUserCookieReused(hashedUserId: string, cookie: Option<string>, hashAuthorized: string -> bool,
                              generateHashToken: string -> string)
    requires generateHashToken(hashedUserId) != "" && hashAuthorized(generateHashToken(hashedUserId))
    ensures var token := SetupUserCookie(hashedUserId, cookie, hashAuthorized, generateHashToken);
            SetupUserCookie(hashedUserId, Some(token), hashAuthorized, generateHashToken) == token
  {
  }

  /** `sortFeatureByCount(features)`: sorts each feature's versions in place,
      ascending by count, stopping with `InvalidArgumentError` at a list that
      is not iterable or a feature whose versions cannot be sorted; the
      features sorted before that stay sorted. */
  method SortFeatureByCount(features: array?<Feature>) returns (r: Outcome)
    requires features != null ==> VersionsCounted(features[..])
    modifies features
    ensures features == null ==> r == Fail(InvalidArgument)
    ensures features != null ==> features[..] == SortPass(old(features[..]))
    ensures features != null ==> (r == Pass <==> Sortable(old(features[..])))
    ensures r.Fail? ==> r.error == InvalidArgument
  {
    if features == null {
      return Fail(InvalidArgument);
    }
    ghost var before := features[..];
    ghost var after := SortPass(before);
    var i := 0;
    while i < features.Length && features[i].versions.Some?
      invariant i <= FirstUnsortable(before)
      invariant forall k :: 0 <= k < i ==> features[k] == after[k]
      invariant forall k :: i <= k < features.Length ==> features[k] == before[k]
    {
      SortPassAt(before, i);
      features[i] := SortVersions(features[i]);
      i := i + 1;
    }
    SortPassBeyond(before, i);
    assert features[..] == after;
    r := if i == features.Length then Pass else Fail(InvalidArgument);
  }

  /** The feature list a customer's features become once counted and sorted. */
  function Prepared(fs: seq<Feature>, tally: (Option<string>, Option<string>, string, string) -> nat,
                    code: Option<string>, host: Option<string>): (r: seq<Feature>)
    requires WellFormedList(fs)
  {
    CountedFeaturesSortable(fs, tally, code, host);
    SortPass(CountFeatures(fs, tally, code, host))
  }

  /** Feature by feature, the prepared list is the customer's list with every
      version counted and the versions sorted ascending by count: same
      length, same names, same versions up to order, a well-formed list. */
  lemma PreparedFeatures(fs: seq<Feature>, tally: (Option<string>, Option<string>, string, string) -> nat,
                         code: Option<string>, host: Option<string>)
    requires WellFormedList(fs)
    ensures var p := Prepared(fs, tally, code, host);
            && |p| == |fs| && WellFormedList(p)
            && forall i :: 0 <= i < |p| ==>
                 && p[i].name == fs[i].name
                 && Counted(p[i].versions.value)
                 && SortedByCount(p[i].versions.value)
                 && multiset(p[i].versions.value) == multiset(CountFeature(fs[i], tally, code, host).versions.value)
  {
    var c := CountFeatures(fs, tally, code, host);
    CountedFeaturesSortable(fs, tally, code, host);
    var p := SortPass(c);
    forall i | 0 <= i < |p|
      ensures p[i].name == fs[i].name && p[i].versions.Some?
      ensures Counted(p[i].versions.value) && SortedByCount(p[i].versions.value)
      ensures multiset(p[i].versions.value) == multiset(CountFeature(fs[i], tally, code, host).versions.value)
    {
      SortPassSorts(c, i);
    }
  }

  /** What one `handleUserOnInit` does to the store: its result, the users
      collection afterwards and the collaborator calls it made, in order. */
  datatype Run = Run(result: Result<Option<User>>, users: seq<User>, calls: seq<Call>)

  /** The second half of `handleUserOnInit`, once the customer is known:
      count the versions of its stored feature list, sort them, then insert a
      new user with the sorted features when no user was found, or sync the
      found user with the customer. A document without a feature list, or
      with a malformed one, fails at the count query. */
  function AssignRun(users: seq<User>, customerCode: string, hostname: string, stored: Option<seq<Feature>>,
                     tally: (Option<string>, Option<string>, string, string) -> nat,
                     insertReports: bool, reconcile: (User, Customer) -> User, found: Option<User>,
                     uid: Option<string>, cookie: Option<string>, code: Option<string>, host: Option<string>): (run: Run)
    ensures |run.calls| >= 1 && run.calls[0] == Call.GetFeatureUniqueCount(code, host, stored)
    ensures run.users == users || (insertReports && found.None? && |run.users| == |users| + 1 && run.users[..|users|] == users)
  {
    var counting := [Call.GetFeatureUniqueCount(code, host, stored)];
    if stored.None? || !WellFormedList(stored.value) then
      Run(Failure(InvalidArgument), users, counting)
    else
      var p := Prepared(stored.value, tally, code, host);
      match found
      case None =>
        var u := User(uid, cookie, code, host, p);
        var calls := counting + [Call.InsertNewUser(uid, cookie, code, host, p)];
        if insertReports then Run(Success(Some(u)), users + [u], calls)
        else Run(Success(None), users, calls)
      case Some(u) =>
        var sorted := Customer(customerCode, hostname, p);
        Run(Success(Some(reconcile(u, sorted))), users, counting + [Call.SyncFeatureList(u, sorted)])
  }

  /** The decision procedure of `handleUserOnInit` over the store's state:
      getUser, then getCustomer (an unknown customer is unauthorized), then
      the count query, the sort, and an insert of a new user or a sync of
      the found one. Errors of the store calls end the run. */
  function InitRun(users: seq<User>, customers: map<(string, string), Option<seq<Feature>>>,
                   tally: (Option<string>, Option<string>, string, string) -> nat,
                   insertReports: bool, reconcile: (User, Customer) -> User,
                   uid: Option<string>, cookie: Option<string>, code: Option<string>, host: Option<string>): (run: Run)
    ensures |run.calls| >= 1 && run.calls[0] == Call.GetUser(uid, cookie, code, host)
    ensures |run.calls| >= 2 <==> Truthy(code) && Truthy(host)
    ensures run.result.Failure? ==> run.users == users
  {
    var lookups := [Call.GetUser(uid, cookie, code, host)];
    if !(Truthy(code) && Truthy(host)) then
      Run(Failure(InvalidArgument), users, lookups)
    else if (code.value, host.value) !in customers then
      Run(Failure(Unauthorized), users, lookups + [Call.GetCustomer(code, host)])
    else
      var found := FindUser(users, uid, cookie, code.value, host.value);
      var rest := AssignRun(users, code.value, host.value, customers[(code.value, host.value)],
                            tally, insertReports, reconcile, found, uid, cookie, code, host);
      Run(rest.result, rest.users, lookups + [Call.GetCustomer(code, host)] + rest.calls)
  }

  /** A call that assigns features to a user. */
  predicate Assigns(c: Call)
  {
    c.InsertNewUser? || c.SyncFeatureList?
  }

  /** An unknown customer is a hard `UnauthorizedError`: `getUser` has run,
      then `getCustomer`, and nothing is counted, inserted or synced. */
  lemma UnknownCustomerUnauthorized(users: seq<User>, customers: map<(string, string), Option<seq<Feature>>>,
                                    tally: (Option<string>, Option<string>, string, string) -> nat,
                                    insertReports: bool, reconcile: (User, Customer) -> User,
                                    uid: Option<string>, cookie: Option<string>, code: Option<string>, host: Option<string>)
    requires Truthy(code) && Truthy(host) && (code.value, host.value) !in customers
    ensures var run := InitRun(users, customers, tally, insertReports, reconcile, uid, cookie, code, host);
            && run.result == Failure(Unauthorized)
            && run.users == users
            && |run.calls| == 2 && run.calls[0].GetUser? && run.calls[1].GetCustomer?
            && forall i :: 0 <= i < |run.calls| ==> !Assigns(run.calls[i]) && !run.calls[i].GetFeatureUniqueCount?
  {
  }

  /** The errors of an init: `InvalidArgumentError` exactly when the customer
      code or hostname is missing or the customer's document has no feature
      list or a malformed one, `UnauthorizedError` exactly when the customer
      is unknown. A failed init assigns nothing and leaves the users as they
      were. */
  lemma InitErrors(users: seq<User>, customers: map<(string, string), Option<seq<Feature>>>,
                   tally: (Option<string>, Option<string>, string, string) -> nat,
                   insertReports: bool, reconcile: (User, Customer) -> User,
                   uid: Option<string>, cookie: Option<string>, code: Option<string>, host: Option<string>)
    ensures var run := InitRun(users, customers, tally, insertReports, reconcile, uid, cookie, code, host);
            && (run.result == Failure(InvalidArgument) <==>
                  || !(Truthy(code) && Truthy(host))
                  || ((code.value, host.value) in customers
                      && (customers[(code.value, host.value)].None?
                          || !WellFormedList(customers[(code.value, host.value)].value))))
            && (run.result == Failure(Unauthorized) <==>
                  Truthy(code) && Truthy(host) && (code.value, host.value) !in customers)
            && (run.result.Failure? ==>
                  && run.users == users
                  && forall i :: 0 <= i < |run.calls| ==> !Assigns(run.calls[i]))
  {
  }

  /** A successful init makes exactly four calls in a fixed order: getUser,
      getCustomer, the count query on the customer's feature list, and then
      exactly one of insert (when no user was found) or sync (when one was),
      each given the customer's features counted and sorted. Its result is
      what that last call returned. */
  lemma InitCallOrder(users: seq<User>, customers: map<(string, string), Option<seq<Feature>>>,
                      tally: (Option<string>, Option<string>, string, string) -> nat,
                      insertReports: bool, reconcile: (User, Customer) -> User,
                      uid: Option<string>, cookie: Option<string>, code: Option<string>, host: Option<string>)
    ensures var run := InitRun(users, customers, tally, insertReports, reconcile, uid, cookie, code, host);
            run.result.Success? ==>
              && Truthy(code) && Truthy(host)
              && (code.value, host.value) in customers
              && var stored := customers[(code.value, host.value)];
              && stored.Some? && WellFormedList(stored.value)
              && var p := Prepared(stored.value, tally, code, host);
              && |run.calls| == 4
              && run.calls[0] == Call.GetUser(uid, cookie, code, host)
              && run.calls[1] == Call.GetCustomer(code, host)
              && run.calls[2] == Call.GetFeatureUniqueCount(code, host, stored)
              && Assigns(run.calls[3])
              && (run.calls[3].InsertNewUser? <==> FindUser(users, uid, cookie, code.value, host.value).None?)
              && (run.calls[3].SyncFeatureList? ==>
                    && Some(run.calls[3].user) == FindUser(users, uid, cookie, code.value, host.value)
                    && run.calls[3].customer == Customer(code.value, host.value, p)
                    && run.result == Success(Some(reconcile(run.calls[3].user, run.calls[3].customer))))
              && (run.calls[3].InsertNewUser? ==>
                    && run.calls[3] == Call.InsertNewUser(uid, cookie, code, host, p)
                    && run.result == (if insertReports then Success(Some(run.users[|users|])) else Success(None)))
  {
  }

  /** A new user is inserted with the customer's features counted and each
      feature's versions sorted ascending by count; the users collection grows
      by that one record when the insert reports it, and is otherwise kept. */
  lemma InsertedUserFeatures(users: seq<User>, customers: map<(string, string), Option<seq<Feature>>>,
                             tally: (Option<string>, Option<string>, string, string) -> nat,
                             insertReports: bool, reconcile: (User, Customer) -> User,
                             uid: Option<string>, cookie: Option<string>, code: Option<string>, host: Option<string>)
    ensures var run := InitRun(users, customers, tally, insertReports, reconcile, uid, cookie, code, host);
            && (run.users == users || (insertReports && |run.users| == |users| + 1 && run.users[..|users|] == users))
            && (|run.users| == |users| + 1 ==>
                  var u := run.users[|users|];
                  && run.result == Success(Some(u))
                  && u.uid == uid && u.cookie == cookie && u.customerCode == code && u.hostname == host
                  && Truthy(code) && Truthy(host) && (code.value, host.value) in customers
                  && var stored := customers[(code.value, host.value)];
                  && stored.Some? && WellFormedList(stored.value)
                  && u.features == Prepared(stored.value, tally, code, host)
                  && WellFormedList(u.features) && |u.features| == |stored.value|
                  && forall i :: 0 <= i < |u.features| ==>
                       && u.features[i].name == stored.value[i].name
                       && Counted(u.features[i].versions.value)
                       && SortedByCount(u.features[i].versions.value))
  {
    var run := InitRun(users, customers, tally, insertReports, reconcile, uid, cookie, code, host);
    if |run.users| == |users| + 1 {
      PreparedFeatures(customers[(code.value, host.value)].value, tally, code, host);
    }
  }

  /** Lines 66-67 of `handleUserOnInit`: the count query and the sort update
      the customer's feature array in place. The count query rejects a
      missing or malformed list, after which the sort cannot fail. */
  method CountAndSort(store: Store, code: Option<string>, host: Option<string>, features: array?<Feature>)
    returns (r: Outcome)
    modifies store`log, features
    ensures store.log == old(store.log) + [Call.GetFeatureUniqueCount(code, host, if features == null then None else Some(old(features[..])))]
    ensures r == Pass <==> features != null && WellFormedList(old(features[..]))
    ensures r.Fail? ==> r.error == InvalidArgument
    ensures features != null ==>
              features[..] == if WellFormedList(old(features[..]))
                              then Prepared(old(features[..]), store.tally, code, host)
                              else old(features[..])
  {
    ghost var fs := if features == null then [] else features[..];
    var counted := store.GetFeatureUniqueCount(code, host, features);
    if counted.Fail? {
      return counted;
    }
    ghost var c := CountFeatures(fs, store.tally, code, host);
    assert VersionsCounted(c) && Sortable(c) by {
      CountedFeaturesSortable(fs, store.tally, code, host);
    }
    r := SortFeatureByCount(features);
  }

  /** Lines 66-76 of `handleUserOnInit` on a loaded customer: count and sort
      the customer's feature array in place, then insert or sync the user. */
  method AssignFeatures(store: Store, user: Option<User>, customer: LoadedCustomer,
                        uid: Option<string>, cookie: Option<string>, code: Option<string>, host: Option<string>)
    returns (r: Result<Option<User>>)
    requires Truthy(code) && Truthy(host)  // getUser has rejected the rest
    modifies store, customer.features
    ensures store.customers == old(store.customers)
    ensures customer.features != null ==>
              customer.features[..] == if WellFormedList(old(customer.features[..]))
                                       then Prepared(old(customer.features[..]), store.tally, code, host)
                                       else old(customer.features[..])
    ensures var run := AssignRun(old(store.users), customer.customerCode, customer.hostname,
                                 if customer.features == null then None else Some(old(customer.features[..])),
                                 store.tally, store.insertReports, store.reconcile, user, uid, cookie, code, host);
            && r == run.result
            && store.users == run.users
            && store.log == old(store.log) + run.calls
  {
    ghost var log0 := store.log;
    ghost var stored := if customer.features == null then None else Some(customer.features[..]);
    var prepared := CountAndSort(store, code, host, customer.features);
    ghost var calls := [Call.GetFeatureUniqueCount(code, host, stored)];
    if prepared.Fail? {
      return Failure(prepared.error);
    }
    var features := customer.features;
    ghost var p := features[..];
    assert WellFormedList(p) by {
      PreparedFeatures(stored.value, store.tally, code, host);
    }
    if user.None? {
      r := store.InsertNewUser(uid, cookie, code, host, features[..]);
      AppendAssociative(log0, calls, [Call.InsertNewUser(uid, cookie, code, host, p)]);
    } else {
      var synced := store.SyncFeatureList(user.value, Customer(customer.customerCode, customer.hostname, features[..]));
      AppendAssociative(log0, calls, [Call.SyncFeatureList(user.value, Customer(customer.customerCode, customer.hostname, p))]);
      r := Success(Some(synced));
    }
  }

  /** `handleUserOnInit(uid, cookie, customerCode, hostname)` on a store:
      its result, the users afterwards and the calls it makes are those of
      `InitRun`; the customers collection is not touched. */
  method HandleUserOnInit(store: Store, uid: Option<string>, cookie: Option<string>,
                          code: Option<string>, host: Option<string>)
    returns (r: Result<Option<User>>)
    modifies store
    ensures store.customers == old(store.customers)
    ensures var run := InitRun(old(store.users), old(store.customers), store.tally, store.insertReports,
                               store.reconcile, uid, cookie, code, host);
            && r == run.result
            && store.users == run.users
            && store.log == old(store.log) + run.calls
  {
    ghost var log0 := store.log;
    ghost var run := InitRun(store.users, store.customers, store.tally, store.insertReports,
                             store.reconcile, uid, cookie, code, host);
    var found := store.GetUser(uid, cookie, code, host);
    if found.Failure? {
      assert run == Run(Failure(InvalidArgument), store.users, [Call.GetUser(uid, cookie, code, host)]);
      return Failure(found.error);
    }
    var user := found.value;
    var loaded := store.GetCustomer(code, host);
    ghost var calls := [Call.GetUser(uid, cookie, code, host)] + [Call.GetCustomer(code, host)];
    AppendAssociative(log0, [Call.GetUser(uid, cookie, code, host)], [Call.GetCustomer(code, host)]);
    // getUser has already rejected what getCustomer would reject
    assert loaded.Success?;
    if loaded.value.None? {
      assert run == Run(Failure(Unauthorized), store.users, calls);
      return Failure(Unauthorized);
    }
    var customer := loaded.value.value;
    ghost var stored := if customer.features == null then None else Some(customer.features[..]);
    assert customer.customerCode == code.value && customer.hostname == host.value;
    assert stored == store.customers[(code.value, host.value)];
    ghost var rest := AssignRun(store.users, customer.customerCode, customer.hostname, stored,
                                store.tally, store.insertReports, store.reconcile, user, uid, cookie, code, host);
    assert run == Run(rest.result, rest.users, calls + rest.calls);
    r := AssignFeatures(store, user, customer, uid, cookie, code, host);
    AppendAssociative(log0, calls, rest.calls);
  }
}
