/** The collaborators `handleUserOnInit` awaits: the MongoDB utility
    (`getUser`, `getCustomer`, `getFeatureUniqueCount`, `insertNewUser`) and
    `featureManipulator.syncFeatureList`. Their code is not part of this
    model; their contracts follow server/test/mongoUtility.test.js. The
    state is abstract (the stored users and customers, an uninterpreted
    count query and an uninterpreted reconciliation), and a ghost log
    records every call in the order it was made. */
module Backend {
  import opened Base
  import opened Features

  /** A stored user record. */
  datatype User = User(
    uid: Option<string>,
    cookie: Option<string>,
    customerCode: Option<string>,
    hostname: Option<string>,
    features: seq<Feature>)

  /** A customer configuration as handed to `syncFeatureList`. */
  datatype Customer = Customer(customerCode: string, hostname: string, features: seq<Feature>)

  /** A customer document loaded into memory: its feature list is a mutable
      array, which the count query and the sort update in place, or `null`
      when the document has no feature array. */
  datatype LoadedCustomer = LoadedCustomer(customerCode: string, hostname: string, features: array?<Feature>)

  /** One call on a collaborator, with the arguments it received. */
  datatype Call =
    | GetUser(uid: Option<string>, cookie: Option<string>, customerCode: Option<string>, hostname: Option<string>)
    | GetCustomer(customerCode: Option<string>, hostname: Option<string>)
    | GetFeatureUniqueCount(customerCode: Option<string>, hostname: Option<string>, counted: Option<seq<Feature>>)
    | InsertNewUser(uid: Option<string>, cookie: Option<string>, customerCode: Option<string>,
                    hostname: Option<string>, inserted: seq<Feature>)
    | SyncFeatureList(user: User, customer: Customer)

  /** The record `getUser` looks for: same customer and host, and the same
      uid or the same cookie (only a given uid or cookie can match). */
  predicate Matches(u: User, uid: Option<string>, cookie: Option<string>, code: string, host: string)
  {
    && u.customerCode == Some(code)
    && u.hostname == Some(host)
    && ((Truthy(uid) && u.uid == uid) || (Truthy(cookie) && u.cookie == cookie))
  }

  /** The position of the first stored user that matches, or `|users|`. */
  function FirstMatch(users: seq<User>, uid: Option<string>, cookie: Option<string>, code: string, host: string): (k: nat)
    ensures k <= |users|
    ensures forall i :: 0 <= i < k ==> !Matches(users[i], uid, cookie, code, host)
    ensures k < |users| ==> Matches(users[k], uid, cookie, code, host)
  {
    if users == [] || Matches(users[0], uid, cookie, code, host) then 0
    else 1 + FirstMatch(users[1..], uid, cookie, code, host)
  }

  /** The record `findOne` returns: the first stored user that matches the
      query, or none when no stored user matches. */
  function FindUser(users: seq<User>, uid: Option<string>, cookie: Option<string>, code: string, host: string): (r: Option<User>)
    ensures r.None? <==> forall i :: 0 <= i < |users| ==> !Matches(users[i], uid, cookie, code, host)
    ensures r.Some? ==> r == Some(users[FirstMatch(users, uid, cookie, code, host)])
    ensures r.Some? ==> Matches(r.value, uid, cookie, code, host)
  {
    var k := FirstMatch(users, uid, cookie, code, host);
    if k < |users| then Some(users[k]) else None
  }

  /** One version with the count of users on it attached. */
  function CountVersion(v: Version, tally: (Option<string>, Option<string>, string, string) -> nat,
                        code: Option<string>, host: Option<string>, name: string): (w: Version)
    ensures w.version == v.version && w.percent == v.percent
    ensures w.count == Some(tally(code, host, name, v.version))
  {
    v.(count := Some(tally(code, host, name, v.version)))
  }

  /** A well-formed feature with a count attached to every version. */
  function CountFeature(f: Feature, tally: (Option<string>, Option<string>, string, string) -> nat,
                        code: Option<string>, host: Option<string>): (g: Feature)
    requires WellFormedFeature(f)
    ensures WellFormedFeature(g) && g.name == f.name
    ensures |g.versions.value| == |f.versions.value| && Counted(g.versions.value)
    ensures forall j :: 0 <= j < |g.versions.value| ==>
              g.versions.value[j] == CountVersion(f.versions.value[j], tally, code, host, f.name.value)
  {
    f.(versions := Some(CountVersions(f.versions.value, tally, code, host, f.name.value)))
  }

  /** Every version of one feature with its count attached, in order. */
  function CountVersions(vs: seq<Version>, tally: (Option<string>, Option<string>, string, string) -> nat,
                         code: Option<string>, host: Option<string>, name: string): (ws: seq<Version>)
    ensures |ws| == |vs| && Counted(ws)
    ensures forall j :: 0 <= j < |ws| ==> ws[j] == CountVersion(vs[j], tally, code, host, name)
  {
    if vs == [] then [] else [CountVersion(vs[0], tally, code, host, name)] + CountVersions(vs[1..], tally, code, host, name)
  }

  /** `getFeatureUniqueCount` applied to a well-formed list. */
  function CountFeatures(fs: seq<Feature>, tally: (Option<string>, Option<string>, string, string) -> nat,
                         code: Option<string>, host: Option<string>): (r: seq<Feature>)
    requires WellFormedList(fs)
    ensures |r| == |fs| && WellFormedList(r)
    ensures forall i :: 0 <= i < |r| ==> r[i] == CountFeature(fs[i], tally, code, host)
  {
    if fs == [] then [] else [CountFeature(fs[0], tally, code, host)] + CountFeatures(fs[1..], tally, code, host)
  }

  /** After counting, every version of every feature carries a count, so the
      list can be sorted by count. */
  lemma CountedFeaturesSortable(fs: seq<Feature>, tally: (Option<string>, Option<string>, string, string) -> nat,
                                code: Option<string>, host: Option<string>)
    requires WellFormedList(fs)
    ensures VersionsCounted(CountFeatures(fs, tally, code, host))
    ensures Sortable(CountFeatures(fs, tally, code, host))
  {
    var r := CountFeatures(fs, tally, code, host);
    forall i | 0 <= i < |r|
      ensures r[i].versions.Some? && Counted(r[i].versions.value)
    {
      assert r[i] == CountFeature(fs[i], tally, code, host);
    }
  }

  class Store {
    /** The users collection. */
    var users: seq<User>
    /** The customers collection, keyed by customer code and hostname: each
        document's feature list, or none when it has no feature array. */
    var customers: map<(string, string), Option<seq<Feature>>>
    /** The number of users on a version: customer code, hostname, feature
        name, version label. */
    const tally: (Option<string>, Option<string>, string, string) -> nat
    /** Whether the driver's insert reports the created record. */
    const insertReports: bool
    /** What `syncFeatureList` makes of a found user and the customer. */
    const reconcile: (User, Customer) -> User
    /** Every call made on the collaborators, oldest first. */
    ghost var log: seq<Call>

    constructor (users: seq<User>, customers: map<(string, string), Option<seq<Feature>>>,
                 tally: (Option<string>, Option<string>, string, string) -> nat,
                 insertReports: bool, reconcile: (User, Customer) -> User)
      ensures this.users == users && this.customers == customers
      ensures this.tally == tally && this.insertReports == insertReports && this.reconcile == reconcile
      ensures log == []
    {
      this.users := users;
      this.customers := customers;
      this.tally := tally;
      this.insertReports := insertReports;
      this.reconcile := reconcile;
      log := [];
    }

    /** `getUser(uid, cookie, customerCode, hostname)`: customer code and
        hostname are required; the result is the matching record or none. */
    method GetUser(uid: Option<string>, cookie: Option<string>, code: Option<string>, host: Option<string>)
      returns (r: Result<Option<User>>)
      modifies this`log
      ensures log == old(log) + [Call.GetUser(uid, cookie, code, host)]
      ensures !(Truthy(code) && Truthy(host)) ==> r == Failure(InvalidArgument)
      ensures Truthy(code) && Truthy(host) ==> r == Success(FindUser(users, uid, cookie, code.value, host.value))
    {
      log := log + [Call.GetUser(uid, cookie, code, host)];
      if !(Truthy(code) && Truthy(host)) {
        return Failure(InvalidArgument);
      }
      r := Success(FindUser(users, uid, cookie, code.value, host.value));
    }

    /** `getCustomer(customerCode, hostname)`: both are required; a found
        customer comes back as a document with a fresh feature array holding
        the stored features, or without one when it has none. */
    method GetCustomer(code: Option<string>, host: Option<string>) returns (r: Result<Option<LoadedCustomer>>)
      modifies this`log
      ensures log == old(log) + [Call.GetCustomer(code, host)]
      ensures !(Truthy(code) && Truthy(host)) ==> r == Failure(InvalidArgument)
      ensures Truthy(code) && Truthy(host) ==> r.Success?
      ensures Truthy(code) && Truthy(host) ==>
                (r.value.Some? <==> (code.value, host.value) in customers)
      ensures r.Success? && r.value.Some? ==>
                && r.value.value.customerCode == code.value
                && r.value.value.hostname == host.value
                && (r.value.value.features == null <==> customers[(code.value, host.value)].None?)
                && (r.value.value.features != null ==>
                      && fresh(r.value.value.features)
                      && r.value.value.features[..] == customers[(code.value, host.value)].value)
    {
      log := log + [Call.GetCustomer(code, host)];
      if !(Truthy(code) && Truthy(host)) {
        return Failure(InvalidArgument);
      }
      var key := (code.value, host.value);
      if key !in customers {
        return Success(None);
      }
      var stored := customers[key];
      if stored.None? {
        return Success(Some(LoadedCustomer(code.value, host.value, null)));
      }
      var fs := stored.value;
      var a := new Feature[|fs|](i requires 0 <= i < |fs| => fs[i]);
      r := Success(Some(LoadedCustomer(code.value, host.value, a)));
    }

    /** `getFeatureUniqueCount(customerCode, hostname, features)`: a list
        that is not an array of `{name, versions}` records is rejected before
        anything changes; otherwise every version gets the count of users on
        it, in place. */
    method GetFeatureUniqueCount(code: Option<string>, host: Option<string>, features: array?<Feature>)
      returns (r: Outcome)
      modifies this`log, features
      ensures log == old(log) + [Call.GetFeatureUniqueCount(code, host, if features == null then None else Some(old(features[..])))]
      ensures features == null ==> r == Fail(InvalidArgument)
      ensures features != null && !WellFormedList(old(features[..])) ==>
                r == Fail(InvalidArgument) && features[..] == old(features[..])
      ensures features != null && WellFormedList(old(features[..])) ==>
                r == Pass && features[..] == CountFeatures(old(features[..]), tally, code, host)
    {
      log := log + [Call.GetFeatureUniqueCount(code, host, if features == null then None else Some(features[..]))];
      if features == null || !WellFormedList(features[..]) {
        return Fail(InvalidArgument);
      }
      ghost var before := features[..];
      for i := 0 to features.Length
        modifies features
        invariant forall k :: 0 <= k < i ==> features[k] == CountFeature(before[k], tally, code, host)
        invariant forall k :: i <= k < features.Length ==> features[k] == before[k]
      {
        features[i] := CountFeature(features[i], tally, code, host);
      }
      r := Pass;
    }

    /** `insertNewUser(uid, cookie, customerCode, hostname, features)`: the
        customer code and a well-formed list are required; the inserted
        record comes back, or nothing when the insert reports no record. */
    method InsertNewUser(uid: Option<string>, cookie: Option<string>, code: Option<string>,
                         host: Option<string>, features: seq<Feature>)
      returns (r: Result<Option<User>>)
      modifies this`users, this`log
      ensures log == old(log) + [Call.InsertNewUser(uid, cookie, code, host, features)]
      ensures !(Truthy(code) && WellFormedList(features)) ==>
                r == Failure(InvalidArgument) && users == old(users)
      ensures Truthy(code) && WellFormedList(features) && insertReports ==>
                && r == Success(Some(User(uid, cookie, code, host, features)))
                && users == old(users) + [User(uid, cookie, code, host, features)]
      ensures Truthy(code) && WellFormedList(features) && !insertReports ==>
                r == Success(None) && users == old(users)
    {
      log := log + [Call.InsertNewUser(uid, cookie, code, host, features)];
      if !(Truthy(code) && WellFormedList(features)) {
        return Failure(InvalidArgument);
      }
      if insertReports {
        var u := User(uid, cookie, code, host, features);
        users := users + [u];
        r := Success(Some(u));
      } else {
        r := Success(None);
      }
    }

    /** `featureManipulator.syncFeatureList(user, customer)`. */
    method SyncFeatureList(user: User, customer: Customer) returns (r: User)
      modifies this`log
      ensures log == old(log) + [Call.SyncFeatureList(user, customer)]
      ensures r == reconcile(user, customer)
    {
      log := log + [Call.SyncFeatureList(user, customer)];
      r := reconcile(user, customer);
    }
  }
}
