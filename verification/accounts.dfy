/** Accounts over the four collections: registration, login, password change,
    the profile view, the admin statistics, and the two account deletions
    that cascade over a user's donations, requests and money donations.

    The collections are sequences of documents held by a `Store`; each
    handler's database calls become steps on those sequences, in the
    handler's order. Password hashing is bcrypt, which this model does not
    open: a `PasswordScheme` supplies the hash and compare operations and the
    random salt is a parameter. */
module Accounts {
  import opened Text
  import opened Records
  import Money

  /** bcrypt's `hash(password, salt)` and `compare(password, hash)`, left
      uninterpreted. */
  datatype PasswordScheme = PasswordScheme(hash: (string, nat) -> string, compare: (string, string) -> bool)

  /** What is assumed of bcrypt where a lemma needs it: a hash is never empty
      and a password matches its own hash. */
  ghost predicate Sound(scheme: PasswordScheme) {
    forall p, salt :: scheme.hash(p, salt) != "" && scheme.compare(p, scheme.hash(p, salt))
  }

  datatype AccountError =
    | EmailTaken        // register: "User with this email already exists"
    | MissingField      // register: a required field is missing or empty
    | UserNotFound      // login, profile, password change and deletions
    | NoPasswordSet     // login: the account was created without a password
    | InvalidPassword   // login and password change: the password does not match
    | IllegalArguments  // password change: bcrypt refuses to compare against no hash

  // ---------------------------------------------------------------------------
  // Lookups and filters: `findOne`, `findById`, `find` and `deleteMany`.
  // ---------------------------------------------------------------------------

  ghost predicate EmailRegistered(users: seq<User>, email: string) {
    exists i :: 0 <= i < |users| && users[i].email == email
  }

  /** No two users share an email (the schema's unique index). */
  ghost predicate UniqueEmails(users: seq<User>) {
    forall i, j :: 0 <= i < |users| && 0 <= j < |users| && users[i].email == users[j].email ==> i == j
  }

  /** No two users share an id. */
  ghost predicate UniqueIds(users: seq<User>) {
    forall i, j :: 0 <= i < |users| && 0 <= j < |users| && users[i].id == users[j].id ==> i == j
  }

  /** `User.findOne({ email })`: position of the first user with that email,
      or `|users|` when there is none. */
  function FindByEmail(users: seq<User>, email: string): (i: nat)
    ensures i <= |users|
    ensures i < |users| ==> users[i].email == email
    ensures forall j :: 0 <= j < i ==> users[j].email != email
    ensures i == |users| <==> !EmailRegistered(users, email)
  {
    if users == [] then 0
    else if users[0].email == email then 0
    else 1 + FindByEmail(users[1..], email)
  }

  /** `User.findById(id)`: position of the user with that id, or `|users|`. */
  function FindById(users: seq<User>, id: nat): (i: nat)
    ensures i <= |users|
    ensures i < |users| ==> users[i].id == id
    ensures i == |users| <==> forall j :: 0 <= j < |users| ==> users[j].id != id
  {
    if users == [] then 0
    else if users[0].id == id then 0
    else 1 + FindById(users[1..], id)
  }

  /** The records `x` of `s` with `owned(x) == wanted`, in their order: a
      `find` of the owned records when `wanted`, what a `deleteMany` of them
      leaves otherwise. */
  function Where<T(==,!new)>(s: seq<T>, owned: T -> bool, wanted: bool): (r: seq<T>)
    ensures |r| <= |s|
    ensures forall i :: 0 <= i < |r| ==> owned(r[i]) == wanted
  {
    if s == [] then []
    else (if owned(s[0]) == wanted then [s[0]] else []) + Where(s[1..], owned, wanted)
  }

  /** `Where` keeps every selected record as often as it occurs, and nothing
      else: a `deleteMany` leaves the other owners' records untouched. */
  lemma {:induction false} WhereCounts<T(!new)>(s: seq<T>, owned: T -> bool, wanted: bool)
    ensures forall x :: multiset(Where(s, owned, wanted))[x] == if owned(x) == wanted then multiset(s)[x] else 0
  {
    if s != [] {
      assert s == [s[0]] + s[1..];
      WhereCounts(s[1..], owned, wanted);
    }
  }

  function DonationOwner(email: string): Donation -> bool {
    (d: Donation) => d.OwnedBy(email)
  }

  function RequestOwner(email: string): MedicineRequest -> bool {
    (q: MedicineRequest) => q.OwnedBy(email)
  }

  function MoneyDonationOwner(email: string): MoneyDonation -> bool {
    (m: MoneyDonation) => m.OwnedBy(email)
  }

  // ---------------------------------------------------------------------------
  // Register and login decisions.
  // ---------------------------------------------------------------------------

  /** `password && password.trim() !== ''`: a password was supplied. */
  predicate SuppliedPassword(password: Option<string>) {
    password.Some? && password.value != "" && Trim(password.value) != ""
  }

  /** The user document has a password (`!user.password` is false). */
  predicate HasStoredPassword(u: User) {
    u.password.Some? && u.password.value != ""
  }

  /** The schema's `required` fields are all present and non-empty. */
  predicate RequiredFieldsPresent(name: string, email: string, mobile: string, address: string) {
    name != "" && email != "" && mobile != "" && address != ""
  }

  /** The document registration saves: the password hashed only when one was
      supplied. */
  function NewUser(id: nat, name: string, email: string, mobile: string, address: string,
                   password: Option<string>, scheme: PasswordScheme, salt: nat): (u: User)
    ensures u.email == email && u.id == id
    ensures u.password.Some? <==> SuppliedPassword(password)
    ensures u.password.Some? ==> u.password == Some(scheme.hash(password.value, salt))
  {
    User(id, name, email, mobile, address,
         if SuppliedPassword(password) then Some(scheme.hash(password.value, salt)) else None)
  }

  /** `POST /api/login`: the user's name and email, or why login fails. */
  function Login(users: seq<User>, email: string, password: string, scheme: PasswordScheme): (r: Result<(string, string), AccountError>)
    ensures r == Err(UserNotFound) <==> !EmailRegistered(users, email)
    ensures r.Ok? ==> r.value == (users[FindByEmail(users, email)].name, email)
    ensures r.Ok? ==> exists u :: u in users && u.email == email && HasStoredPassword(u) && scheme.compare(password, u.password.value)
    ensures UniqueEmails(users) ==> forall u :: u in users && u.email == email ==>
      && (r.Ok? <==> HasStoredPassword(u) && scheme.compare(password, u.password.value))
      && (r == Err(NoPasswordSet) <==> !HasStoredPassword(u))
      && (r == Err(InvalidPassword) <==> HasStoredPassword(u) && !scheme.compare(password, u.password.value))
  {
    var i := FindByEmail(users, email);
    if i == |users| then Err(UserNotFound)
    else
      var user := users[i];
      if !HasStoredPassword(user) then Err(NoPasswordSet)
      else if !scheme.compare(password, user.password.value) then Err(InvalidPassword)
      else Ok((user.name, user.email))
  }

  /** An account registered with a password can log in with it. */
  lemma RegisteredPasswordLogsIn(users: seq<User>, id: nat, name: string, email: string, mobile: string,
                                 address: string, password: Option<string>, scheme: PasswordScheme, salt: nat)
    requires Sound(scheme)
    requires !EmailRegistered(users, email) && SuppliedPassword(password)
    ensures Login(users + [NewUser(id, name, email, mobile, address, password, scheme, salt)], email, password.value, scheme)
            == Ok((name, email))
  {
    var u := NewUser(id, name, email, mobile, address, password, scheme, salt);
    var users' := users + [u];
    assert users'[|users|].email == email;
    assert FindByEmail(users', email) == |users|;
    assert scheme.compare(password.value, scheme.hash(password.value, salt));
  }

  /** An account registered without a password can never log in. */
  lemma PasswordlessAccountNeverLogsIn(users: seq<User>, id: nat, name: string, email: string, mobile: string,
                                       address: string, password: Option<string>, scheme: PasswordScheme, salt: nat,
                                       attempt: string)
    requires !EmailRegistered(users, email) && !SuppliedPassword(password)
    ensures Login(users + [NewUser(id, name, email, mobile, address, password, scheme, salt)], email, attempt, scheme)
            == Err(NoPasswordSet)
  {
    var users' := users + [NewUser(id, name, email, mobile, address, password, scheme, salt)];
    assert users'[|users|].email == email;
    assert FindByEmail(users', email) == |users|;
  }

  /** The password set by a password change is the one login then accepts. */
  lemma ChangedPasswordLogsIn(users: seq<User>, email: string, newPassword: string, scheme: PasswordScheme, salt: nat)
    requires Sound(scheme)
    requires EmailRegistered(users, email)
    ensures var i := FindByEmail(users, email);
      Login(users[i := users[i].(password := Some(scheme.hash(newPassword, salt)))], email, newPassword, scheme).Ok?
  {
    var i := FindByEmail(users, email);
    var users' := users[i := users[i].(password := Some(scheme.hash(newPassword, salt)))];
    assert forall j :: 0 <= j < |users| ==> users'[j].email == users[j].email;
    assert FindByEmail(users', email) == i by {
      FindByEmailSameEmails(users, users', email);
    }
    assert scheme.compare(newPassword, scheme.hash(newPassword, salt));
  }

  /** `findOne` by email only looks at emails. */
  lemma {:induction false} FindByEmailSameEmails(a: seq<User>, b: seq<User>, email: string)
    requires |a| == |b| && forall j :: 0 <= j < |a| ==> a[j].email == b[j].email
    ensures FindByEmail(a, email) == FindByEmail(b, email)
  {
    if a != [] {
      FindByEmailSameEmails(a[1..], b[1..], email);
    }
  }

  /** A deleted account can no longer log in. */
  lemma DeletedAccountCannotLogIn(users: seq<User>, email: string, attempt: string, scheme: PasswordScheme)
    requires UniqueEmails(users) && EmailRegistered(users, email)
    ensures var i := FindByEmail(users, email);
      Login(users[..i] + users[i + 1..], email, attempt, scheme) == Err(UserNotFound)
  {
    RemovedEmailGone(users, FindByEmail(users, email));
  }

  /** With unique emails, removing a user removes its email. */
  lemma RemovedEmailGone(users: seq<User>, i: nat)
    requires i < |users| && UniqueEmails(users)
    ensures !EmailRegistered(users[..i] + users[i + 1..], users[i].email)
  {
    var rest := users[..i] + users[i + 1..];
    forall j | 0 <= j < |rest| ensures rest[j].email != users[i].email {
      if j < i {
        assert rest[j] == users[j];
      } else {
        assert rest[j] == users[j + 1];
      }
    }
  }

  // ---------------------------------------------------------------------------
  // Read-only views.
  // ---------------------------------------------------------------------------

  /** The body of `GET /api/user/profile/:email`. */
  datatype ProfileView = ProfileView(
    name: string,
    email: string,
    mobile: string,
    address: string,
    donations: seq<Donation>,
    requests: seq<MedicineRequest>,
    moneyDonations: seq<MoneyDonation>,
    totalMoneyDonated: int)

  /** The body of `GET /api/admin/stats`. */
  datatype DashboardStats = DashboardStats(
    totalUsers: nat,
    totalDonations: nat,
    totalRequests: nat,
    totalMoneyDonated: int,
    totalMoneyDonations: nat)

  // ---------------------------------------------------------------------------
  // The store.
  // ---------------------------------------------------------------------------

  class Store {
    var users: seq<User>
    var donations: seq<Donation>
    var requests: seq<MedicineRequest>
    var moneyDonations: seq<MoneyDonation>
    /** The next fresh document id. */
    var nextId: nat
    const scheme: PasswordScheme

    ghost predicate Valid()
      reads this
    {
      && UniqueEmails(users)
      && UniqueIds(users)
      && forall i :: 0 <= i < |users| ==> users[i].id < nextId
    }

    constructor (scheme: PasswordScheme)
      ensures Valid() && this.scheme == scheme
      ensures users == [] && donations == [] && requests == [] && moneyDonations == []
    {
      users, donations, requests, moneyDonations := [], [], [], [];
      nextId := 0;
      this.scheme := scheme;
    }

    /** `POST /api/register`. A taken email is refused first; then the
        password is hashed if one was supplied; then saving enforces the
        required fields. Only the user collection changes. */
    method Register(name: string, email: string, mobile: string, address: string,
                    password: Option<string>, salt: nat) returns (r: Result<(), AccountError>)
      requires Valid()
      modifies this
      ensures Valid()
      ensures r == Err(EmailTaken) <==> EmailRegistered(old(users), email)
      ensures r == Err(MissingField) <==>
        !EmailRegistered(old(users), email) && !RequiredFieldsPresent(name, email, mobile, address)
      ensures r.Ok? <==> !EmailRegistered(old(users), email) && RequiredFieldsPresent(name, email, mobile, address)
      ensures r.Ok? ==> users == old(users) + [NewUser(old(nextId), name, email, mobile, address, password, scheme, salt)]
      ensures r.Ok? ==> nextId == old(nextId) + 1
      ensures r.Err? ==> users == old(users) && nextId == old(nextId)
      ensures donations == old(donations) && requests == old(requests) && moneyDonations == old(moneyDonations)
    {
      var existingUser := FindByEmail(users, email);
      if existingUser < |users| {
        return Err(EmailTaken);
      }
      assert !EmailRegistered(users, email);
      var hashedPassword: Option<string> := None;
      if SuppliedPassword(password) {
        hashedPassword := Some(scheme.hash(password.value, salt));
      }
      if !RequiredFieldsPresent(name, email, mobile, address) {
        return Err(MissingField);
      }
      var user := User(nextId, name, email, mobile, address, hashedPassword);
      assert user == NewUser(nextId, name, email, mobile, address, password, scheme, salt);
      Save(user);
      r := Ok(());
    }

    /** `user.save()` for a new user: the document is appended under the next
        fresh id. */
    method Save(user: User)
      requires Valid() && !EmailRegistered(users, user.email) && user.id == nextId
      modifies this
      ensures Valid()
      ensures users == old(users) + [user] && nextId == old(nextId) + 1
      ensures donations == old(donations) && requests == old(requests) && moneyDonations == old(moneyDonations)
    {
      AppendUser(users, user, nextId);
      users := users + [user];
      nextId := nextId + 1;
    }

    /** `PUT /api/user/change-password`. The current password must match the
        stored hash; an account without one cannot be compared against. Only
        that user's password changes. */
    method ChangePassword(email: string, currentPassword: string, newPassword: string, salt: nat)
      returns (r: Result<(), AccountError>)
      requires Valid()
      modifies this
      ensures Valid()
      ensures var i := FindByEmail(old(users), email);
        && (r == Err(UserNotFound) <==> i == |old(users)|)
        && (r == Err(IllegalArguments) <==> i < |old(users)| && old(users)[i].password.None?)
        && (r == Err(InvalidPassword) <==> i < |old(users)| && old(users)[i].password.Some?
                                           && !scheme.compare(currentPassword, old(users)[i].password.value))
        && (r.Ok? <==> i < |old(users)| && old(users)[i].password.Some?
                       && scheme.compare(currentPassword, old(users)[i].password.value))
        && (r.Ok? ==> users == old(users)[i := old(users)[i].(password := Some(scheme.hash(newPassword, salt)))])
      ensures r.Err? ==> users == old(users)
      ensures nextId == old(nextId)
      ensures donations == old(donations) && requests == old(requests) && moneyDonations == old(moneyDonations)
    {
      var i := FindByEmail(users, email);
      if i == |users| {
        return Err(UserNotFound);
      }
      var user := users[i];
      if user.password.None? {
        return Err(IllegalArguments);
      }
      if !scheme.compare(currentPassword, user.password.value) {
        return Err(InvalidPassword);
      }
      users := users[i := user.(password := Some(scheme.hash(newPassword, salt)))];
      r := Ok(());
    }

    /** `DELETE /api/user/delete`. After checking the user exists it runs
        the cascade on that user. */
    method DeleteAccount(email: string) returns (r: Result<(), AccountError>)
      requires Valid()
      modifies this
      ensures Valid()
      ensures r.Err? <==> !EmailRegistered(old(users), email)
      ensures r.Err? ==> r.error == UserNotFound && users == old(users) && donations == old(donations)
                         && requests == old(requests) && moneyDonations == old(moneyDonations)
      ensures r.Ok? ==> donations == Where(old(donations), DonationOwner(email), false)
      ensures r.Ok? ==> requests == Where(old(requests), RequestOwner(email), false)
      ensures r.Ok? ==> moneyDonations == Where(old(moneyDonations), MoneyDonationOwner(email), false)
      ensures r.Ok? ==> var i := FindByEmail(old(users), email); users == old(users)[..i] + old(users)[i + 1..]
      ensures r.Ok? ==> !EmailRegistered(users, email)
      ensures nextId == old(nextId)
    {
      var i := FindByEmail(users, email);
      if i == |users| {
        return Err(UserNotFound);
      }
      DeleteUserAt(i);
      r := Ok(());
    }

    /** `DELETE /api/admin/user/:id`. The same cascade as `DeleteAccount`,
        keyed by the email of the user with that id. */
    method AdminDeleteUser(id: nat) returns (r: Result<(), AccountError>)
      requires Valid()
      modifies this
      ensures Valid()
      ensures r.Err? <==> forall j :: 0 <= j < |old(users)| ==> old(users)[j].id != id
      ensures r.Err? ==> r.error == UserNotFound && users == old(users) && donations == old(donations)
                         && requests == old(requests) && moneyDonations == old(moneyDonations)
      ensures r.Ok? ==> var i := FindById(old(users), id); var email := old(users)[i].email;
        && donations == Where(old(donations), DonationOwner(email), false)
        && requests == Where(old(requests), RequestOwner(email), false)
        && moneyDonations == Where(old(moneyDonations), MoneyDonationOwner(email), false)
        && users == old(users)[..i] + old(users)[i + 1..]
        && !EmailRegistered(users, email)
      ensures nextId == old(nextId)
    {
      var i := FindById(users, id);
      if i == |users| {
        return Err(UserNotFound);
      }
      DeleteUserAt(i);
      r := Ok(());
    }

    /** The cascade both deletions run for the user at position `i`: delete,
        in order, the donations, requests and money donations carrying that
        user's email, then the user. Records of other emails stay, in order. */
    method DeleteUserAt(i: nat)
      requires Valid() && i < |users|
      modifies this
      ensures Valid()
      ensures var email := old(users)[i].email;
        && donations == Where(old(donations), DonationOwner(email), false)
        && requests == Where(old(requests), RequestOwner(email), false)
        && moneyDonations == Where(old(moneyDonations), MoneyDonationOwner(email), false)
        && users == old(users)[..i] + old(users)[i + 1..]
        && !EmailRegistered(users, email)
      ensures nextId == old(nextId)
    {
      var email := users[i].email;
      donations := Where(donations, DonationOwner(email), false);
      requests := Where(requests, RequestOwner(email), false);
      moneyDonations := Where(moneyDonations, MoneyDonationOwner(email), false);
      RemoveUser(users, i, nextId);
      users := users[..i] + users[i + 1..];
    }

    /** `GET /api/user/profile/:email`: the user's details, their records
        of each kind, and the `reduce` total of their completed money
        donations. */
    function Profile(email: string): (r: Result<ProfileView, AccountError>)
      reads this
      ensures r.Err? <==> !EmailRegistered(users, email)
      ensures r.Err? ==> r.error == UserNotFound
      ensures r.Ok? ==> var u := users[FindByEmail(users, email)];
        r.value.name == u.name && r.value.email == email && r.value.mobile == u.mobile && r.value.address == u.address
      ensures r.Ok? ==> r.value.donations == Where(donations, DonationOwner(email), true)
      ensures r.Ok? ==> r.value.requests == Where(requests, RequestOwner(email), true)
      ensures r.Ok? ==> r.value.moneyDonations == Where(moneyDonations, MoneyDonationOwner(email), true)
      ensures r.Ok? ==> r.value.totalMoneyDonated == Money.SumAmounts(Money.MatchCompleted(r.value.moneyDonations))
    {
      var i := FindByEmail(users, email);
      if i == |users| then Err(UserNotFound)
      else
        var user := users[i];
        var mine := Where(moneyDonations, MoneyDonationOwner(email), true);
        Money.TotalIsSumOfCompleted(mine);
        Ok(ProfileView(user.name, user.email, user.mobile, user.address,
                       Where(donations, DonationOwner(email), true),
                       Where(requests, RequestOwner(email), true),
                       mine,
                       Money.TotalMoneyDonated(mine)))
    }

    /** `GET /api/admin/stats`: the collection sizes and the completed total
        from the aggregation pipeline. */
    function Stats(): (r: DashboardStats)
      reads this
      ensures r.totalMoneyDonated == Money.TotalMoneyDonated(moneyDonations)
      ensures r.totalUsers == |users| && r.totalDonations == |donations| && r.totalRequests == |requests|
      ensures r.totalMoneyDonations == |moneyDonations|
    {
      Money.ReduceAgreesWithPipeline(moneyDonations);
      DashboardStats(|users|, |donations|, |requests|, Money.PipelineTotal(moneyDonations), |moneyDonations|)
    }
  }

  /** Appending a user with a fresh email and an id above every stored id
      keeps emails and ids unique. */
  lemma AppendUser(users: seq<User>, u: User, bound: nat)
    requires UniqueEmails(users) && UniqueIds(users)
    requires forall j :: 0 <= j < |users| ==> users[j].id < bound
    requires !EmailRegistered(users, u.email) && u.id == bound
    ensures var users' := users + [u];
      && UniqueEmails(users') && UniqueIds(users')
      && forall j :: 0 <= j < |users'| ==> users'[j].id < bound + 1
  {
    var users' := users + [u];
    assert forall j :: 0 <= j < |users| ==> users'[j] == users[j];
    assert users'[|users|] == u;
  }

  /** Removing one user keeps emails and ids unique and ids below the bound,
      and removes that user's email from the collection. */
  lemma RemoveUser(users: seq<User>, i: nat, bound: nat)
    requires i < |users| && UniqueEmails(users) && UniqueIds(users)
    requires forall j :: 0 <= j < |users| ==> users[j].id < bound
    ensures var rest := users[..i] + users[i + 1..];
      && UniqueEmails(rest) && UniqueIds(rest)
      && (forall j :: 0 <= j < |rest| ==> rest[j].id < bound)
      && !EmailRegistered(rest, users[i].email)
  {
    var rest := users[..i] + users[i + 1..];
    assert forall j :: 0 <= j < |rest| ==> rest[j] == users[if j < i then j else j + 1];
    RemovedEmailGone(users, i);
  }
}
