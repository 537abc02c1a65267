/**
 * The owner's account, created two ways: `packages/db/src/bootstrap.ts` in one transaction, and
 * `packages/db/src/seed.ts` write by write with nothing but the order of the writes to protect it.
 */
module OwnerAccount {

  type Id = nat

  datatype Organisation = Organisation(name: string, slug: string)
  datatype User = User(name: string, email: string)
  datatype Role = Owner | OtherRole(name: string)
  datatype Status = Active | OtherStatus(name: string)
  datatype Member = Member(role: Role, status: Status)
  datatype Account = Account(userId: Id, provider: string, password: string)

  const CREDENTIAL_PROVIDER := "credential"

  datatype Rows = Rows(
    organisations: map<Id, Organisation>, users: map<Id, User>, members: map<(Id, Id), Member>, accounts: map<Id, Account>)

  datatype Config = Config(organisationName: string, slug: string, email: string, ownerName: string, password: string)

  /** The ids a run would use for rows it has to create. */
  datatype Ids = Ids(organisation: Id, user: Id, account: Id)

  // ---------------------------------------------------------------- what the schema guarantees

  ghost predicate SlugsUnique(rows: Rows) {
    forall a, b :: a in rows.organisations && b in rows.organisations && rows.organisations[a].slug == rows.organisations[b].slug ==> a == b
  }

  ghost predicate EmailsUnique(rows: Rows) {
    forall a, b :: a in rows.users && b in rows.users && rows.users[a].email == rows.users[b].email ==> a == b
  }

  ghost predicate ForeignKeys(rows: Rows) {
    (forall k :: k in rows.members ==> k.0 in rows.organisations && k.1 in rows.users) &&
    (forall a :: a in rows.accounts ==> rows.accounts[a].userId in rows.users)
  }

  ghost predicate Valid(rows: Rows) { SlugsUnique(rows) && EmailsUnique(rows) && ForeignKeys(rows) }

  predicate Unused(rows: Rows, ids: Ids) {
    ids.organisation !in rows.organisations && ids.user !in rows.users && ids.account !in rows.accounts
  }

  // ---------------------------------------------------------------- the four steps

  predicate HasSlug(rows: Rows, slug: string) {
    exists o | o in rows.organisations :: rows.organisations[o].slug == slug
  }

  predicate HasEmail(rows: Rows, email: string) {
    exists u | u in rows.users :: rows.users[u].email == email
  }

  predicate HasAccount(rows: Rows, user: Id) {
    exists a | a in rows.accounts :: rows.accounts[a].userId == user
  }

  /** The id the organisation has, or will be given. */
  ghost function OrganisationId(rows: Rows, config: Config, ids: Ids): Id {
    if HasSlug(rows, config.slug) then var o :| o in rows.organisations && rows.organisations[o].slug == config.slug; o
    else ids.organisation
  }

  ghost function UserId(rows: Rows, config: Config, ids: Ids): Id {
    if HasEmail(rows, config.email) then var u :| u in rows.users && rows.users[u].email == config.email; u
    else ids.user
  }

  function WithOrganisation(rows: Rows, config: Config, ids: Ids): Rows {
    if HasSlug(rows, config.slug) then rows
    else rows.(organisations := rows.organisations[ids.organisation := Organisation(config.organisationName, config.slug)])
  }

  function WithUser(rows: Rows, config: Config, ids: Ids): Rows {
    if HasEmail(rows, config.email) then rows
    else rows.(users := rows.users[ids.user := User(config.ownerName, config.email)])
  }

  /** An existing membership that is not an active owner's is refused. */
  predicate Refuses(rows: Rows, organisation: Id, user: Id) {
    (organisation, user) in rows.members && rows.members[(organisation, user)] != Member(Owner, Active)
  }

  function WithMember(rows: Rows, organisation: Id, user: Id): Rows {
    if (organisation, user) in rows.members then rows
    else rows.(members := rows.members[(organisation, user) := Member(Owner, Active)])
  }

  /** A credential, and only for a user with no account row of any kind. */
  function WithCredential(rows: Rows, config: Config, ids: Ids, user: Id): Rows {
    if HasAccount(rows, user) then rows
    else rows.(accounts := rows.accounts[ids.account := Account(user, CREDENTIAL_PROVIDER, config.password)])
  }

  // ---------------------------------------------------------------- the two orders

  datatype Outcome = Outcome(rows: Rows, refused: bool)

  /** Organisation, user, membership, credential, in one transaction: a refusal rolls everything back. */
  ghost function Bootstrap(rows: Rows, config: Config, ids: Ids): Outcome {
    var r1 := WithOrganisation(rows, config, ids);
    var o := OrganisationId(rows, config, ids);
    var r2 := WithUser(r1, config, ids);
    var u := UserId(r1, config, ids);
    if Refuses(r2, o, u) then Outcome(rows, true)
    else Outcome(WithCredential(WithMember(r2, o, u), config, ids, u), false)
  }

  /** The seed's rows after its first `steps` steps: user, organisation, membership, credential. */
  ghost function SeedUpTo(rows: Rows, config: Config, ids: Ids, steps: nat): Outcome {
    if steps == 0 then Outcome(rows, false)
    else
      var r1 := WithUser(rows, config, ids);
      var u := UserId(rows, config, ids);
      if steps == 1 then Outcome(r1, false)
      else
        var r2 := WithOrganisation(r1, config, ids);
        var o := OrganisationId(r1, config, ids);
        if steps == 2 then Outcome(r2, false)
        else if Refuses(r2, o, u) then Outcome(r2, true)
        else
          var r3 := WithMember(r2, o, u);
          if steps == 3 then Outcome(r3, false)
          else Outcome(WithCredential(r3, config, ids, u), false)
  }

  const ALL_STEPS: nat := 4

  ghost function Seed(rows: Rows, config: Config, ids: Ids): Outcome { SeedUpTo(rows, config, ids, ALL_STEPS) }

  // ---------------------------------------------------------------- the rows, updated in place

  class Database {
    var rows: Rows

    constructor (rows: Rows)
      ensures this.rows == rows
    {
      this.rows := rows;
    }

    method EnsureOrganisation(config: Config, ids: Ids) returns (id: Id, created: bool)
      requires Valid(rows)
      modifies this
      ensures rows == WithOrganisation(old(rows), config, ids) && id == OrganisationId(old(rows), config, ids)
      ensures created <==> !HasSlug(old(rows), config.slug)
    {
      if o :| o in rows.organisations && rows.organisations[o].slug == config.slug { return o, false; }
      rows := rows.(organisations := rows.organisations[ids.organisation := Organisation(config.organisationName, config.slug)]);
      return ids.organisation, true;
    }

    method EnsureUserRow(config: Config, ids: Ids) returns (id: Id, created: bool)
      requires Valid(rows)
      modifies this
      ensures rows == WithUser(old(rows), config, ids) && id == UserId(old(rows), config, ids)
      ensures created <==> !HasEmail(old(rows), config.email)
    {
      if u :| u in rows.users && rows.users[u].email == config.email { return u, false; }
      rows := rows.(users := rows.users[ids.user := User(config.ownerName, config.email)]);
      return ids.user, true;
    }

    method EnsureOwnerMembership(organisation: Id, user: Id) returns (refused: bool)
      modifies this
      ensures refused == Refuses(old(rows), organisation, user)
      ensures rows == if refused then old(rows) else WithMember(old(rows), organisation, user)
    {
      if (organisation, user) in rows.members {
        var existing := rows.members[(organisation, user)];
        return existing.role != Owner || existing.status != Active;
      }
      rows := rows.(members := rows.members[(organisation, user) := Member(Owner, Active)]);
      return false;
    }

    method EnsureOwnerCredential(config: Config, ids: Ids, user: Id) returns (passwordSet: bool)
      modifies this
      ensures rows == WithCredential(old(rows), config, ids, user) && passwordSet == !HasAccount(old(rows), user)
    {
      if a :| a in rows.accounts && rows.accounts[a].userId == user { return false; }
      rows := rows.(accounts := rows.accounts[ids.account := Account(user, CREDENTIAL_PROVIDER, config.password)]);
      return true;
    }

    method RunBootstrap(config: Config, ids: Ids) returns (refused: bool)
      requires Valid(rows) && Unused(rows, ids)
      modifies this
      ensures Outcome(rows, refused) == Bootstrap(old(rows), config, ids)
    {
      var before := rows;
      var organisation, organisationCreated := EnsureOrganisation(config, ids);
      StepsKeepValid(before, config, ids);
      var user, userCreated := EnsureUserRow(config, ids);
      refused := EnsureOwnerMembership(organisation, user);
      if refused {
        rows := before;
        return;
      }
      var passwordSet := EnsureOwnerCredential(config, ids, user);
    }

    method SeedOwnerAccount(config: Config, ids: Ids) returns (refused: bool)
      requires Valid(rows) && Unused(rows, ids)
      modifies this
      ensures Outcome(rows, refused) == Seed(old(rows), config, ids)
    {
      StepsKeepValid(rows, config, ids);
      var user, userCreated := EnsureUserRow(config, ids);
      if found :| found in rows.organisations && rows.organisations[found].slug == config.slug {
        refused := EnsureOwnerMembership(found, user);
        if !refused {
          var passwordSet := EnsureOwnerCredential(config, ids, user);
        }
        return;
      }
      var organisation, organisationCreated := EnsureOrganisation(config, ids);
      refused := EnsureOwnerMembership(organisation, user);
      if !refused {
        var passwordSet := EnsureOwnerCredential(config, ids, user);
      }
    }
  }

  lemma StepsKeepValid(rows: Rows, config: Config, ids: Ids)
    requires Valid(rows) && Unused(rows, ids)
    ensures Valid(WithOrganisation(rows, config, ids)) && Valid(WithUser(rows, config, ids))
  {
  }

  // ---------------------------------------------------------------- what each step leaves alone

  lemma OrganisationIdIs(rows: Rows, config: Config, ids: Ids, o: Id)
    requires SlugsUnique(rows) && o in rows.organisations && rows.organisations[o].slug == config.slug
    ensures OrganisationId(rows, config, ids) == o
  {
  }

  lemma UserIdIs(rows: Rows, config: Config, ids: Ids, u: Id)
    requires EmailsUnique(rows) && u in rows.users && rows.users[u].email == config.email
    ensures UserId(rows, config, ids) == u
  {
  }

  /** The organisation step reads and writes organisations only. */
  lemma OrganisationStep(rows: Rows, rows': Rows, config: Config, ids: Ids)
    requires SlugsUnique(rows) && rows'.organisations == rows.organisations
    ensures OrganisationId(rows', config, ids) == OrganisationId(rows, config, ids)
    ensures WithOrganisation(rows', config, ids) == rows'.(organisations := WithOrganisation(rows, config, ids).organisations)
  {
    assert HasSlug(rows', config.slug) == HasSlug(rows, config.slug);
  }

  lemma UserStep(rows: Rows, rows': Rows, config: Config, ids: Ids)
    requires EmailsUnique(rows) && rows'.users == rows.users
    ensures UserId(rows', config, ids) == UserId(rows, config, ids)
    ensures WithUser(rows', config, ids) == rows'.(users := WithUser(rows, config, ids).users)
  {
    assert HasEmail(rows', config.email) == HasEmail(rows, config.email);
  }

  /** A refusal is about rows that were there before the run: nothing had to be created to reach it. */
  lemma RefusalIsAboutOldRows(rows: Rows, config: Config, ids: Ids)
    requires Valid(rows) && Unused(rows, ids)
    requires (OrganisationId(rows, config, ids), UserId(rows, config, ids)) in rows.members
    ensures HasSlug(rows, config.slug) && HasEmail(rows, config.email)
  {
  }

  /** The rows once the first `steps` steps are through, said field by field. */
  ghost function Through(rows: Rows, config: Config, ids: Ids, steps: nat): Rows {
    var o, u := OrganisationId(rows, config, ids), UserId(rows, config, ids);
    Rows(
      if steps >= 2 then WithOrganisation(rows, config, ids).organisations else rows.organisations,
      if steps >= 1 then WithUser(rows, config, ids).users else rows.users,
      if steps >= 3 then WithMember(rows, o, u).members else rows.members,
      if steps >= 4 then WithCredential(rows, config, ids, u).accounts else rows.accounts)
  }

  ghost predicate WouldRefuse(rows: Rows, config: Config, ids: Ids) {
    Refuses(rows, OrganisationId(rows, config, ids), UserId(rows, config, ids))
  }

  lemma SeedFieldByField(rows: Rows, config: Config, ids: Ids, steps: nat)
    requires Valid(rows) && Unused(rows, ids)
    ensures SeedUpTo(rows, config, ids, steps) ==
      if WouldRefuse(rows, config, ids) then Outcome(rows, steps >= 3) else Outcome(Through(rows, config, ids, steps), false)
  {
    var r1 := WithUser(rows, config, ids);
    OrganisationStep(rows, r1, config, ids);
    var r2 := WithOrganisation(r1, config, ids);
    var o, u := OrganisationId(rows, config, ids), UserId(rows, config, ids);
    assert Refuses(r2, o, u) == Refuses(rows, o, u);
    if WouldRefuse(rows, config, ids) { RefusalIsAboutOldRows(rows, config, ids); }
    var r3 := WithMember(r2, o, u);
    assert HasAccount(r3, u) == HasAccount(rows, u);
  }

  lemma BootstrapFieldByField(rows: Rows, config: Config, ids: Ids)
    requires Valid(rows) && Unused(rows, ids)
    ensures Bootstrap(rows, config, ids) ==
      if WouldRefuse(rows, config, ids) then Outcome(rows, true) else Outcome(Through(rows, config, ids, ALL_STEPS), false)
  {
    var r1 := WithOrganisation(rows, config, ids);
    UserStep(rows, r1, config, ids);
    var r2 := WithUser(r1, config, ids);
    var o, u := OrganisationId(rows, config, ids), UserId(rows, config, ids);
    assert Refuses(r2, o, u) == Refuses(rows, o, u);
    var r3 := WithMember(r2, o, u);
    assert HasAccount(r3, u) == HasAccount(rows, u);
  }

  /**
   * The order of the seed's writes is protection enough: without a transaction it refuses on exactly the databases
   * the bootstrap refuses on, leaves those wholly unchanged, and on every other ends in the very same rows.
   */
  lemma SeedMatchesBootstrap(rows: Rows, config: Config, ids: Ids)
    requires Valid(rows) && Unused(rows, ids)
    ensures Seed(rows, config, ids) == Bootstrap(rows, config, ids)
    ensures Seed(rows, config, ids).refused ==> Seed(rows, config, ids).rows == rows
  {
    SeedFieldByField(rows, config, ids, ALL_STEPS);
    BootstrapFieldByField(rows, config, ids);
  }

  // ---------------------------------------------------------------- crashes

  /** Ids of a run that crashed where it got to, and of the run that carried on after it. */
  function Merge(first: Ids, steps: nat, second: Ids): Ids {
    Ids(if steps >= 2 then first.organisation else second.organisation,
        if steps >= 1 then first.user else second.user,
        if steps >= 4 then first.account else second.account)
  }

  function Max(a: nat, b: nat): nat { if a > b then a else b }

  lemma NewRowsArePresent(rows: Rows, config: Config, ids: Ids)
    ensures OrganisationId(rows, config, ids) in WithOrganisation(rows, config, ids).organisations
    ensures UserId(rows, config, ids) in WithUser(rows, config, ids).users
    ensures forall o :: o in rows.organisations ==> o in WithOrganisation(rows, config, ids).organisations
    ensures forall u :: u in rows.users ==> u in WithUser(rows, config, ids).users
  {
  }

  lemma ThroughKeepsForeignKeys(rows: Rows, config: Config, ids: Ids, steps: nat)
    requires ForeignKeys(rows)
    ensures ForeignKeys(Through(rows, config, ids, steps))
  {
    NewRowsArePresent(rows, config, ids);
    var o, u := OrganisationId(rows, config, ids), UserId(rows, config, ids);
    var end := Through(rows, config, ids, steps);
    forall k | k in end.members ensures k.0 in end.organisations && k.1 in end.users {
      assert k in rows.members || (steps >= 3 && k == (o, u));
    }
    forall a | a in end.accounts ensures end.accounts[a].userId in end.users {
      assert (a in rows.accounts && end.accounts[a] == rows.accounts[a]) || (steps >= 4 && end.accounts[a].userId == u);
    }
  }

  lemma ThroughKeepsValid(rows: Rows, config: Config, ids: Ids, steps: nat)
    requires Valid(rows) && Unused(rows, ids)
    ensures Valid(Through(rows, config, ids, steps))
    ensures rows.organisations.Keys <= Through(rows, config, ids, steps).organisations.Keys
    ensures rows.users.Keys <= Through(rows, config, ids, steps).users.Keys
    ensures rows.accounts.Keys <= Through(rows, config, ids, steps).accounts.Keys
  {
    StepsKeepValid(rows, config, ids);
    ThroughKeepsForeignKeys(rows, config, ids, steps);
    var end := Through(rows, config, ids, steps);
    assert SlugsUnique(WithOrganisation(rows, config, ids)) && EmailsUnique(WithUser(rows, config, ids));
    assert SlugsUnique(end) && EmailsUnique(end);
  }

  /** Where the ids a re-run settles on come from. */
  lemma IdsAfterCrash(rows: Rows, config: Config, a: Ids, i: nat, b: Ids)
    requires Valid(rows) && Unused(rows, a) && i <= ALL_STEPS && !WouldRefuse(rows, config, a)
    requires Unused(Through(rows, config, a, i), b)
    ensures var mid, m := Through(rows, config, a, i), Merge(a, i, b);
      Unused(rows, m) &&
      OrganisationId(mid, config, b) == OrganisationId(rows, config, m) && UserId(mid, config, b) == UserId(rows, config, m)
  {
    var mid, m := Through(rows, config, a, i), Merge(a, i, b);
    ThroughKeepsValid(rows, config, a, i);
    if i >= 2 && !HasSlug(rows, config.slug) { OrganisationIdIs(mid, config, b, a.organisation); }
    if i < 2 || HasSlug(rows, config.slug) { OrganisationStep(rows, mid, config, b); SameOrganisationId(rows, config, b, m); }
    if i >= 1 && !HasEmail(rows, config.email) { UserIdIs(mid, config, b, a.user); }
    if i < 1 || HasEmail(rows, config.email) { UserStep(rows, mid, config, b); SameUserId(rows, config, b, m); }
  }

  lemma SameOrganisationId(rows: Rows, config: Config, a: Ids, b: Ids)
    requires SlugsUnique(rows) && (HasSlug(rows, config.slug) || a.organisation == b.organisation)
    ensures OrganisationId(rows, config, a) == OrganisationId(rows, config, b)
  {
  }

  lemma SameUserId(rows: Rows, config: Config, a: Ids, b: Ids)
    requires EmailsUnique(rows) && (HasEmail(rows, config.email) || a.user == b.user)
    ensures UserId(rows, config, a) == UserId(rows, config, b)
  {
  }

  lemma RefusalIgnoresIds(rows: Rows, config: Config, a: Ids, b: Ids)
    requires Valid(rows) && Unused(rows, a) && Unused(rows, b)
    ensures WouldRefuse(rows, config, a) == WouldRefuse(rows, config, b)
  {
    if WouldRefuse(rows, config, a) {
      RefusalIsAboutOldRows(rows, config, a);
      SameOrganisationId(rows, config, a, b);
      SameUserId(rows, config, a, b);
    }
    if WouldRefuse(rows, config, b) {
      RefusalIsAboutOldRows(rows, config, b);
      SameOrganisationId(rows, config, a, b);
      SameUserId(rows, config, a, b);
    }
  }

  /** A second run may start where a first one stopped. */
  ghost predicate Continues(rows: Rows, config: Config, a: Ids, i: nat, b: Ids) {
    Valid(rows) && Unused(rows, a) && i <= ALL_STEPS && !WouldRefuse(rows, config, a) && Unused(Through(rows, config, a, i), b)
  }

  lemma OrganisationsMerge(rows: Rows, config: Config, a: Ids, i: nat, b: Ids, j: nat)
    ensures var mid, m := Through(rows, config, a, i), Merge(a, i, b);
      Through(mid, config, b, j).organisations == Through(rows, config, m, Max(i, j)).organisations
  {
    var mid := Through(rows, config, a, i);
    if i >= 2 && !HasSlug(rows, config.slug) {
      assert mid.organisations[a.organisation].slug == config.slug;
      assert HasSlug(mid, config.slug);
    } else {
      assert HasSlug(mid, config.slug) == HasSlug(rows, config.slug);
    }
  }

  lemma UsersMerge(rows: Rows, config: Config, a: Ids, i: nat, b: Ids, j: nat)
    ensures var mid, m := Through(rows, config, a, i), Merge(a, i, b);
      Through(mid, config, b, j).users == Through(rows, config, m, Max(i, j)).users
  {
    var mid := Through(rows, config, a, i);
    if i >= 1 && !HasEmail(rows, config.email) {
      assert mid.users[a.user].email == config.email;
      assert HasEmail(mid, config.email);
    } else {
      assert HasEmail(mid, config.email) == HasEmail(rows, config.email);
    }
  }

  /** The organisation and user that matter are the same in both runs, and in the one run they add up to. */
  lemma SameOwner(rows: Rows, config: Config, a: Ids, i: nat, b: Ids)
    requires Continues(rows, config, a, i, b)
    ensures var mid, m := Through(rows, config, a, i), Merge(a, i, b);
      OrganisationId(mid, config, b) == OrganisationId(rows, config, m) && UserId(mid, config, b) == UserId(rows, config, m) &&
      (i >= 1 ==> UserId(rows, config, a) == UserId(rows, config, m)) &&
      (i >= 2 ==> OrganisationId(rows, config, a) == OrganisationId(rows, config, m))
  {
    IdsAfterCrash(rows, config, a, i, b);
    if i >= 1 { SameUserId(rows, config, a, Merge(a, i, b)); }
    if i >= 2 { SameOrganisationId(rows, config, a, Merge(a, i, b)); }
  }

  lemma MembersMerge(rows: Rows, config: Config, a: Ids, i: nat, b: Ids, j: nat)
    requires Continues(rows, config, a, i, b)
    ensures var mid, m := Through(rows, config, a, i), Merge(a, i, b);
      Through(mid, config, b, j).members == Through(rows, config, m, Max(i, j)).members
  {
    SameOwner(rows, config, a, i, b);
  }

  lemma AccountsMerge(rows: Rows, config: Config, a: Ids, i: nat, b: Ids, j: nat)
    requires Continues(rows, config, a, i, b)
    ensures var mid, m := Through(rows, config, a, i), Merge(a, i, b);
      Through(mid, config, b, j).accounts == Through(rows, config, m, Max(i, j)).accounts
  {
    SameOwner(rows, config, a, i, b);
    var mid, u := Through(rows, config, a, i), UserId(rows, config, Merge(a, i, b));
    if i >= 4 && !HasAccount(rows, u) {
      assert mid.accounts[a.account].userId == u;
      assert HasAccount(mid, u);
    } else {
      assert mid.accounts == rows.accounts;
      assert HasAccount(mid, u) == HasAccount(rows, u);
    }
  }

  /** The membership the first run wrote is one the second accepts. */
  lemma NeverRefusesItself(rows: Rows, config: Config, a: Ids, i: nat, b: Ids)
    requires Continues(rows, config, a, i, b)
    ensures var mid, m := Through(rows, config, a, i), Merge(a, i, b);
      Unused(rows, m) && !WouldRefuse(rows, config, m) && !WouldRefuse(mid, config, b)
  {
    IdsAfterCrash(rows, config, a, i, b);
    RefusalIgnoresIds(rows, config, a, Merge(a, i, b));
    SameOwner(rows, config, a, i, b);
  }

  /** A run that stops after `i` steps, and another that goes `j` steps from there, are one run of the longer length. */
  lemma RunsMerge(rows: Rows, config: Config, a: Ids, i: nat, b: Ids, j: nat)
    requires Continues(rows, config, a, i, b)
    ensures var mid, m := Through(rows, config, a, i), Merge(a, i, b);
      Valid(mid) && Unused(rows, m) && !WouldRefuse(mid, config, b) && !WouldRefuse(rows, config, m) &&
      Through(mid, config, b, j) == Through(rows, config, m, Max(i, j))
  {
    ThroughKeepsValid(rows, config, a, i);
    NeverRefusesItself(rows, config, a, i, b);
    OrganisationsMerge(rows, config, a, i, b, j);
    UsersMerge(rows, config, a, i, b, j);
    MembersMerge(rows, config, a, i, b, j);
    AccountsMerge(rows, config, a, i, b, j);
  }

  /** One run of the seed: the ids it would use, and how many steps it got through before it crashed or ended. */
  datatype Attempt = Attempt(ids: Ids, steps: nat)

  ghost function After(rows: Rows, config: Config, attempts: seq<Attempt>): Rows
    decreases |attempts|
  {
    if attempts == [] then rows
    else After(SeedUpTo(rows, config, attempts[0].ids, attempts[0].steps).rows, config, attempts[1..])
  }

  /** Every attempt draws ids the rows it meets do not use. */
  ghost predicate Drawable(rows: Rows, config: Config, attempts: seq<Attempt>)
    decreases |attempts|
  {
    attempts == [] ||
    (Unused(rows, attempts[0].ids) && attempts[0].steps <= ALL_STEPS &&
     Drawable(SeedUpTo(rows, config, attempts[0].ids, attempts[0].steps).rows, config, attempts[1..]))
  }

  /** However often the seed crashed, and wherever, the rows are those of one run that got some way. */
  lemma {:induction false} CrashesAreOneRun(rows: Rows, config: Config, first: Ids, done: nat, attempts: seq<Attempt>)
      returns (ids: Ids, steps: nat)
    requires Valid(rows) && Unused(rows, first) && done <= ALL_STEPS && !WouldRefuse(rows, config, first)
    requires Drawable(Through(rows, config, first, done), config, attempts)
    ensures Unused(rows, ids) && steps <= ALL_STEPS && !WouldRefuse(rows, config, ids)
    ensures After(Through(rows, config, first, done), config, attempts) == Through(rows, config, ids, steps)
    decreases |attempts|
  {
    ids, steps := first, done;
    if attempts != [] {
      var mid, next := Through(rows, config, first, done), attempts[0];
      RunsMerge(rows, config, first, done, next.ids, next.steps);
      SeedFieldByField(mid, config, next.ids, next.steps);
      ids, steps := CrashesAreOneRun(rows, config, Merge(first, done, next.ids), Max(done, next.steps), attempts[1..]);
    }
  }

  lemma {:induction false} RefusedRunsChangeNothing(rows: Rows, config: Config, attempts: seq<Attempt>)
    requires Valid(rows) && Drawable(rows, config, attempts)
    requires forall ids :: Unused(rows, ids) ==> WouldRefuse(rows, config, ids)
    ensures After(rows, config, attempts) == rows
    decreases |attempts|
  {
    if attempts != [] {
      SeedFieldByField(rows, config, attempts[0].ids, attempts[0].steps);
      RefusedRunsChangeNothing(rows, config, attempts[1..]);
    }
  }

  /**
   * Any number of crashed runs and then one that goes through: the seed ends exactly where a single bootstrap
   * would have, refusal or rows, for some choice of fresh ids.
   */
  lemma CrashesThenSeedMatchesBootstrap(rows: Rows, config: Config, attempts: seq<Attempt>, last: Ids) returns (ids: Ids)
    requires Valid(rows) && Drawable(rows, config, attempts + [Attempt(last, ALL_STEPS)]) && Unused(rows, last)
    requires Unused(After(rows, config, attempts), last)
    ensures Unused(rows, ids) && Seed(After(rows, config, attempts), config, last) == Bootstrap(rows, config, ids)
  {
    DrawablePrefix(rows, config, attempts, [Attempt(last, ALL_STEPS)]);
    if WouldRefuse(rows, config, last) {
      forall other | Unused(rows, other) ensures WouldRefuse(rows, config, other) {
        RefusalIgnoresIds(rows, config, last, other);
      }
      RefusedRunsChangeNothing(rows, config, attempts);
      SeedMatchesBootstrap(rows, config, last);
      ids := last;
    } else {
      assert Through(rows, config, last, 0) == rows;
      var a, i := CrashesAreOneRun(rows, config, last, 0, attempts);
      RunsMerge(rows, config, a, i, last, ALL_STEPS);
      ids := Merge(a, i, last);
      SeedFieldByField(Through(rows, config, a, i), config, last, ALL_STEPS);
      BootstrapFieldByField(rows, config, ids);
    }
  }

  lemma {:induction false} DrawablePrefix(rows: Rows, config: Config, a: seq<Attempt>, b: seq<Attempt>)
    requires Drawable(rows, config, a + b)
    ensures Drawable(rows, config, a)
    decreases |a|
  {
    if a != [] {
      assert (a + b)[0] == a[0] && (a + b)[1..] == a[1..] + b;
      DrawablePrefix(SeedUpTo(rows, config, a[0].ids, a[0].steps).rows, config, a[1..], b);
    }
  }

  // ---------------------------------------------------------------- what both promise

  /** The row that was there by this key, or one new row and no other change. */
  ghost predicate FoundOrAdded<K(!new), V>(before: map<K, V>, after: map<K, V>, found: bool, key: K, value: V) {
    if found then after == before else key !in before && after == before[key := value]
  }

  /**
   * What a run that is not refused leaves, row by row. The organisation of that slug and the user of that email, found or
   * added as configured; that user an active owner of that organisation; and for a user with no account row of any kind
   * one credential with the configured password, for any other none. No row that was there is altered.
   */
  lemma OwnerCanSignIn(rows: Rows, config: Config, ids: Ids) returns (o: Id, u: Id)
    requires Valid(rows) && Unused(rows, ids) && !Seed(rows, config, ids).refused
    ensures var end := Seed(rows, config, ids).rows;
      o in end.organisations && end.organisations[o].slug == config.slug && u in end.users && end.users[u].email == config.email &&
      FoundOrAdded(rows.organisations, end.organisations, exists x :: x in rows.organisations && rows.organisations[x].slug == config.slug,
        o, Organisation(config.organisationName, config.slug)) &&
      FoundOrAdded(rows.users, end.users, exists x :: x in rows.users && rows.users[x].email == config.email,
        u, User(config.ownerName, config.email)) &&
      FoundOrAdded(rows.members, end.members, (o, u) in rows.members, (o, u), Member(Owner, Active)) &&
      (o, u) in end.members && end.members[(o, u)].role == Owner && end.members[(o, u)].status == Active &&
      FoundOrAdded(rows.accounts, end.accounts, exists a :: a in rows.accounts && rows.accounts[a].userId == u,
        ids.account, Account(u, "credential", config.password))
  {
    SeedFieldByField(rows, config, ids, ALL_STEPS);
    var end := Seed(rows, config, ids).rows;
    o, u := OrganisationId(rows, config, ids), UserId(rows, config, ids);
    assert end == Through(rows, config, ids, ALL_STEPS);
    assert HasSlug(rows, config.slug) <==> exists x :: x in rows.organisations && rows.organisations[x].slug == config.slug;
    assert HasEmail(rows, config.email) <==> exists x :: x in rows.users && rows.users[x].email == config.email;
    assert HasAccount(rows, u) <==> exists a :: a in rows.accounts && rows.accounts[a].userId == u;
    assert end.organisations[o].slug == config.slug && end.users[u].email == config.email;
  }
}
