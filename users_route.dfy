/** The users route: fifty generated users, seeded on first use; GET lists
    them and POST appends one, filling a missing phone number, office or
    role from the generator or with "User". */
module UsersRoute {
  import opened Values
  import opened Draws

  /** A user as the route stores it; a posted name or e-mail may be
      missing. */
  datatype UserRecord = UserRecord(
    id: string,
    fullName: Option<string>,
    email: Option<string>,
    phoneNumber: string,
    officeLocation: string,
    role: string)

  /** The parsed POST body. */
  datatype UserBody = UserBody(
    fullName: Option<string>,
    email: Option<string>,
    phoneNumber: Option<string>,
    officeLocation: Option<string>,
    role: Option<string>)

  const SeedUserCount: nat := 50
  const DefaultRole: string := "User"

  /** One seeded user, entirely from the generator. */
  function SeedUser(d: PersonDraw): (u: UserRecord)
    ensures u.id == d.id && u.fullName == Some(d.fullName) && u.email == Some(d.email)
    ensures u.phoneNumber == d.phoneNumber && u.officeLocation == OfficeLocation(d.city, d.state)
    ensures u.role in Roles
  {
    UserRecord(d.id, Some(d.fullName), Some(d.email), d.phoneNumber, OfficeLocation(d.city, d.state), Pick(Roles, d.role))
  }

  function Seed(draws: seq<PersonDraw>): (r: seq<UserRecord>)
    requires |draws| == SeedUserCount
    ensures |r| == SeedUserCount
    ensures forall i :: 0 <= i < |r| ==> r[i] == SeedUser(draws[i])
  {
    seq(|draws|, i requires 0 <= i < |draws| => SeedUser(draws[i]))
  }

  /** Every seeded user has one of the three roles. */
  lemma SeedRoles(draws: seq<PersonDraw>)
    requires |draws| == SeedUserCount
    ensures forall u :: u in Seed(draws) ==> u.role in Roles
  {
    forall u | u in Seed(draws) ensures u.role in Roles {
      var i :| 0 <= i < |draws| && Seed(draws)[i] == u;
      assert u == SeedUser(draws[i]);
    }
  }

  /** The record POST stores. Name and e-mail are copied as sent; a falsy
      phone number, office or role is replaced by the generator's phone
      number, its `city, state`, or "User". `d` holds the generator's
      output for this request. The office and the role are never empty. */
  function NewUser(d: PersonDraw, body: UserBody): (u: UserRecord)
    ensures u.id == d.id
    ensures u.officeLocation != "" && u.role != ""
  {
    UserRecord(
      d.id,
      body.fullName,
      body.email,
      OrElse(body.phoneNumber, d.phoneNumber),
      OrElse(body.officeLocation, OfficeLocation(d.city, d.state)),
      OrElse(body.role, DefaultRole))
  }

  /** What POST keeps from the body and what it fills in. */
  lemma NewUserFields(d: PersonDraw, body: UserBody)
    ensures NewUser(d, body).id == d.id
    ensures NewUser(d, body).fullName == body.fullName && NewUser(d, body).email == body.email
    ensures NewUser(d, body).phoneNumber == if Truthy(body.phoneNumber) then body.phoneNumber.value else d.phoneNumber
    ensures NewUser(d, body).officeLocation ==
      if Truthy(body.officeLocation) then body.officeLocation.value else OfficeLocation(d.city, d.state)
    ensures NewUser(d, body).role == if Truthy(body.role) then body.role.value else DefaultRole
  {
  }

  /** The role is not validated: the stored role is one of the three known
      roles exactly when the body's role is falsy or itself known. */
  lemma NewUserRoleKnown(d: PersonDraw, body: UserBody)
    ensures NewUser(d, body).role in Roles <==> (!Truthy(body.role) || body.role.value in Roles)
  {
    assert DefaultRole == Roles[2];
  }

  /** A non-empty phone number always results when the generator's is
      non-empty. */
  lemma NewUserHasPhone(d: PersonDraw, body: UserBody)
    requires d.phoneNumber != ""
    ensures NewUser(d, body).phoneNumber != ""
  {
  }

  class UserStore {
    var users: seq<UserRecord>
    var initialized: bool
    /** The generator output used when the store was seeded. */
    ghost var seedDraws: seq<PersonDraw>

    /** Empty until seeded; afterwards the fifty seeded users stay in front,
      unchanged, and posted ones follow. */
    ghost predicate Valid()
      reads this
    {
      && (!initialized ==> users == [])
      && (initialized ==>
            |seedDraws| == SeedUserCount && |users| >= SeedUserCount &&
            users[..SeedUserCount] == Seed(seedDraws))
    }

    constructor ()
      ensures Valid() && !initialized
    {
      users := [];
      initialized := false;
      seedDraws := [];
    }

    /** `initializeUsers`: seeds once; a later call changes nothing. */
    method Initialize(draws: seq<PersonDraw>)
      requires Valid() && |draws| == SeedUserCount
      modifies this
      ensures Valid() && initialized
      ensures users == if old(initialized) then old(users) else Seed(draws)
    {
      if initialized {
        return;
      }
      users := Seed(draws);
      seedDraws := draws;
      initialized := true;
    }

    /** GET /users */
    method Get(draws: seq<PersonDraw>) returns (r: seq<UserRecord>)
      requires Valid() && |draws| == SeedUserCount
      modifies this
      ensures Valid() && initialized
      ensures users == if old(initialized) then old(users) else Seed(draws)
      ensures r == users
    {
      Initialize(draws);
      r := users;
    }

    /** POST /users: appends the new user and returns it. */
    method Post(draws: seq<PersonDraw>, d: PersonDraw, body: UserBody) returns (u: UserRecord)
      requires Valid() && |draws| == SeedUserCount
      modifies this
      ensures Valid() && initialized
      ensures u == NewUser(d, body)
      ensures users == (if old(initialized) then old(users) else Seed(draws)) + [u]
    {
      Initialize(draws);
      u := NewUser(d, body);
      users := users + [u];
    }
  }
}
