/** The in-memory database shared by the API routes: a deterministic
    seeder with ids `id_<n>`, tickets that carry copies of their requester
    and assignee and share their team and category with the seeded tables,
    and the next ticket's id and label derived from the ticket count. */
module MockDb {
  import opened Values
  import opened Text
  import opened Labels
  import opened Sequences

  /** Milliseconds since the epoch. */
  type Time = int

  datatype Role = Agent | Admin | User
  datatype MockUser = MockUser(id: string, fullName: string, email: string, role: Role)
  /** The `id`, `full_name` and `email` of a user, copied into a ticket. */
  datatype UserRef = UserRef(id: string, fullName: string, email: string)
  datatype MockTeam = MockTeam(id: string, name: string)
  datatype MockCategory = MockCategory(id: string, name: string)
  datatype Status = Open | InProgress | Pending | Resolved | Closed
  datatype Priority = Low | Medium | High | Critical

  /** A ticket without its `id` and `display_id`. */
  datatype TicketFields = TicketFields(
    subject: string,
    description: string,
    status: Status,
    priority: Priority,
    requester: UserRef,
    assignee: Option<UserRef>,
    team: MockTeam,
    category: MockCategory,
    createdAt: Time,
    updatedAt: Time,
    assignedAt: Option<Time>,
    firstRespondedAt: Option<Time>,
    closedAt: Option<Time>,
    resolutionDueDate: Option<Time>)

  datatype MockTicket = MockTicket(id: string, displayId: string, fields: TicketFields)

  datatype MockComment = MockComment(
    id: string,
    ticketId: string,
    author: UserRef,
    body: string,
    isInternalNote: bool,
    createdAt: Time)

  datatype TicketIds = TicketIds(id: string, displayId: string)

  // -------------------------------------------------------------------- ids

  const IdPrefix: string := "id_"

  /** `uid(n)`: the prefix followed by the decimal digits of n. */
  function Uid(n: nat): string {
    IdPrefix + Decimal(n)
  }

  function ParseUid(s: string): Option<nat> {
    if |s| > |IdPrefix| && s[..|IdPrefix|] == IdPrefix && AllDigits(s[|IdPrefix|..])
    then Some(ParseDecimal(s[|IdPrefix|..]))
    else None
  }

  lemma UidRoundTrip(n: nat)
    ensures ParseUid(Uid(n)) == Some(n)
  {
    assert Uid(n)[|IdPrefix|..] == Decimal(n);
    DecimalRoundTrip(n);
  }

  lemma UidInjective(n: nat, m: nat)
    ensures Uid(n) == Uid(m) ==> n == m
  {
    UidRoundTrip(n);
    UidRoundTrip(m);
  }

  // ---------------------------------------------------------------- fixtures

  function RequesterA(): MockUser { MockUser(Uid(1), "Alice Johnson", "alice@example.com", User) }
  function RequesterB(): MockUser { MockUser(Uid(2), "Bob Smith", "bob@example.com", User) }
  function Agent1(): MockUser { MockUser(Uid(3), "Carol Agent", "carol.agent@example.com", Agent) }
  function Agent2(): MockUser { MockUser(Uid(4), "Dave Agent", "dave.agent@example.com", Agent) }
  function SeedAdmin(): MockUser { MockUser(Uid(5), "Eve Admin", "eve.admin@example.com", Admin) }

  /** Two requesters, two agents and an admin, numbered 1 to 5. */
  function SeedUsers(): (r: seq<MockUser>)
    ensures |r| == 5
    ensures forall i :: 0 <= i < |r| ==> r[i].id == Uid(i + 1)
  {
    [RequesterA(), RequesterB(), Agent1(), Agent2(), SeedAdmin()]
  }

  /** Two teams, numbered 10 and 11. */
  function SeedTeams(): (r: seq<MockTeam>)
    ensures |r| == 2
    ensures forall i :: 0 <= i < |r| ==> r[i].id == Uid(10 + i)
  {
    [ MockTeam(Uid(10), "IT Support"),
      MockTeam(Uid(11), "HR Support") ]
  }

  /** Three categories, numbered 20 to 22. */
  function SeedCategories(): (r: seq<MockCategory>)
    ensures |r| == 3
    ensures forall i :: 0 <= i < |r| ==> r[i].id == Uid(20 + i)
  {
    [ MockCategory(Uid(20), "Hardware Issues"),
      MockCategory(Uid(21), "Software Support"),
      MockCategory(Uid(22), "Account Access") ]
  }

  function Ref(u: MockUser): UserRef {
    UserRef(u.id, u.fullName, u.email)
  }

  const HourMs: int := 3600000

  /** The instant `offsetHours` hours before `now`. */
  function Ts(now: Time, offsetHours: int): Time {
    now - offsetHours * HourMs
  }

  const SeedTicketCount: nat := 4

  /** The four seeded tickets before they get their ids, given the current
      time `now`. */
  function WifiTicket(now: Time): TicketFields {
    TicketFields(
      "Cannot connect to Wi-Fi",
      "My laptop fails to connect to the office Wi-Fi network.",
      Open, High, Ref(RequesterA()), None, SeedTeams()[0], SeedCategories()[0],
      Ts(now, 72), Ts(now, 48), None, None, None, Some(Ts(now, -24)))
  }

  function OutlookTicket(now: Time): TicketFields {
    TicketFields(
      "Outlook crashes on start",
      "Outlook application crashes immediately after opening.",
      InProgress, Medium, Ref(RequesterB()), Some(Ref(Agent1())), SeedTeams()[0], SeedCategories()[1],
      Ts(now, 120), Ts(now, 6), Some(Ts(now, 12)), Some(Ts(now, 10)), None, Some(Ts(now, -72)))
  }

  function PasswordTicket(now: Time): TicketFields {
    TicketFields(
      "Password reset required",
      "User cannot access account and needs a password reset.",
      Pending, Low, Ref(RequesterA()), Some(Ref(Agent2())), SeedTeams()[1], SeedCategories()[2],
      Ts(now, 200), Ts(now, 30), Some(Ts(now, 36)), Some(Ts(now, 35)), None, Some(Ts(now, -168)))
  }

  function BatteryTicket(now: Time): TicketFields {
    TicketFields(
      "Laptop battery replacement",
      "Laptop battery no longer holds charge; needs replacement.",
      Closed, Critical, Ref(RequesterB()), Some(Ref(Agent1())), SeedTeams()[0], SeedCategories()[0],
      Ts(now, 400), Ts(now, 300), Some(Ts(now, 395)), Some(Ts(now, 394)), Some(Ts(now, 310)), Some(Ts(now, -336)))
  }

  /** Seeded ticket i (0-based) before it gets its ids: one fixture each
      for the statuses Open, In Progress, Pending and Closed. */
  function BaseTicket(now: Time, i: nat): TicketFields
    requires i < SeedTicketCount
  {
    if i == 0 then WifiTicket(now)
    else if i == 1 then OutlookTicket(now)
    else if i == 2 then PasswordTicket(now)
    else BatteryTicket(now)
  }

  /** The fixture tickets in order, ticket i numbered 100 + i + 1 and
      labelled TICK-(i+1). */
  function SeedTickets(now: Time): (r: seq<MockTicket>)
    ensures |r| == SeedTicketCount
  {
    seq(SeedTicketCount, i requires 0 <= i < SeedTicketCount => MockTicket(Uid(100 + i + 1), DisplayId(i + 1), BaseTicket(now, i)))
  }

  /** Ticket i carries id `uid(100 + i + 1)` and label TICK-(i+1). */
  ghost predicate SequentialIds(tickets: seq<MockTicket>) {
    forall i :: 0 <= i < |tickets| ==> tickets[i].id == Uid(100 + i + 1) && tickets[i].displayId == DisplayId(i + 1)
  }

  // -------------------------------------------------------------- properties

  /** The four seeded tickets are numbered 101 to 104 and labelled
      TICK-0001 to TICK-0004, in order. */
  lemma SeedSizes(now: Time)
    ensures |SeedTickets(now)| == 4
    ensures SequentialIds(SeedTickets(now))
  {
    var tickets := SeedTickets(now);
    forall i | 0 <= i < |tickets| ensures tickets[i].id == Uid(100 + i + 1) && tickets[i].displayId == DisplayId(i + 1) {
      SeedTicketIds(now, i);
    }
  }

  /** Seeded ticket i carries id `uid(100 + i + 1)` and label TICK-(i+1). */
  lemma SeedTicketIds(now: Time, i: nat)
    requires i < SeedTicketCount
    ensures SeedTickets(now)[i].id == Uid(100 + i + 1) && SeedTickets(now)[i].displayId == DisplayId(i + 1)
  {
  }

  /** The seeded tickets' status, assignee and dates fit together: only the
      Open ticket is unassigned, only the Closed one has a closing date, and
      every ticket was updated after it was created, with its assignment,
      first response and closing in between. */
  ghost predicate Coupled(t: TicketFields) {
    && (t.assignee.None? <==> t.status == Open)
    && (t.assignedAt.None? <==> t.status == Open)
    && (t.closedAt.Some? <==> t.status == Closed)
    && t.createdAt < t.updatedAt
    && (t.assignedAt.Some? ==> t.createdAt < t.assignedAt.value < t.updatedAt)
    && (t.firstRespondedAt.Some? ==>
          t.assignedAt.Some? && t.assignedAt.value < t.firstRespondedAt.value < t.updatedAt)
    && (t.closedAt.Some? ==> t.createdAt < t.closedAt.value <= t.updatedAt)
  }

  /** The requester is a seeded user with role User and the assignee, if
      any, a seeded user with role Agent. */
  ghost predicate Staffed(t: TicketFields) {
    && (exists u :: u in SeedUsers() && u.role == User && Ref(u) == t.requester)
    && (t.assignee.Some? ==> exists u :: u in SeedUsers() && u.role == Agent && Some(Ref(u)) == t.assignee)
  }

  lemma SeedTicketsCoupled(now: Time)
    ensures forall i :: 0 <= i < |SeedTickets(now)| ==> Coupled(SeedTickets(now)[i].fields)
  {
    forall i | 0 <= i < SeedTicketCount ensures Coupled(SeedTickets(now)[i].fields) {
      BaseTicketSound(now, i);
    }
  }

  /** Requesters are seeded users with role User and assignees seeded users
      with role Agent. */
  lemma SeedTicketPeople(now: Time)
    ensures forall i :: 0 <= i < |SeedTickets(now)| ==> Staffed(SeedTickets(now)[i].fields)
  {
    forall i | 0 <= i < SeedTicketCount ensures Staffed(SeedTickets(now)[i].fields) {
      BaseTicketSound(now, i);
    }
  }

  lemma BaseTicketSound(now: Time, i: nat)
    requires i < SeedTicketCount
    ensures Coupled(BaseTicket(now, i)) && Staffed(BaseTicket(now, i))
  {
    if i == 0 {
      WifiTicketSound(now);
    } else if i == 1 {
      OutlookTicketSound(now);
    } else if i == 2 {
      PasswordTicketSound(now);
    } else {
      BatteryTicketSound(now);
    }
  }

  lemma WifiTicketSound(now: Time)
    ensures Coupled(WifiTicket(now)) && Staffed(WifiTicket(now))
  {
    assert RequesterA() in SeedUsers();
  }

  lemma OutlookTicketSound(now: Time)
    ensures Coupled(OutlookTicket(now)) && Staffed(OutlookTicket(now))
  {
    assert RequesterB() in SeedUsers() && Agent1() in SeedUsers();
  }

  lemma PasswordTicketSound(now: Time)
    ensures Coupled(PasswordTicket(now)) && Staffed(PasswordTicket(now))
  {
    assert RequesterA() in SeedUsers() && Agent2() in SeedUsers();
  }

  lemma BatteryTicketSound(now: Time)
    ensures Coupled(BatteryTicket(now)) && Staffed(BatteryTicket(now))
  {
    assert RequesterB() in SeedUsers() && Agent1() in SeedUsers();
  }

  /** The numbers behind every seeded id: users, teams, categories, tickets. */
  function SeedIdNumbers(): seq<nat> {
    [1, 2, 3, 4, 5, 10, 11, 20, 21, 22, 101, 102, 103, 104]
  }

  /** The ids of the seeded users, teams and categories and of four tickets. */
  function SeedIds(tickets: seq<MockTicket>): seq<string>
    requires |tickets| == SeedTicketCount
  {
    var users, teams, categories := SeedUsers(), SeedTeams(), SeedCategories();
    [users[0].id, users[1].id, users[2].id, users[3].id, users[4].id,
     teams[0].id, teams[1].id,
     categories[0].id, categories[1].id, categories[2].id,
     tickets[0].id, tickets[1].id, tickets[2].id, tickets[3].id]
  }

  /** No two seeded records of any kind share an id. */
  lemma SeedIdsDistinct(now: Time)
    ensures forall i, j :: 0 <= i < j < |SeedIds(SeedTickets(now))| ==>
      SeedIds(SeedTickets(now))[i] != SeedIds(SeedTickets(now))[j]
  {
    SeedSizes(now);
    NumberedIdsDistinct(SeedTickets(now));
  }

  /** With the tickets numbered as the seeder numbers them, the ids of the
      seeded tables and tickets are pairwise different. */
  lemma NumberedIdsDistinct(tickets: seq<MockTicket>)
    requires |tickets| == SeedTicketCount && SequentialIds(tickets)
    ensures forall i, j :: 0 <= i < j < |SeedIds(tickets)| ==> SeedIds(tickets)[i] != SeedIds(tickets)[j]
  {
    SeedIdsAreUids(tickets);
    assert StepsUp(SeedIdNumbers());
    UidsDistinct(SeedIdNumbers());
  }

  lemma SeedIdsAreUids(tickets: seq<MockTicket>)
    requires |tickets| == SeedTicketCount && SequentialIds(tickets)
    ensures |SeedIds(tickets)| == |SeedIdNumbers()|
    ensures forall k :: 0 <= k < |SeedIds(tickets)| ==> SeedIds(tickets)[k] == Uid(SeedIdNumbers()[k])
  {
  }

  /** Ids made from increasing numbers are pairwise different. */
  lemma UidsDistinct(nums: seq<nat>)
    requires StepsUp(nums)
    ensures forall i, j :: 0 <= i < j < |nums| ==> Uid(nums[i]) != Uid(nums[j])
  {
    StepsUpIncreasing(nums);
    forall i, j | 0 <= i < j < |nums| ensures Uid(nums[i]) != Uid(nums[j]) {
      UidInjective(nums[i], nums[j]);
    }
  }

  /** With sequential numbering the id and label numbered |tickets| + 1 are
      not taken. */
  lemma NextIdsFresh(tickets: seq<MockTicket>)
    ensures SequentialIds(tickets) ==>
      forall t :: t in tickets ==> t.id != Uid(100 + |tickets| + 1) && t.displayId != DisplayId(|tickets| + 1)
  {
    var n := |tickets| + 1;
    if SequentialIds(tickets) {
      forall t | t in tickets ensures t.id != Uid(100 + n) && t.displayId != DisplayId(n) {
        var i :| 0 <= i < |tickets| && tickets[i] == t;
        UidInjective(100 + i + 1, 100 + n);
        DisplayIdInjective(i + 1, n);
      }
    }
  }

  // ---------------------------------------------------------------- database

  class Database {
    var users: seq<MockUser>
    var teams: seq<MockTeam>
    var categories: seq<MockCategory>
    var tickets: seq<MockTicket>
    var commentsByTicketId: map<string, seq<MockComment>>
    var seeded: bool

    constructor ()
      ensures !seeded
      ensures users == [] && teams == [] && categories == [] && tickets == [] && commentsByTicketId == map[]
    {
      users, teams, categories, tickets := [], [], [], [];
      commentsByTicketId := map[];
      seeded := false;
    }

    /** `ensureSeeded`: fills the four tables once (never the comments);
      every later call is a no-op. */
    method EnsureSeeded(now: Time)
      modifies this
      ensures seeded
      ensures old(seeded) ==> unchanged(this)
      ensures !old(seeded) ==>
                users == SeedUsers() && teams == SeedTeams() && categories == SeedCategories() &&
                tickets == SeedTickets(now)
      ensures commentsByTicketId == old(commentsByTicketId)
    {
      if seeded {
        return;
      }
      users := SeedUsers();
      teams := SeedTeams();
      categories := SeedCategories();
      tickets := SeedTickets(now);
      seeded := true;
    }

    /** `nextTicketId`: the id and label the next ticket would get. When the
      tickets are numbered as the seeder numbers them, both are new. */
    function NextTicketId(): (r: TicketIds)
      reads this
      ensures ParseUid(r.id) == Some(100 + |tickets| + 1)
      ensures ParseDisplayId(r.displayId) == Some(|tickets| + 1)
      ensures SequentialIds(tickets) ==>
        forall t :: t in tickets ==> t.id != r.id && t.displayId != r.displayId
    {
      var n := |tickets| + 1;
      UidRoundTrip(100 + n);
      DisplayIdRoundTrip(n);
      NextIdsFresh(tickets);
      TicketIds(Uid(100 + n), DisplayId(n))
    }
  }

  /** Seeding twice is seeding once, whatever the clock says the second
      time; afterwards the next ticket is id_105 / TICK-0005. */
  method SeedingIsIdempotent(now1: Time, now2: Time)
  {
    var db := new Database();
    db.EnsureSeeded(now1);
    ghost var tickets := db.tickets;
    db.EnsureSeeded(now2);
    assert db.tickets == tickets == SeedTickets(now1);
    SeedSizes(now1);
    var next := db.NextTicketId();
    assert ParseUid(next.id) == Some(105);
  }
}
