/** The ticket endpoint's own in-memory store: lazily seeded users, teams,
    categories, subcategories and 100 tickets, a GET that turns the
    `requester_id` / `view` query into a filter, and a POST that prepends a
    new ticket. References between records are bare id strings. */
module TicketsRoute {
  import opened Values
  import opened Labels
  import opened Sequences
  import opened Draws

  /** Milliseconds since the epoch; only order matters. */
  type Time = int

  datatype User = User(id: string, fullName: string, email: string, phoneNumber: string, officeLocation: string, role: string)
  datatype Team = Team(id: string, name: string)
  datatype Category = Category(id: string, name: string)
  datatype Subcategory = Subcategory(id: string, name: string, parentCategoryId: string)

  /** A stored ticket. Fields copied unchecked from a request body are
      optional strings; nullable columns are options. */
  datatype Ticket = Ticket(
    id: string,
    displayId: string,
    subject: Option<string>,
    description: Option<string>,
    status: string,
    priority: string,
    requesterId: Option<string>,
    assigneeId: Option<string>,
    teamId: string,
    categoryId: Option<string>,
    subCategoryId: Option<string>,
    source: string,
    approvalStatus: Option<string>,
    resolutionNotes: Option<string>,
    createdAt: Time,
    updatedAt: Time,
    assignedAt: Option<Time>,
    firstRespondedAt: Option<Time>,
    closedAt: Option<Time>,
    resolutionDueDate: Time)

  const Statuses: seq<string> := ["Open", "In Progress", "Pending", "Resolved", "Closed"]
  const Priorities: seq<string> := ["Low", "Medium", "High", "Critical"]
  const Sources: seq<string> := ["Email", "Portal", "Phone", "Chat"]
  const Approvals: seq<Option<string>> := [Some("Pending"), Some("Approved"), Some("Rejected"), None]

  const SeedUserCount: nat := 30
  const SeedTicketCount: nat := 100
  const TeamNames: seq<string> := ["IT Support", "HR Support", "Finance Support", "Facilities"]
  const CategoryNames: seq<string> := ["Hardware Issues", "Software Support", "Account Access", "Network Issues"]
  const SubcategoryNames: seq<string> := ["Desktop Computer", "Laptop Issues", "Microsoft Office", "Password Reset", "Wi-Fi Connection"]
  /** Index into the seeded categories of each seeded subcategory's parent. */
  const SubcategoryParents: seq<nat> := [0, 0, 1, 2, 3]

  // ---------------------------------------------------------------- seeding

  /** What the generator yields for one seeded ticket: uuids, text, the
      indices of its random choices and its dates. */
  datatype TicketDraw = TicketDraw(
    id: string,
    subject: string,
    description: string,
    status: nat,
    priority: nat,
    requester: nat,
    assignee: nat,
    team: nat,
    category: nat,
    subcategory: nat,
    source: nat,
    approval: nat,
    resolutionNotes: string,
    createdAt: Time,
    updatedAt: Time,
    assignedAt: Time,
    firstRespondedAt: Time,
    closedAt: Time,
    dueDate: Time)

  /** A date drawn between the creation and the last update lies in that
      interval, and the last update itself is drawn after the creation. */
  predicate DatesInOrder(d: TicketDraw) {
    && d.createdAt <= d.updatedAt
    && d.createdAt <= d.assignedAt <= d.updatedAt
    && d.createdAt <= d.firstRespondedAt <= d.updatedAt
    && d.createdAt <= d.closedAt <= d.updatedAt
  }

  datatype SeedDraws = SeedDraws(
    users: seq<PersonDraw>,
    teamIds: seq<string>,
    categoryIds: seq<string>,
    subcategoryIds: seq<string>,
    tickets: seq<TicketDraw>)

  /** The generator is called once per seeded record. */
  predicate WellFormed(seed: SeedDraws) {
    && |seed.users| == SeedUserCount
    && |seed.teamIds| == |TeamNames|
    && |seed.categoryIds| == |CategoryNames|
    && |seed.subcategoryIds| == |SubcategoryNames|
    && |seed.tickets| == SeedTicketCount
    && forall i :: 0 <= i < |seed.tickets| ==> DatesInOrder(seed.tickets[i])
  }

  function SeedUser(d: PersonDraw): User {
    User(d.id, d.fullName, d.email, d.phoneNumber, OfficeLocation(d.city, d.state), Pick(Roles, d.role))
  }

  /** The five module-level arrays. */
  datatype Tables = Tables(
    users: seq<User>,
    teams: seq<Team>,
    categories: seq<Category>,
    subcategories: seq<Subcategory>,
    tickets: seq<Ticket>)

  /** Seeded ticket number `index` (0-based), built from its draw and the
      already seeded users, teams, categories and subcategories. */
  function SeedTicket(index: nat, d: TicketDraw, t: Tables): (r: Ticket)
    requires |t.users| > 0 && |t.teams| > 0 && |t.categories| > 0 && |t.subcategories| > 0
    ensures ParseDisplayId(r.displayId) == Some(index + 1)
    ensures r.status in Statuses && r.priority in Priorities && r.source in Sources
    ensures r.assigneeId.None? <==> r.status == "Open"
    ensures r.firstRespondedAt.Some?
  {
    var status := Pick(Statuses, d.status);
    DisplayIdRoundTrip(index + 1);
    Ticket(
      id := d.id,
      displayId := DisplayId(index + 1),
      subject := Some(d.subject),
      description := Some(d.description),
      status := status,
      priority := Pick(Priorities, d.priority),
      requesterId := Some(Pick(t.users, d.requester).id),
      assigneeId := if status != "Open" then Some(Pick(t.users, d.assignee).id) else None,
      teamId := Pick(t.teams, d.team).id,
      categoryId := Some(Pick(t.categories, d.category).id),
      subCategoryId := Some(Pick(t.subcategories, d.subcategory).id),
      source := Pick(Sources, d.source),
      approvalStatus := Pick(Approvals, d.approval),
      resolutionNotes := if status == "Resolved" || status == "Closed" then Some(d.resolutionNotes) else None,
      createdAt := d.createdAt,
      updatedAt := d.updatedAt,
      assignedAt := if status != "Open" then Some(d.assignedAt) else None,
      firstRespondedAt := Some(d.firstRespondedAt),
      closedAt := if status == "Closed" then Some(d.closedAt) else None,
      resolutionDueDate := d.dueDate)
  }

  /** The tables `initializeData` builds from one set of draws. */
  function Seed(seed: SeedDraws): (t: Tables)
    requires WellFormed(seed)
    ensures |t.users| == SeedUserCount && |t.teams| == |TeamNames|
    ensures |t.categories| == |CategoryNames| && |t.subcategories| == |SubcategoryNames|
    ensures |t.tickets| == SeedTicketCount
  {
    var users := seq(SeedUserCount, i requires 0 <= i < SeedUserCount => SeedUser(seed.users[i]));
    var teams := seq(|TeamNames|, i requires 0 <= i < |TeamNames| => Team(seed.teamIds[i], TeamNames[i]));
    var categories := seq(|CategoryNames|, i requires 0 <= i < |CategoryNames| => Category(seed.categoryIds[i], CategoryNames[i]));
    var subcategories := seq(|SubcategoryNames|, i requires 0 <= i < |SubcategoryNames| =>
      Subcategory(seed.subcategoryIds[i], SubcategoryNames[i], categories[SubcategoryParents[i]].id));
    var base := Tables(users, teams, categories, subcategories, []);
    var tickets := seq(SeedTicketCount, i requires 0 <= i < SeedTicketCount => SeedTicket(i, seed.tickets[i], base));
    base.(tickets := tickets)
  }

  /** The couplings every seeded ticket has between its status and its
      assignee, resolution notes and dates. */
  ghost predicate SeedCoupled(t: Ticket) {
    && t.status in Statuses
    && (t.assigneeId.None? <==> t.status == "Open")
    && (t.assignedAt.None? <==> t.status == "Open")
    && (t.resolutionNotes.Some? <==> t.status == "Resolved" || t.status == "Closed")
    && (t.closedAt.Some? <==> t.status == "Closed")
    && t.createdAt <= t.updatedAt
    && (t.assignedAt.Some? ==> t.createdAt <= t.assignedAt.value <= t.updatedAt)
    && t.firstRespondedAt.Some? && t.createdAt <= t.firstRespondedAt.value <= t.updatedAt
    && (t.closedAt.Some? ==> t.createdAt <= t.closedAt.value <= t.updatedAt)
  }

  lemma SeedTicketsCoupled(seed: SeedDraws)
    requires WellFormed(seed)
    ensures forall i :: 0 <= i < |Seed(seed).tickets| ==> SeedCoupled(Seed(seed).tickets[i])
  {
    var t := Seed(seed);
    forall i | 0 <= i < |t.tickets| ensures SeedCoupled(t.tickets[i]) {
      assert DatesInOrder(seed.tickets[i]);
    }
  }

  /** Seeded ticket i is labelled TICK-(i+1), so the seed runs TICK-0001 ..
      TICK-0100. */
  lemma SeedLabels(seed: SeedDraws)
    requires WellFormed(seed)
    ensures forall i :: 0 <= i < |Seed(seed).tickets| ==> ParseDisplayId(Seed(seed).tickets[i].displayId) == Some(i + 1)
    ensures Seed(seed).tickets[0].displayId == "TICK-0001"
    ensures Seed(seed).tickets[99].displayId == "TICK-0100"
  {
    forall i | 0 <= i < |Seed(seed).tickets| ensures ParseDisplayId(Seed(seed).tickets[i].displayId) == Some(i + 1) {
      DisplayIdRoundTrip(i + 1);
    }
    FirstLabels();
  }

  /** Every seeded subcategory points at a seeded category. */
  lemma SeedSubcategoryParents(seed: SeedDraws)
    requires WellFormed(seed)
    ensures forall s :: s in Seed(seed).subcategories ==>
      exists c :: c in Seed(seed).categories && c.id == s.parentCategoryId
  {
    var t := Seed(seed);
    forall s | s in t.subcategories ensures exists c :: c in t.categories && c.id == s.parentCategoryId {
      var i :| 0 <= i < |t.subcategories| && t.subcategories[i] == s;
      assert t.categories[SubcategoryParents[i]] in t.categories;
    }
  }

  // ---------------------------------------------------- display numbering

  /** The labels of ts carry the numbers `numbers`, and those are a
      permutation of 1..|ts|. */
  ghost predicate NumberedBy(ts: seq<Ticket>, numbers: seq<nat>) {
    && |numbers| == |ts|
    && (forall i :: 0 <= i < |ts| ==> ts[i].displayId == DisplayId(numbers[i]))
    && multiset(numbers) == multiset(OneTo(|ts|))
  }

  lemma SeedNumbered(seed: SeedDraws)
    requires WellFormed(seed)
    ensures NumberedBy(Seed(seed).tickets, OneTo(SeedTicketCount))
  {
  }

  /** Prepending a ticket labelled |ts| + 1 keeps the numbering a
      permutation. */
  lemma PrependNumbered(t: Ticket, ts: seq<Ticket>, numbers: seq<nat>)
    requires NumberedBy(ts, numbers)
    requires t.displayId == DisplayId(|ts| + 1)
    ensures NumberedBy([t] + ts, [|ts| + 1] + numbers)
  {
    PrependLabels(t, ts, |ts| + 1, numbers);
    PrependOneTo(numbers, |ts|);
  }

  /** Putting a ticket labelled n in front of tickets labelled by numbers
      gives tickets labelled by n followed by numbers. */
  lemma PrependLabels(t: Ticket, ts: seq<Ticket>, n: nat, numbers: seq<nat>)
    requires |numbers| == |ts|
    requires forall i :: 0 <= i < |ts| ==> ts[i].displayId == DisplayId(numbers[i])
    requires t.displayId == DisplayId(n)
    ensures forall i :: 0 <= i < |ts| + 1 ==> ([t] + ts)[i].displayId == DisplayId(([n] + numbers)[i])
  {
    forall i | 0 <= i < |ts| + 1 ensures ([t] + ts)[i].displayId == DisplayId(([n] + numbers)[i]) {
      if i > 0 {
        assert ([t] + ts)[i] == ts[i - 1];
        assert ([n] + numbers)[i] == numbers[i - 1];
      }
    }
  }

  /** Putting n + 1 in front of a permutation of 1..n gives one of 1..n+1. */
  lemma PrependOneTo(numbers: seq<nat>, n: nat)
    requires multiset(numbers) == multiset(OneTo(n))
    ensures multiset([n + 1] + numbers) == multiset(OneTo(n + 1))
  {
    calc {
      multiset([n + 1] + numbers);
      multiset{n + 1} + multiset(numbers);
      multiset{n + 1} + multiset(OneTo(n));
      { OneToSnoc(n); }
      multiset(OneTo(n + 1));
    }
  }

  /** Under the numbering invariant no two tickets share a label. */
  lemma NumberedDistinct(ts: seq<Ticket>, numbers: seq<nat>)
    requires NumberedBy(ts, numbers)
    ensures forall i, j :: 0 <= i < j < |ts| ==> ts[i].displayId != ts[j].displayId
  {
    PermutationOfOneToDistinct(numbers);
    forall i, j | 0 <= i < j < |ts| ensures ts[i].displayId != ts[j].displayId {
      DisplayIdInjective(numbers[i], numbers[j]);
    }
  }

  // ------------------------------------------------------------- GET filter

  /** The predicates the GET handler filters by. */
  datatype Criterion =
    | RequestedBy(requesterId: string)
    | Unassigned
    | AssignedOpen(agentId: string)
    | OpenStatus
    | ClosedStatus

  /** Whether ticket t passes criterion c. An unassigned ticket has no or an
      empty assignee; a ticket passing either open criterion is neither
      resolved nor closed. */
  predicate Matches(c: Criterion, t: Ticket): (b: bool)
    ensures b && c.Unassigned? ==> t.assigneeId == None || t.assigneeId == Some("")
    ensures b && (c.AssignedOpen? || c.OpenStatus?) ==> t.status != "Resolved" && t.status != "Closed"
  {
    match c
    case RequestedBy(r) => t.requesterId == Some(r)
    case Unassigned => !Truthy(t.assigneeId)
    case AssignedOpen(a) => t.assigneeId == Some(a) && t.status in ["Open", "In Progress"]
    case OpenStatus => t.status in ["Open", "In Progress", "Pending"]
    case ClosedStatus => t.status == "Closed"
  }

  /** The tickets of ts that pass c, in their order in ts. */
  function Select(c: Criterion, ts: seq<Ticket>): (r: seq<Ticket>)
    ensures |r| <= |ts|
    ensures forall t :: t in r ==> t in ts && Matches(c, t)
    decreases |ts|
  {
    if ts == [] then [] else (if Matches(c, ts[0]) then [ts[0]] else []) + Select(c, ts[1..])
  }

  /** A filter keeps exactly the matching tickets, each as often as it
      occurs, in store order. */
  lemma {:induction false} SelectExact(c: Criterion, ts: seq<Ticket>)
    ensures IsSubsequence(Select(c, ts), ts)
    ensures forall t :: t in Select(c, ts) ==> Matches(c, t)
    ensures forall t :: Matches(c, t) ==> multiset(Select(c, ts))[t] == multiset(ts)[t]
    decreases |ts|
  {
    if ts != [] {
      var rest := Select(c, ts[1..]);
      SelectExact(c, ts[1..]);
      assert ts == [ts[0]] + ts[1..];
      if Matches(c, ts[0]) {
        assert Select(c, ts) == [ts[0]] + rest;
        assert Select(c, ts)[1..] == rest;
      } else {
        assert Select(c, ts) == rest;
      }
    }
  }

  /** The first user whose role is Agent, if there is one. */
  function FirstAgent(users: seq<User>): (r: Option<User>)
    ensures r.None? <==> forall i :: 0 <= i < |users| ==> users[i].role != "Agent"
    ensures r.Some? ==> exists i :: 0 <= i < |users| && users[i] == r.value && r.value.role == "Agent" &&
                                  forall j :: 0 <= j < i ==> users[j].role != "Agent"
    decreases |users|
  {
    if users == [] then None
    else if users[0].role == "Agent" then Some(users[0])
    else FirstAgent(users[1..])
  }

  const RecentlyClosedLimit: nat := 20

  /** The tickets GET returns for the query parameters `view` and
      `requester_id` (each absent when None). */
  function Filter(view: Option<string>, requesterId: Option<string>, users: seq<User>, tickets: seq<Ticket>): (r: seq<Ticket>)
    ensures |r| <= |tickets|
    ensures forall t :: t in r ==> t in tickets
  {
    if Truthy(requesterId) then Select(RequestedBy(requesterId.value), tickets)
    else if !Truthy(view) then tickets
    else if view.value == "Unassigned" then Select(Unassigned, tickets)
    else if view.value == "My Open Tickets" then
      match FirstAgent(users)
      case Some(agent) => Select(AssignedOpen(agent.id), tickets)
      case None => tickets
    else if view.value == "All Open Tickets" then Select(OpenStatus, tickets)
    else if view.value == "Recently Closed" then Take(Select(ClosedStatus, tickets), RecentlyClosedLimit)
    else tickets
  }

  const KnownViews: set<string> := {"Unassigned", "My Open Tickets", "All Open Tickets", "Recently Closed"}

  /** Whatever the query, the result lists store tickets in store order,
      none of them more often than the store holds it. */
  lemma FilterIsOrderedSubsequence(view: Option<string>, requesterId: Option<string>, users: seq<User>, tickets: seq<Ticket>)
    ensures IsSubsequence(Filter(view, requesterId, users, tickets), tickets)
    ensures multiset(Filter(view, requesterId, users, tickets)) <= multiset(tickets)
  {
    var r := Filter(view, requesterId, users, tickets);
    if Truthy(requesterId) {
      SelectExact(RequestedBy(requesterId.value), tickets);
    } else if !Truthy(view) || view.value !in KnownViews {
      SubsequenceOfItself(tickets);
    } else if view.value == "Unassigned" {
      SelectExact(Unassigned, tickets);
    } else if view.value == "My Open Tickets" {
      match FirstAgent(users)
      case Some(agent) => SelectExact(AssignedOpen(agent.id), tickets);
      case None => SubsequenceOfItself(tickets);
    } else if view.value == "All Open Tickets" {
      SelectExact(OpenStatus, tickets);
    } else {
      var closed := Select(ClosedStatus, tickets);
      SelectExact(ClosedStatus, tickets);
      PrefixOfSubsequence(closed, tickets, |r|);
    }
    SubsequenceElements(r, tickets);
  }

  lemma {:induction false} SubsequenceOfItself(s: seq<Ticket>)
    ensures IsSubsequence(s, s)
    decreases |s|
  {
    if s != [] {
      SubsequenceOfItself(s[1..]);
    }
  }

  /** A non-empty `requester_id` wins over any `view`: the result is exactly
      that requester's tickets. */
  lemma RequesterOverridesView(view: Option<string>, requesterId: Option<string>, users: seq<User>, tickets: seq<Ticket>)
    requires Truthy(requesterId)
    ensures Filter(view, requesterId, users, tickets) == Filter(None, requesterId, users, tickets)
    ensures forall t :: t in Filter(view, requesterId, users, tickets) ==> t.requesterId == requesterId
    ensures forall t: Ticket :: t.requesterId == requesterId ==>
      multiset(Filter(view, requesterId, users, tickets))[t] == multiset(tickets)[t]
  {
    SelectExact(RequestedBy(requesterId.value), tickets);
  }

  lemma UnassignedView(requesterId: Option<string>, users: seq<User>, tickets: seq<Ticket>)
    requires !Truthy(requesterId)
    ensures forall t :: t in Filter(Some("Unassigned"), requesterId, users, tickets) ==> !Truthy(t.assigneeId)
    ensures forall t: Ticket :: !Truthy(t.assigneeId) ==>
      multiset(Filter(Some("Unassigned"), requesterId, users, tickets))[t] == multiset(tickets)[t]
  {
    SelectExact(Unassigned, tickets);
  }

  lemma AllOpenView(requesterId: Option<string>, users: seq<User>, tickets: seq<Ticket>)
    requires !Truthy(requesterId)
    ensures forall t :: t in Filter(Some("All Open Tickets"), requesterId, users, tickets) ==>
      t.status == "Open" || t.status == "In Progress" || t.status == "Pending"
    ensures forall t: Ticket :: (t.status == "Open" || t.status == "In Progress" || t.status == "Pending") ==>
      multiset(Filter(Some("All Open Tickets"), requesterId, users, tickets))[t] == multiset(tickets)[t]
  {
    SelectExact(OpenStatus, tickets);
  }

  /** "My Open Tickets" is the open or in-progress tickets assigned to the
      first Agent, the user at index i. */
  lemma MyOpenView(requesterId: Option<string>, users: seq<User>, tickets: seq<Ticket>, i: nat)
    requires !Truthy(requesterId)
    requires i < |users| && users[i].role == "Agent"
    requires forall j :: 0 <= j < i ==> users[j].role != "Agent"
    ensures forall t :: t in Filter(Some("My Open Tickets"), requesterId, users, tickets) ==>
      t.assigneeId == Some(users[i].id) && (t.status == "Open" || t.status == "In Progress")
    ensures forall t: Ticket :: t.assigneeId == Some(users[i].id) && (t.status == "Open" || t.status == "In Progress") ==>
      multiset(Filter(Some("My Open Tickets"), requesterId, users, tickets))[t] == multiset(tickets)[t]
  {
    FirstAgentAt(users, i);
    SelectExact(AssignedOpen(users[i].id), tickets);
  }

  /** With no Agent among the users "My Open Tickets" is not filtered. */
  lemma MyOpenWithoutAgent(requesterId: Option<string>, users: seq<User>, tickets: seq<Ticket>)
    requires !Truthy(requesterId)
    requires forall u :: u in users ==> u.role != "Agent"
    ensures Filter(Some("My Open Tickets"), requesterId, users, tickets) == tickets
  {
  }

  /** The first Agent in the list is the one FirstAgent returns. */
  lemma {:induction false} FirstAgentAt(users: seq<User>, i: nat)
    requires i < |users| && users[i].role == "Agent"
    requires forall j :: 0 <= j < i ==> users[j].role != "Agent"
    ensures FirstAgent(users) == Some(users[i])
    decreases i
  {
    if i > 0 {
      FirstAgentAt(users[1..], i - 1);
    }
  }

  /** "Recently Closed" is the first (at most) 20 Closed tickets. */
  lemma RecentlyClosedView(requesterId: Option<string>, users: seq<User>, tickets: seq<Ticket>)
    requires !Truthy(requesterId)
    ensures var r := Filter(Some("Recently Closed"), requesterId, users, tickets);
      && |r| <= RecentlyClosedLimit
      && (forall t :: t in r ==> t.status == "Closed")
      && r == Select(ClosedStatus, tickets)[..|r|]
      && (|r| < RecentlyClosedLimit ==> forall t: Ticket :: t.status == "Closed" ==> multiset(r)[t] == multiset(tickets)[t])
  {
    SelectExact(ClosedStatus, tickets);
  }

  /** An absent, empty or unrecognised view returns every ticket. */
  lemma OtherViews(view: Option<string>, requesterId: Option<string>, users: seq<User>, tickets: seq<Ticket>)
    requires !Truthy(requesterId)
    requires !Truthy(view) || view.value !in KnownViews
    ensures Filter(view, requesterId, users, tickets) == tickets
  {
  }

  // ----------------------------------------------------------------- POST

  /** The fields of a POST body the handler reads; each may be absent. */
  datatype TicketBody = TicketBody(
    subject: Option<string>,
    description: Option<string>,
    priority: Option<string>,
    requesterId: Option<string>,
    assigneeId: Option<string>,
    teamId: Option<string>,
    categoryId: Option<string>,
    subCategoryId: Option<string>,
    source: Option<string>)

  /** The generated parts of a new ticket: a uuid, the three readings of
      the clock the handler takes (for the creation, the last update and the
      assignment, in that order) and a generated future date for the resolution. */
  datatype Creation = Creation(id: string, createdNow: Time, updatedNow: Time, assignedNow: Time, dueDate: Time)

  /** A clock that does not run backwards between the three readings. */
  predicate ClockForward(c: Creation) {
    c.createdNow <= c.updatedNow <= c.assignedNow
  }

  /** The ticket POST builds; `number` is the store length plus one. It is
      open, has a non-empty priority and source, and has an assignment time
      exactly when it has an assignee. */
  function NewTicket(body: TicketBody, c: Creation, number: nat, defaultTeamId: string): (t: Ticket)
    ensures t.status == "Open" && t.closedAt.None?
    ensures t.priority != "" && t.source != ""
    ensures t.assignedAt.Some? <==> t.assigneeId.Some?
  {
    Ticket(
      id := c.id,
      displayId := DisplayId(number),
      subject := body.subject,
      description := body.description,
      status := "Open",
      priority := OrElse(body.priority, "Medium"),
      requesterId := body.requesterId,
      assigneeId := OrNull(body.assigneeId),
      teamId := OrElse(body.teamId, defaultTeamId),
      categoryId := body.categoryId,
      subCategoryId := body.subCategoryId,
      source := OrElse(body.source, "Portal"),
      approvalStatus := None,
      resolutionNotes := None,
      createdAt := c.createdNow,
      updatedAt := c.updatedNow,
      assignedAt := if Truthy(body.assigneeId) then Some(c.assignedNow) else None,
      firstRespondedAt := None,
      closedAt := None,
      resolutionDueDate := c.dueDate)
  }

  /** POST fills the defaults: status Open, no approval, notes, first
      response or closing date; priority Medium, source Portal and the first
      team unless the body names them; an assignment time exactly when an
      assignee is given. Everything else is copied from the body. */
  lemma NewTicketDefaults(body: TicketBody, c: Creation, number: nat, defaultTeamId: string)
    ensures var t := NewTicket(body, c, number, defaultTeamId);
      && t.id == c.id
      && t.status == "Open" && t.approvalStatus.None? && t.resolutionNotes.None?
      && t.firstRespondedAt.None? && t.closedAt.None?
      && t.priority == (if Truthy(body.priority) then body.priority.value else "Medium")
      && t.source == (if Truthy(body.source) then body.source.value else "Portal")
      && t.teamId == (if Truthy(body.teamId) then body.teamId.value else defaultTeamId)
      && (t.assigneeId.Some? <==> Truthy(body.assigneeId))
      && (t.assignedAt.Some? <==> t.assigneeId.Some?)
      && (t.assigneeId.Some? ==> t.assigneeId == body.assigneeId && t.assignedAt == Some(c.assignedNow))
      && t.subject == body.subject && t.description == body.description && t.requesterId == body.requesterId
      && t.categoryId == body.categoryId && t.subCategoryId == body.subCategoryId
      && t.createdAt == c.createdNow && t.updatedAt == c.updatedNow && t.resolutionDueDate == c.dueDate
  {
  }

  /** With a clock that does not run backwards, a new ticket was updated no
      earlier than it was created and assigned no earlier than updated. */
  lemma NewTicketTimesOrdered(body: TicketBody, c: Creation, number: nat, defaultTeamId: string)
    requires ClockForward(c)
    ensures var t := NewTicket(body, c, number, defaultTeamId);
      && t.createdAt <= t.updatedAt
      && (t.assignedAt.Some? ==> t.updatedAt <= t.assignedAt.value)
  {
  }


  // ----------------------------------------------------------------- store

  /** Before seeding every array is empty; afterwards the fixture tables
      keep their seeded sizes. (The store's invariant adds that the ticket
      labels stay numbered 1..n.) */
  ghost predicate Shaped(initialized: bool, users: nat, teams: nat, categories: nat, subcategories: nat, tickets: nat) {
    && (!initialized ==> users == teams == categories == subcategories == tickets == 0)
    && (initialized ==>
          users == SeedUserCount && teams == |TeamNames| &&
          categories == |CategoryNames| && subcategories == |SubcategoryNames| &&
          tickets >= SeedTicketCount)
  }

  class TicketStore {
    var users: seq<User>
    var teams: seq<Team>
    var categories: seq<Category>
    var subcategories: seq<Subcategory>
    var tickets: seq<Ticket>
    var initialized: bool
    /** The number each ticket's label carries, in store order. */
    ghost var numbers: seq<nat>

    ghost function Contents(): Tables
      reads this
    {
      Tables(users, teams, categories, subcategories, tickets)
    }

    ghost predicate Valid()
      reads this
    {
      && Shaped(initialized, |users|, |teams|, |categories|, |subcategories|, |tickets|)
      && NumberedBy(tickets, numbers)
    }

    constructor ()
      ensures Valid() && !initialized
    {
      users, teams, categories, subcategories, tickets := [], [], [], [], [];
      initialized := false;
      numbers := [];
    }

    /** `initializeData`: seeds once; a later call changes nothing. */
    method InitializeData(seed: SeedDraws)
      requires Valid() && WellFormed(seed)
      modifies this
      ensures Valid() && initialized
      ensures Contents() == if old(initialized) then old(Contents()) else Seed(seed)
    {
      if initialized {
        return;
      }
      var t := Seed(seed);
      SeedNumbered(seed);
      users, teams, categories, subcategories := t.users, t.teams, t.categories, t.subcategories;
      tickets := t.tickets;
      numbers := OneTo(SeedTicketCount);
      initialized := true;
    }

    /** GET /tickets?view=&requester_id= */
    method Get(seed: SeedDraws, view: Option<string>, requesterId: Option<string>) returns (r: seq<Ticket>)
      requires Valid() && WellFormed(seed)
      modifies this
      ensures Valid() && initialized
      ensures Contents() == if old(initialized) then old(Contents()) else Seed(seed)
      ensures r == Filter(view, requesterId, users, tickets)
    {
      InitializeData(seed);
      r := Filter(view, requesterId, users, tickets);
    }

    /** POST /tickets: the new ticket goes in front of the others. */
    method Post(seed: SeedDraws, body: TicketBody, c: Creation) returns (t: Ticket)
      requires Valid() && WellFormed(seed)
      modifies this
      ensures Valid() && initialized
      ensures var before := if old(initialized) then old(Contents()) else Seed(seed);
        Contents() == before.(tickets := [t] + before.tickets)
      ensures t == NewTicket(body, c, |tickets|, teams[0].id)
    {
      InitializeData(seed);
      t := Prepend(body, c);
    }

    /** The part of POST after seeding. */
    method Prepend(body: TicketBody, c: Creation) returns (t: Ticket)
      requires Valid() && initialized
      modifies this
      ensures Valid() && initialized
      ensures Contents() == old(Contents()).(tickets := [t] + old(tickets))
      ensures t == NewTicket(body, c, |tickets|, teams[0].id)
    {
      var n := |tickets| + 1;
      t := NewTicket(body, c, n, teams[0].id);
      PrependNumbered(t, tickets, numbers);
      numbers := [n] + numbers;
      tickets := [t] + tickets;
    }
  }

  /** Two lookups of the same store answer the same, and a second seeding
      draw is ignored. */
  method InitializationIsIdempotent(seed1: SeedDraws, seed2: SeedDraws)
    requires WellFormed(seed1) && WellFormed(seed2)
  {
    var store := new TicketStore();
    store.InitializeData(seed1);
    var first := store.Contents();
    store.InitializeData(seed2);
    assert store.Contents() == first == Seed(seed1);
  }
}
