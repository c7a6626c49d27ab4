# Help-desk mock stores in Dafny

This project models the in-memory back end of a help-desk demo application.

- **Ticket endpoint** (`app/api/tickets/route.ts`). It seeds users, teams, categories, subcategories and 100 tickets once. GET answers with a filter chosen by the `requester_id` and `view` query parameters. POST fills in defaults, labels the new ticket `TICK-<n>` and puts it in front of the others.
- **Shared mock database** (`lib/mock-db.ts`). Its seeder is deterministic: ids are `id_<n>`. The four fixture tickets carry fresh copies of their requester and assignee, and the seeded team and category objects themselves. `nextTicketId` derives the next id and label from the ticket count.
- **Four simple stores**: users, teams, categories and subcategories. Each seeds a fixture list once and appends on POST without validating anything.
- **Badge colours** (`components/ui/badges.tsx`). A status or priority selects a colour class after lower-casing; unknown values fall back to gray.

Randomly generated values (uuids, names, dates, random list choices) are parameters of the model. A choice from a list is a drawn index taken modulo the list's length. Timestamps are integers (milliseconds), and `Date.now()` / `new Date()` are parameters too. POST /tickets reads the clock three times, so a new ticket's creation, update and assignment times are three separate parameters. A JSON body field that may be absent or null is an `Option<string>`. JavaScript truthiness of such a field is `Values.Truthy`: absent, null and the empty string are falsy.

Each route's module-level arrays and `initialized` flag become a class. The routes' initialisers, GET and POST handlers become its methods, and each method's `ensures` gives the whole new state. Each class's `Valid()` invariant says what the store keeps. For the ticket store, the numbers on the labels are always a permutation of 1..|tickets|. For the simple stores, the seeded records stay in front, unchanged. The lemmas beside each class state what the filters, defaults and fixtures promise.

Four behaviours of the code worth stating:
- POST /tickets prepends (`unshift`) instead of appending.
- POST /tickets sets `assigned_at` whenever `assignee_id` is truthy.
- Seeded tickets of the ticket route always carry a `first_responded_at`.
- POST /users stores any role string it is given.

## Model

| member | source | states |
|---|---|---|
| Values.OrElse | app/api/tickets/route.ts:127 | `x \|\| fallback` is x's value when x is truthy and the fallback otherwise |
| Values.OrNull | app/api/tickets/route.ts:129 | `x \|\| null` is present exactly when x is truthy, and then equals x |
| Text.Decimal | app/api/tickets/route.ts:58 | `String(n)` is a non-empty digit string that starts with '0' only for 0 |
| Text.DecimalRoundTrip | app/api/tickets/route.ts:58 | parsing `String(n)` gives n back |
| Text.DecimalInjective | app/api/tickets/route.ts:58 | different numbers have different decimal strings |
| Text.DecimalLength | app/api/tickets/route.ts:58 | a number below 10^k has at most k digits |
| Text.LeadingZerosIgnored | app/api/tickets/route.ts:58 | zeros put in front of a digit string do not change its value |
| Text.PadStartShape | app/api/tickets/route.ts:58 | `padStart` yields length max(width, \|s\|), ends with s, and has only fill characters before it |
| Text.ToLower | components/ui/badges.tsx:7 | `toLowerCase` maps each ASCII capital to its small letter and keeps every other character, at the same position |
| Labels.DisplayId | app/api/tickets/route.ts:58 | `TICK-` and the number padded to four digits; DisplayIdRoundTrip, DisplayIdInjective and DisplayIdFormat state what it yields |
| Labels.DisplayIdRoundTrip | app/api/tickets/route.ts:58 | the label `TICK-` + padded n reads back as n, for every n |
| Labels.DisplayIdInjective | app/api/tickets/route.ts:123 | different numbers give different labels |
| Labels.DisplayIdFormat | app/api/tickets/route.ts:58 | below 10000 a label is `TICK-` followed by exactly four digits |
| Labels.FirstLabels | app/api/tickets/route.ts:58 | numbers 1 and 100 give TICK-0001 and TICK-0100 |
| Sequences.SubsequenceElements | app/api/tickets/route.ts:92-109 | an ordered subsequence is no longer than its source and holds each element at most as often |
| Sequences.Take | app/api/tickets/route.ts:109 | `slice(0, n)` is the prefix of length min(n, \|s\|) |
| Draws.Pick | app/api/tickets/route.ts:21 | `arrayElement` returns an element of the list |
| Draws.OfficeLocation | app/api/tickets/route.ts:20 | the office is the city, then ", ", then the state |
| TicketsRoute.Seed | app/api/tickets/route.ts:11-78 | seeding yields 30 users, 4 teams, 4 categories, 5 subcategories and 100 tickets |
| TicketsRoute.SeedTicket | app/api/tickets/route.ts:50-78 | seeded ticket i is labelled with number i+1, has a generated status, priority and source, an assignee exactly when not Open, and always a first response |
| TicketsRoute.SeedTicketsCoupled | app/api/tickets/route.ts:50-78 | every seeded ticket: assignee and assigned_at present iff status is not Open; notes iff Resolved or Closed; closed_at iff Closed; assignment, first response and closing dates between created_at and updated_at |
| TicketsRoute.SeedLabels | app/api/tickets/route.ts:50-58 | seeded ticket i is labelled with number i+1, from TICK-0001 to TICK-0100 |
| TicketsRoute.SeedSubcategoryParents | app/api/tickets/route.ts:41-47 | every seeded subcategory's parent is a seeded category |
| TicketsRoute.SeedNumbered | app/api/tickets/route.ts:50-58 | the seeded labels carry the numbers 1..100 |
| TicketsRoute.PrependNumbered | app/api/tickets/route.ts:123-144 | putting a ticket labelled \|tickets\|+1 in front keeps the label numbers a permutation of 1..\|tickets\| |
| TicketsRoute.NumberedDistinct | app/api/tickets/route.ts:123 | while the numbers are a permutation of 1..n, no two tickets share a label |
| TicketsRoute.Matches | app/api/tickets/route.ts:92-109 | the five filter predicates; an Unassigned match has an absent or empty assignee, and an open-view match is neither Resolved nor Closed |
| TicketsRoute.Select | app/api/tickets/route.ts:92-109 | `filter` returns at most as many tickets as the store, all of them store tickets that match |
| TicketsRoute.SelectExact | app/api/tickets/route.ts:92 | `filter` keeps the matching tickets in store order, each exactly as often as in the store, and nothing else |
| TicketsRoute.FirstAgent | app/api/tickets/route.ts:100 | `find` returns the first user with role Agent, and nothing exactly when there is none |
| TicketsRoute.FirstAgentAt | app/api/tickets/route.ts:100 | if user i is the first Agent, `find` returns user i |
| TicketsRoute.Filter | app/api/tickets/route.ts:89-112 | GET returns at most the store's tickets and only store tickets; the lemmas below fix the result of each query |
| TicketsRoute.FilterIsOrderedSubsequence | app/api/tickets/route.ts:89-112 | whatever the query, GET answers with an ordered subsequence of the store, holding no ticket more often than the store does |
| TicketsRoute.RequesterOverridesView | app/api/tickets/route.ts:91-92 | a truthy `requester_id` ignores the view; the result is exactly that requester's tickets |
| TicketsRoute.UnassignedView | app/api/tickets/route.ts:95-97 | "Unassigned" returns exactly the tickets whose assignee is falsy |
| TicketsRoute.MyOpenView | app/api/tickets/route.ts:98-104 | "My Open Tickets" returns exactly the Open or In Progress tickets assigned to the first Agent |
| TicketsRoute.MyOpenWithoutAgent | app/api/tickets/route.ts:100-103 | with no Agent among the users "My Open Tickets" returns every ticket |
| TicketsRoute.AllOpenView | app/api/tickets/route.ts:105-107 | "All Open Tickets" returns exactly the Open, In Progress and Pending tickets |
| TicketsRoute.RecentlyClosedView | app/api/tickets/route.ts:108-110 | "Recently Closed" returns the first at most 20 Closed tickets in store order |
| TicketsRoute.OtherViews | app/api/tickets/route.ts:93-112 | an absent, empty or unknown view returns every ticket |
| TicketsRoute.NewTicket | app/api/tickets/route.ts:121-142 | the ticket POST builds is Open and not closed, has a non-empty priority and source, and has assigned_at exactly when it has an assignee |
| TicketsRoute.NewTicketDefaults | app/api/tickets/route.ts:121-142 | POST: status Open; priority Medium, source Portal and team `teams[0]` when falsy; assignee null when falsy; assigned_at iff assignee truthy, then the third clock reading; created_at and updated_at the first and second readings; approval, notes, first response and closing null; the other fields copied |
| TicketsRoute.NewTicketTimesOrdered | app/api/tickets/route.ts:136-138 | with a clock that does not run backwards, created_at <= updated_at <= assigned_at |
| TicketsRoute.TicketStore.constructor | app/api/tickets/route.ts:4-9 | the store starts empty and not initialised |
| TicketsRoute.TicketStore.InitializeData | app/api/tickets/route.ts:11-81 | seeds the five arrays once; a second call changes nothing |
| TicketsRoute.TicketStore.Get | app/api/tickets/route.ts:83-115 | after seeding, answers with the filter of the store's tickets and does not change them |
| TicketsRoute.TicketStore.Post | app/api/tickets/route.ts:117-146 | after seeding, the new ticket, labelled with the old length plus one, is in front and the old tickets follow unchanged |
| TicketsRoute.TicketStore.Prepend | app/api/tickets/route.ts:121-144 | builds the ticket for number \|tickets\|+1 and unshifts it, keeping the numbering invariant |
| TicketsRoute.InitializationIsIdempotent | app/api/tickets/route.ts:11-12 | a scenario: after a second `initializeData` with other draws the store still holds the first seeding |
| MockDb.Uid | lib/mock-db.ts:51-53 | `id_` and the decimal number; UidRoundTrip and UidInjective state what it yields |
| MockDb.UidRoundTrip | lib/mock-db.ts:51-53 | `uid(n)` reads back as n |
| MockDb.UidInjective | lib/mock-db.ts:51-53 | `uid(n) == uid(m)` only when n == m |
| MockDb.UidsDistinct | lib/mock-db.ts:51-53 | ids made from increasing numbers are pairwise different |
| MockDb.SeedUsers | lib/mock-db.ts:58-64 | five users, user i with id `uid(i+1)` |
| MockDb.SeedTeams | lib/mock-db.ts:66-70 | two teams, ids `uid(10)` and `uid(11)` |
| MockDb.SeedCategories | lib/mock-db.ts:72-77 | three categories, ids `uid(20)` to `uid(22)` |
| MockDb.BaseTicket | lib/mock-db.ts:89-154 | fixture i before it gets its ids; BaseTicketSound states its couplings and its people |
| MockDb.SeedTickets | lib/mock-db.ts:156-160 | the seeded ticket list has four entries |
| MockDb.SeedSizes | lib/mock-db.ts:156-160 | four tickets; ticket i has id `uid(100+i+1)` and label TICK-(i+1) |
| MockDb.SeedTicketsCoupled | lib/mock-db.ts:89-154 | in every seeded ticket: assignee and assigned_at null exactly when Open; closed_at exactly when Closed; created before updated; assignment, first response and closing inside that span, the first response after the assignment |
| MockDb.SeedTicketPeople | lib/mock-db.ts:84-154 | every requester is a seeded User and every assignee a seeded Agent |
| MockDb.BaseTicketSound | lib/mock-db.ts:89-154 | each fixture ticket satisfies the couplings and has seeded people |
| MockDb.WifiTicketSound | lib/mock-db.ts:90-105 | the Open fixture is unassigned, not closed, and requested by a seeded User |
| MockDb.OutlookTicketSound | lib/mock-db.ts:106-121 | the In Progress fixture is assigned to a seeded Agent after creation and before its first response |
| MockDb.PasswordTicketSound | lib/mock-db.ts:122-137 | the Pending fixture is assigned to a seeded Agent, with its dates in order |
| MockDb.BatteryTicketSound | lib/mock-db.ts:138-153 | the Closed fixture has a closing date between creation and last update |
| MockDb.SeedIdsAreUids | lib/mock-db.ts:59-160 | the seeded users', teams', categories' and tickets' ids are `uid` of 1-5, 10-11, 20-22 and 101-104 |
| MockDb.NumberedIdsDistinct | lib/mock-db.ts:59-160 | with the tickets numbered as seeded, no two seeded records of any kind share an id |
| MockDb.SeedIdsDistinct | lib/mock-db.ts:55-163 | after seeding, no two records of any kind share an id |
| MockDb.NextIdsFresh | lib/mock-db.ts:165-168 | with sequential numbering, id `uid(100+n)` and label n, for n = \|tickets\|+1, are in no stored ticket |
| MockDb.Database.constructor | lib/mock-db.ts:41-49 | every table and the comment map start empty, not seeded |
| MockDb.Database.EnsureSeeded | lib/mock-db.ts:55-163 | seeds the four tables once and never the comments; later calls change nothing |
| MockDb.Database.NextTicketId | lib/mock-db.ts:165-168 | reads only; the id parses to 100+\|tickets\|+1, the label to \|tickets\|+1, and both are new while ids are sequential |
| MockDb.SeedingIsIdempotent | lib/mock-db.ts:55-56 | a scenario: seeding again at another time changes nothing, and the next ticket is then id_105 |
| SubcategoriesRoute.SeedCategories | app/api/subcategories/route.ts:11-16 | four parent categories cat1..cat4 |
| SubcategoriesRoute.SeedSubcategories | app/api/subcategories/route.ts:18-32 | thirteen subcategories with the drawn ids and the fixture names in order |
| SubcategoriesRoute.SeedParentsKnown | app/api/subcategories/route.ts:11-32 | every seeded subcategory's parent is one of cat1..cat4 |
| SubcategoriesRoute.NewSubcategory | app/api/subcategories/route.ts:46-50 | POST copies name and parent from the body unchecked |
| SubcategoriesRoute.AppendParentsKnown | app/api/subcategories/route.ts:42-53 | after a POST every parent is still known exactly when the posted parent is present and names a category |
| SubcategoriesRoute.UncheckedParent | app/api/subcategories/route.ts:42-53 | a scenario: right after seeding every parent is known, and a POST without a parent is stored all the same, after which not every parent is known |
| SubcategoriesRoute.SubcategoryStore.constructor | app/api/subcategories/route.ts:4-6 | the store starts empty and not initialised |
| SubcategoriesRoute.SubcategoryStore.Initialize | app/api/subcategories/route.ts:8-35 | seeds both arrays once; a second call changes nothing |
| SubcategoriesRoute.SubcategoryStore.Get | app/api/subcategories/route.ts:37-40 | after seeding, returns the subcategories unchanged |
| SubcategoriesRoute.SubcategoryStore.Post | app/api/subcategories/route.ts:42-54 | appends exactly the new record and returns it; earlier records unchanged |
| UsersRoute.SeedUser | app/api/users/route.ts:11-18 | a seeded user takes every field from the generator and has one of the three roles |
| UsersRoute.Seed | app/api/users/route.ts:11-18 | fifty users, one per draw, in order |
| UsersRoute.SeedRoles | app/api/users/route.ts:17 | every seeded user's role is Agent, Admin or User |
| UsersRoute.NewUser | app/api/users/route.ts:32-39 | the user POST builds has the generated id and a non-empty office and role |
| UsersRoute.NewUserFields | app/api/users/route.ts:32-39 | POST copies name and e-mail; phone, office and role are the body's when truthy, else the generator's phone, `city, state`, and "User" |
| UsersRoute.NewUserRoleKnown | app/api/users/route.ts:38 | the stored role is a known role exactly when the body's role is falsy or known |
| UsersRoute.NewUserHasPhone | app/api/users/route.ts:36 | a new user always has a non-empty phone number when the generator's is non-empty |
| UsersRoute.UserStore.constructor | app/api/users/route.ts:5-6 | the store starts empty and not initialised |
| UsersRoute.UserStore.Initialize | app/api/users/route.ts:8-21 | seeds fifty users once; a second call changes nothing |
| UsersRoute.UserStore.Get | app/api/users/route.ts:23-26 | after seeding, returns the users unchanged |
| UsersRoute.UserStore.Post | app/api/users/route.ts:28-43 | appends exactly the new user and returns it; earlier users unchanged |
| CategoriesRoute.Seed | app/api/categories/route.ts:10-19 | eight categories with the drawn ids and the fixture names in order |
| CategoriesRoute.NewCategory | app/api/categories/route.ts:33-36 | the new category has the fresh id and the body's name as sent |
| CategoriesRoute.CategoryStore.constructor | app/api/categories/route.ts:4-5 | the store starts empty and not initialised |
| CategoriesRoute.CategoryStore.Initialize | app/api/categories/route.ts:7-22 | seeds once; a second call changes nothing |
| CategoriesRoute.CategoryStore.Get | app/api/categories/route.ts:24-27 | after seeding, returns the categories unchanged |
| CategoriesRoute.CategoryStore.Post | app/api/categories/route.ts:29-40 | appends exactly the new category and returns it; earlier entries unchanged |
| TeamsRoute.Seed | app/api/teams/route.ts:10-16 | five teams with the drawn ids and the fixture names in order |
| TeamsRoute.NewTeam | app/api/teams/route.ts:30-33 | the new team has the fresh id and the body's name as sent |
| TeamsRoute.TeamStore.constructor | app/api/teams/route.ts:4-5 | the store starts empty and not initialised |
| TeamsRoute.TeamStore.Initialize | app/api/teams/route.ts:7-19 | seeds once; a second call changes nothing |
| TeamsRoute.TeamStore.Get | app/api/teams/route.ts:21-24 | after seeding, returns the teams unchanged |
| TeamsRoute.TeamStore.Post | app/api/teams/route.ts:26-37 | appends exactly the new team, which is the store's last element and the result |
| Badges.StatusColor | components/ui/badges.tsx:6-21 | always one of the five status colours; StatusColorIgnoresCase and StatusGrayUnlessColoured state which |
| Badges.PriorityColor | components/ui/badges.tsx:35-48 | always one of the five priority colours; PriorityColorIgnoresCase and PriorityGrayUnlessColoured state which |
| Badges.StatusBadge | components/ui/badges.tsx:5-28 | the badge shows the status as given; its class is the fixed list followed by the status colour |
| Badges.PriorityBadge | components/ui/badges.tsx:34-55 | the badge shows the priority as given; its class is the fixed list followed by the priority colour |
| Badges.StatusColorIgnoresCase | components/ui/badges.tsx:6-7 | statuses equal up to case get the same colour |
| Badges.PriorityColorIgnoresCase | components/ui/badges.tsx:35-36 | priorities equal up to case get the same colour |
| Badges.StatusGrayUnlessColoured | components/ui/badges.tsx:6-21 | a status is not gray exactly when lower-cased it is open, in progress, pending or resolved; "closed" is gray like the default |
| Badges.PriorityGrayUnlessColoured | components/ui/badges.tsx:35-48 | a priority is not gray exactly when lower-cased it is critical, high, medium or low |
| Badges.TicketStatusColours | components/ui/badges.tsx:7-19 | Open green, In Progress yellow, Pending orange, Resolved blue, Closed gray |
| Badges.TicketPriorityColours | components/ui/badges.tsx:36-46 | Low green, Medium yellow, High light red, Critical red, and the two reds differ |

## Left out

- The dashboard statistics route: every value in it is freshly random.
- The random generator: its output is passed in. Uuids are not assumed to be unique. The model claims nothing about their distribution.
- ISO-8601 formatting of timestamps: times are integers and only their order matters. The clock is a parameter.
- JSON parsing, `NextResponse` and HTTP status codes (201 on POST). A body field of the wrong JSON type is not modelled.
- React pages, layouts, modals and the login page, and the UI's local list updates.
- PATCH, DELETE and the comment endpoints are not part of this model. The same goes for the display-id collision that delete-then-create could cause, since nothing here deletes a ticket.
- Races on the lazy `initialized` / `seeded` flags: the model is sequential.
- Module reloads that reset a route's arrays.
- Text.ToLower: lower-cases ASCII letters only; the Unicode case mapping of `toLowerCase` is not modelled.
- TicketsRoute.TicketStore.Get: `new URL(request.url)` and `searchParams.get` are not modelled; the two query parameters are passed in as optional strings.
- TicketsRoute.WellFormed: the generator is assumed to return dates with `from <= date <= to` for `faker.date.between` and an `updatedAt` no earlier than `createdAt`. The seeded date couplings rest on that.
- Labels.DisplayIdFormat: holds only below 10000. From TICK-10000 on, `padStart` adds no zeros and the label grows.
- The subcategories route's own `categories` array is seeded but never returned. The model keeps it only as a state field.
- MockDb.Database: `db.tickets` and the copied requesters and assignees are not checked against user changes made elsewhere, because nothing in this model changes them.
- MockDb.SeedTickets: each fixture ticket's `team` and `category` are the very objects in `db.teams` and `db.categories`, shared by reference. The model holds them as plain values, so a later in-place change to a team or category would not show through the tickets. Nothing in this model makes such a change.
