/** The status and priority badges: a colour class chosen by the lower-cased
    text, appended to a fixed class list; the badge shows the text as given. */
module Badges {
  import opened Text
  import TicketsRoute

  const Green: string := "bg-green-100 text-green-800 border-green-200"
  const Yellow: string := "bg-yellow-100 text-yellow-800 border-yellow-200"
  const Orange: string := "bg-orange-100 text-orange-800 border-orange-200"
  const Blue: string := "bg-blue-100 text-blue-800 border-blue-200"
  const Gray: string := "bg-gray-100 text-gray-800 border-gray-200"
  const Red: string := "bg-red-100 text-red-800 border-red-200"
  const LightRed: string := "bg-red-100 text-red-700 border-red-200"

  const BaseClass: string := "inline-flex items-center px-2.5 py-0.5 rounded-full text-xs font-medium border "

  /** The statuses and priorities with a colour of their own, lower-cased. */
  const ColouredStatuses: seq<string> := ["open", "in progress", "pending", "resolved"]
  const ColouredPriorities: seq<string> := ["critical", "high", "medium", "low"]

  /** `getStatusColor`: one of the five status colours; "closed" and every
      unknown status are gray. */
  function StatusColor(status: string): (r: string)
    ensures r in [Green, Yellow, Orange, Blue, Gray]
  {
    var key := ToLower(status);
    if key == "open" then Green
    else if key == "in progress" then Yellow
    else if key == "pending" then Orange
    else if key == "resolved" then Blue
    else if key == "closed" then Gray
    else Gray
  }

  /** `getPriorityColor`: one of the five priority colours; every unknown
      priority is gray. */
  function PriorityColor(priority: string): (r: string)
    ensures r in [Red, LightRed, Yellow, Green, Gray]
  {
    var key := ToLower(priority);
    if key == "critical" then Red
    else if key == "high" then LightRed
    else if key == "medium" then Yellow
    else if key == "low" then Green
    else Gray
  }

  datatype Badge = Badge(className: string, text: string)

  function StatusBadge(status: string): (b: Badge)
    ensures b.text == status
    ensures |b.className| >= |BaseClass| && b.className[..|BaseClass|] == BaseClass
    ensures b.className[|BaseClass|..] == StatusColor(status)
  {
    Badge(BaseClass + StatusColor(status), status)
  }

  function PriorityBadge(priority: string): (b: Badge)
    ensures b.text == priority
    ensures |b.className| >= |BaseClass| && b.className[..|BaseClass|] == BaseClass
    ensures b.className[|BaseClass|..] == PriorityColor(priority)
  {
    Badge(BaseClass + PriorityColor(priority), priority)
  }

  /** Texts equal up to case get the same colour; in particular
      lower-casing first does not change it. */
  lemma StatusColorIgnoresCase(status: string, other: string)
    ensures ToLower(status) == ToLower(other) ==> StatusColor(status) == StatusColor(other)
    ensures StatusColor(ToLower(status)) == StatusColor(status)
  {
    ToLowerIdempotent(status);
  }

  lemma PriorityColorIgnoresCase(priority: string, other: string)
    ensures ToLower(priority) == ToLower(other) ==> PriorityColor(priority) == PriorityColor(other)
    ensures PriorityColor(ToLower(priority)) == PriorityColor(priority)
  {
    ToLowerIdempotent(priority);
  }

  /** A status gets a colour other than gray exactly when its lower-cased
      form is one of the four coloured statuses; "closed" falls in with the
      unknown ones. */
  lemma StatusGrayUnlessColoured(status: string)
    ensures StatusColor(status) != Gray <==> ToLower(status) in ColouredStatuses
  {
  }

  lemma PriorityGrayUnlessColoured(priority: string)
    ensures PriorityColor(priority) != Gray <==> ToLower(priority) in ColouredPriorities
  {
  }

  /** The five ticket statuses the tickets route generates, as the badge
      colours them: "Closed" is gray like an unknown status. */
  lemma TicketStatusColours()
    ensures StatusColor(TicketsRoute.Statuses[0]) == Green
    ensures StatusColor(TicketsRoute.Statuses[1]) == Yellow
    ensures StatusColor(TicketsRoute.Statuses[2]) == Orange
    ensures StatusColor(TicketsRoute.Statuses[3]) == Blue
    ensures StatusColor(TicketsRoute.Statuses[4]) == Gray
  {
    assert ToLower("Open") == "open";
    assert ToLower("In Progress") == "in progress";
    assert ToLower("Pending") == "pending";
    assert ToLower("Resolved") == "resolved";
    assert ToLower("Closed") == "closed";
  }

  /** The four priorities the tickets route generates: "High" and
      "Critical" differ only in the text shade. */
  lemma TicketPriorityColours()
    ensures PriorityColor(TicketsRoute.Priorities[0]) == Green
    ensures PriorityColor(TicketsRoute.Priorities[1]) == Yellow
    ensures PriorityColor(TicketsRoute.Priorities[2]) == LightRed
    ensures PriorityColor(TicketsRoute.Priorities[3]) == Red
    ensures Red != LightRed
  {
    assert ToLower("Low") == "low";
    assert ToLower("Medium") == "medium";
    assert ToLower("High") == "high";
    assert ToLower("Critical") == "critical";
    assert Red[20] != LightRed[20];
  }
}
