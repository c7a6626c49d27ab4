/** The random generator's output, passed in as values. Each call of the
    generator the source makes becomes one field of a draw record; a random
    choice from a list becomes an index reduced modulo the list's length. */
module Draws {

  /** A random choice from a non-empty list, for a drawn index k. */
  function Pick<T>(choices: seq<T>, k: nat): (x: T)
    requires |choices| > 0
    ensures x in choices
  {
    choices[k % |choices|]
  }

  const Roles: seq<string> := ["Agent", "Admin", "User"]

  /** One generated person: uuid, name, e-mail, phone, city, state and the
      index of the chosen role. */
  datatype PersonDraw = PersonDraw(
    id: string,
    fullName: string,
    email: string,
    phoneNumber: string,
    city: string,
    state: string,
    role: nat)

  /** An office location: the city, a comma and a space, then the state. */
  function OfficeLocation(city: string, state: string): (r: string)
    ensures |r| == |city| + 2 + |state|
    ensures r[..|city|] == city && r[|city| + 2..] == state
    ensures r[|city|..|city| + 2] == ", "
  {
    city + ", " + state
  }
}
