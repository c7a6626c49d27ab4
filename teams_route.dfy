/** The teams route: five named support teams with generated ids, seeded
    on first use; GET lists them and POST appends one. */
module TeamsRoute {
  import opened Values

  /** A team as the route stores it; a posted name may be missing. */
  datatype Team = Team(id: string, name: Option<string>)

  /** The parsed POST body. */
  datatype TeamBody = TeamBody(name: Option<string>)

  const TeamNames: seq<string> := ["IT Support", "HR Support", "Finance Support", "Facilities", "Security"]

  /** The seeded list, one generated uuid per fixture name. */
  function Seed(ids: seq<string>): (r: seq<Team>)
    requires |ids| == |TeamNames|
    ensures |r| == |TeamNames|
    ensures forall i :: 0 <= i < |r| ==> r[i].id == ids[i] && r[i].name == Some(TeamNames[i])
  {
    seq(|ids|, i requires 0 <= i < |ids| => Team(ids[i], Some(TeamNames[i])))
  }

  /** The record POST stores: a fresh uuid and the name as sent, which is
      not checked. */
  function NewTeam(id: string, body: TeamBody): (t: Team)
    ensures t.id == id && t.name == body.name
  {
    Team(id, body.name)
  }

  class TeamStore {
    var teams: seq<Team>
    var initialized: bool
    /** The uuids drawn when the store was seeded. */
    ghost var seedIds: seq<string>

    /** Empty until seeded; afterwards the seeded teams stay in front,
      unchanged, and posted ones follow. */
    ghost predicate Valid()
      reads this
    {
      && (!initialized ==> teams == [])
      && (initialized ==>
            |seedIds| == |TeamNames| && |teams| >= |TeamNames| &&
            teams[..|TeamNames|] == Seed(seedIds))
    }

    constructor ()
      ensures Valid() && !initialized
    {
      teams := [];
      initialized := false;
      seedIds := [];
    }

    /** `initializeTeams`: seeds once; a later call changes nothing. */
    method Initialize(ids: seq<string>)
      requires Valid() && |ids| == |TeamNames|
      modifies this
      ensures Valid() && initialized
      ensures teams == if old(initialized) then old(teams) else Seed(ids)
    {
      if initialized {
        return;
      }
      teams := Seed(ids);
      seedIds := ids;
      initialized := true;
    }

    /** GET /teams */
    method Get(ids: seq<string>) returns (r: seq<Team>)
      requires Valid() && |ids| == |TeamNames|
      modifies this
      ensures Valid() && initialized
      ensures teams == if old(initialized) then old(teams) else Seed(ids)
      ensures r == teams
    {
      Initialize(ids);
      r := teams;
    }

    /** POST /teams: appends the new team and returns it. */
    method Post(ids: seq<string>, id: string, body: TeamBody) returns (t: Team)
      requires Valid() && |ids| == |TeamNames|
      modifies this
      ensures Valid() && initialized
      ensures t == NewTeam(id, body)
      ensures teams == (if old(initialized) then old(teams) else Seed(ids)) + [t]
    {
      Initialize(ids);
      t := NewTeam(id, body);
      teams := teams + [t];
    }
  }
}
