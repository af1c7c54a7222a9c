/**
 * The division handlers: create, partial update, the members listing and
 * the delete guard that refuses to remove a division users still belong to.
 */
module Divisions {
  import opened Common
  import opened Users

  datatype Division = Division(name: string, description: Option<string>)

  /** `User.findAll({ where: { division_id: id } })`: the users of a division. */
  function Members(users: map<Id, User>, id: Id): (r: set<Id>)
    ensures forall u :: u in r <==> u in users && users[u].divisionId == Some(id)
  {
    set u | u in users && users[u].divisionId == Some(id)
  }

  /** Every user's division id names a stored division. */
  ghost predicate NoDanglingDivision(users: map<Id, User>, divisions: map<Id, Division>)
  {
    forall u :: u in users && users[u].divisionId.Some? ==> users[u].divisionId.value in divisions
  }

  class DivisionStore {
    var divisions: map<Id, Division>
    var nextId: Id

    ghost predicate Valid()
      reads this
    {
      nextId > 0 && forall id :: id in divisions ==> 0 < id < nextId
    }

    constructor ()
      ensures Valid()
      ensures divisions == map[]
    {
      divisions := map[];
      nextId := 1;
    }

    /** `getDivision`: the division, or 404. */
    function GetDivision(id: Id): (r: Result<Division>)
      reads this
      ensures r.Err? <==> id !in divisions
      ensures r.Err? ==> r.error == NotFound
      ensures r.Ok? ==> r.value == divisions[id]
    {
      if id in divisions then Ok(divisions[id]) else Err(NotFound)
    }

    /** `getDivisionMembers`: 404 for an unknown division, else the users whose division it is. */
    function GetDivisionMembers(id: Id, users: map<Id, User>): (r: Result<set<Id>>)
      reads this
      ensures r.Err? <==> id !in divisions
      ensures r.Err? ==> r.error == NotFound
      ensures r.Ok? ==> forall u :: u in r.value <==> u in users && users[u].divisionId == Some(id)
    {
      if id in divisions then Ok(Members(users, id)) else Err(NotFound)
    }

    /** `createDivision`: the name is required; the description is stored as given. */
    method CreateDivision(name: Option<string>, description: Option<string>) returns (r: Result<Id>)
      requires Valid()
      modifies this
      ensures Valid()
      ensures r.Err? <==> !TruthyStr(name)
      ensures r.Err? ==> r.error == BadRequest(MissingFields) && divisions == old(divisions)
      ensures r.Ok? ==>
        && r.value == old(nextId) && r.value !in old(divisions)
        && divisions == old(divisions)[r.value := Division(name.value, description)]
    {
      if !TruthyStr(name) {
        return Err(BadRequest(MissingFields));
      }
      r := Ok(nextId);
      divisions := divisions[nextId := Division(name.value, description)];
      nextId := nextId + 1;
    }

    /**
     * `updateDivision`: 404 for an unknown id; a truthy name replaces the
     * stored one, a description given (even null or empty) replaces it.
     */
    method UpdateDivision(id: Id, name: Option<string>, description: Option<Option<string>>) returns (r: Result<()>)
      requires Valid()
      modifies this
      ensures Valid()
      ensures nextId == old(nextId)
      ensures r.Err? <==> id !in old(divisions)
      ensures r.Err? ==> r.error == NotFound && divisions == old(divisions)
      ensures r.Ok? ==>
        var d := old(divisions[id]);
        divisions == old(divisions)[id := Division(
          if TruthyStr(name) then name.value else d.name,
          if description.Some? then description.value else d.description)]
    {
      if id !in divisions {
        return Err(NotFound);
      }
      var d := divisions[id];
      if TruthyStr(name) {
        d := d.(name := name.value);
      }
      if description.Some? {
        d := d.(description := description.value);
      }
      divisions := divisions[id := d];
      r := Ok(());
    }

    /**
     * `deleteDivision`: 404 for an unknown id; refused, and the division
     * kept, while any user belongs to it; otherwise removed.
     */
    method DeleteDivision(id: Id, users: map<Id, User>) returns (r: Result<()>)
      requires Valid()
      modifies this
      ensures Valid()
      ensures id !in old(divisions) ==> r == Err(NotFound)
      ensures id in old(divisions) && Members(users, id) != {} ==> r == Err(BadRequest(HasMembers))
      ensures r.Err? ==> divisions == old(divisions)
      ensures r.Ok? <==> id in old(divisions) && Members(users, id) == {}
      ensures r.Ok? ==> divisions == old(divisions) - {id}
      ensures nextId == old(nextId)
      ensures NoDanglingDivision(users, old(divisions)) ==> NoDanglingDivision(users, divisions)
    {
      if id !in divisions {
        return Err(NotFound);
      }
      var userCount := |Members(users, id)|;
      if userCount > 0 {
        return Err(BadRequest(HasMembers));
      }
      divisions := divisions - {id};
      r := Ok(());
    }
  }
}
