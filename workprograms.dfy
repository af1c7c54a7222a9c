/**
 * The work-program handlers: who may manage a division's programs, the
 * checks and defaults of creation, the partial update that can replace the
 * set of persons in charge (PICs), and deletion.
 */
module WorkPrograms {
  import opened Common

  datatype WorkProgram = WorkProgram(
    divisionId: Id,
    name: string,
    targets: seq<string>,
    status: string,
    pics: set<Id>)

  /**
   * `isAdmin || isDirectorOfDivision`: an ADMIN manages every division; a
   * DIRECTOR manages the programs of the division they belong to.
   */
  predicate CanManage(user: Caller, divisionId: Id)
  {
    IsAdmin(user) || (user.position == "DIRECTOR" && user.divisionId == Some(divisionId))
  }

  /**
   * Without the ADMIN role a user manages at most one division, and only
   * as its DIRECTOR.
   */
  lemma NonAdminManagesOwnDivisionOnly(user: Caller, d1: Id, d2: Id)
    requires !IsAdmin(user)
    ensures CanManage(user, d1) ==> user.position == "DIRECTOR" && user.divisionId == Some(d1)
    ensures CanManage(user, d1) && CanManage(user, d2) ==> d1 == d2
  {
  }

  /** A user whose position is not DIRECTOR needs the ADMIN role to manage anything. */
  lemma OnlyDirectorsAndAdmins(user: Caller, d: Id)
    requires user.position != "DIRECTOR"
    ensures CanManage(user, d) <==> IsAdmin(user)
  {
  }

  /** The persons in charge a `pic_ids` array names: the ids of stored users among them. */
  function PicsFrom(picIds: seq<Id>, users: set<Id>): (r: set<Id>)
    ensures forall p :: p in r <==> p in picIds && p in users
  {
    set p | p in picIds && p in users
  }

  class WorkProgramStore {
    var programs: map<Id, WorkProgram>
    var nextId: Id

    ghost predicate Valid()
      reads this
    {
      nextId > 0 && forall id :: id in programs ==> 0 < id < nextId
    }

    constructor ()
      ensures Valid()
      ensures programs == map[]
    {
      programs := map[];
      nextId := 1;
    }

    /**
     * `createWorkProgram`: name and division id are required, then the
     * division must exist, then the caller must manage it. Targets default to
     * the empty list and status to PLANNED; a non-empty `pic_ids` array
     * assigns the stored users it names.
     */
    method CreateWorkProgram(
      user: Caller, name: Option<string>, divisionId: Option<int>, targets: Option<seq<string>>,
      status: Option<string>, picIds: Option<seq<Id>>, divisions: set<Id>, users: set<Id>)
      returns (r: Result<Id>)
      requires Valid()
      modifies this
      ensures Valid()
      ensures !TruthyStr(name) || !TruthyInt(divisionId) ==> r == Err(BadRequest(MissingFields))
      ensures TruthyStr(name) && TruthyInt(divisionId) && (divisionId.value < 0 || divisionId.value !in divisions) ==>
        r == Err(NotFound)
      ensures TruthyStr(name) && TruthyInt(divisionId) && divisionId.value >= 0 && divisionId.value in divisions
              && !CanManage(user, divisionId.value) ==>
        r == Err(Forbidden)
      ensures r.Err? ==> programs == old(programs)
      ensures r.Ok? <==>
        TruthyStr(name) && TruthyInt(divisionId) && divisionId.value >= 0 && divisionId.value in divisions
        && CanManage(user, divisionId.value)
      ensures r.Ok? ==>
        && r.value == old(nextId) && r.value !in old(programs)
        && programs == old(programs)[r.value := WorkProgram(
             divisionId.value, name.value,
             if targets.Some? then targets.value else [],
             if TruthyStr(status) then status.value else "PLANNED",
             if picIds.Some? && |picIds.value| > 0 then PicsFrom(picIds.value, users) else {})]
    {
      if !TruthyStr(name) || !TruthyInt(divisionId) {
        return Err(BadRequest(MissingFields));
      }
      if divisionId.value < 0 || divisionId.value !in divisions {
        return Err(NotFound);
      }
      var d: Id := divisionId.value;
      var isAdmin := exists i :: 0 <= i < |user.roles| && user.roles[i].name == "ADMIN";
      var isDirectorOfDivision := user.position == "DIRECTOR" && user.divisionId == Some(d);
      if !isAdmin && !isDirectorOfDivision {
        return Err(Forbidden);
      }
      var program := WorkProgram(
        d, name.value,
        if targets.Some? then targets.value else [],
        if TruthyStr(status) then status.value else "PLANNED",
        {});
      if picIds.Some? && |picIds.value| > 0 {
        program := program.(pics := PicsFrom(picIds.value, users));
      }
      r := Ok(nextId);
      programs := programs[nextId := program];
      nextId := nextId + 1;
    }

    /**
     * `updateWorkProgram`: 404 for an unknown id before the authorisation
     * check; truthy name and status and a given targets array replace the
     * stored ones; a `pic_ids` array, even an empty one, replaces the whole
     * PIC set. The division never changes.
     */
    method UpdateWorkProgram(
      user: Caller, id: Id, name: Option<string>, targets: Option<seq<string>>,
      status: Option<string>, picIds: Option<seq<Id>>, users: set<Id>)
      returns (r: Result<()>)
      requires Valid()
      modifies this
      ensures Valid()
      ensures id !in old(programs) ==> r == Err(NotFound)
      ensures id in old(programs) && !CanManage(user, old(programs[id].divisionId)) ==> r == Err(Forbidden)
      ensures r.Ok? <==> id in old(programs) && CanManage(user, old(programs[id].divisionId))
      ensures nextId == old(nextId)
      ensures r.Err? ==> programs == old(programs)
      ensures r.Ok? ==>
        var w := old(programs[id]);
        programs == old(programs)[id := WorkProgram(
          w.divisionId,
          if TruthyStr(name) then name.value else w.name,
          if targets.Some? then targets.value else w.targets,
          if TruthyStr(status) then status.value else w.status,
          if picIds.Some? then PicsFrom(picIds.value, users) else w.pics)]
    {
      if id !in programs {
        return Err(NotFound);
      }
      var w := programs[id];
      var isAdmin := exists i :: 0 <= i < |user.roles| && user.roles[i].name == "ADMIN";
      var isDirectorOfDivision := user.position == "DIRECTOR" && user.divisionId == Some(w.divisionId);
      if !isAdmin && !isDirectorOfDivision {
        return Err(Forbidden);
      }
      if TruthyStr(name) {
        w := w.(name := name.value);
      }
      if targets.Some? {
        w := w.(targets := targets.value);
      }
      if TruthyStr(status) {
        w := w.(status := status.value);
      }
      programs := programs[id := w];
      if picIds.Some? {
        programs := programs[id := w.(pics := PicsFrom(picIds.value, users))];
      }
      r := Ok(());
    }

    /** `deleteWorkProgram`: 404 for an unknown id, 403 unless the caller manages its division. */
    method DeleteWorkProgram(user: Caller, id: Id) returns (r: Result<()>)
      requires Valid()
      modifies this
      ensures Valid()
      ensures id !in old(programs) ==> r == Err(NotFound)
      ensures id in old(programs) && !CanManage(user, old(programs[id].divisionId)) ==> r == Err(Forbidden)
      ensures r.Ok? <==> id in old(programs) && CanManage(user, old(programs[id].divisionId))
      ensures nextId == old(nextId)
      ensures r.Err? ==> programs == old(programs)
      ensures r.Ok? ==> programs == old(programs) - {id}
    {
      if id !in programs {
        return Err(NotFound);
      }
      var w := programs[id];
      var isAdmin := exists i :: 0 <= i < |user.roles| && user.roles[i].name == "ADMIN";
      var isDirectorOfDivision := user.position == "DIRECTOR" && user.divisionId == Some(w.divisionId);
      if !isAdmin && !isDirectorOfDivision {
        return Err(Forbidden);
      }
      programs := programs - {id};
      r := Ok(());
    }
  }
}
