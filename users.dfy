/**
 * The user directory of the admin handlers: creating and updating a user,
 * and the bulk import of users from a validated CSV file.
 *
 * The `users` table has a unique, case-sensitive `email` column, an
 * enumerated `position` column and nullable foreign keys `division_id` and
 * `sub_division_id`. The database refuses a position outside the
 * enumeration and a reference to a row that does not exist; the error
 * handler answers such a refusal with a 500 (`DatabaseError`). `Valid`
 * records the unique e-mails, and each handler keeps them; the ids of the
 * stored divisions and sub-divisions are parameters.
 */
module Users {
  import opened Common
  import opened CsvValidation

  /** The `position` ENUM column. */
  datatype Position = P | VP | SEC | DIRECTOR | MANAGER | STAFF

  /** The text the column stores for a position. */
  function PositionName(p: Position): (s: string)
    ensures s in ValidPositions
  {
    match p
    case P => "P"
    case VP => "VP"
    case SEC => "SEC"
    case DIRECTOR => "DIRECTOR"
    case MANAGER => "MANAGER"
    case STAFF => "STAFF"
  }

  /** The column's reading of a string: `None` when the enumeration refuses it. */
  function ParsePosition(s: string): (r: Option<Position>)
    ensures r.Some? <==> s in ValidPositions
    ensures r.Some? ==> PositionName(r.value) == s
  {
    if s == "P" then Some(P)
    else if s == "VP" then Some(VP)
    else if s == "SEC" then Some(SEC)
    else if s == "DIRECTOR" then Some(DIRECTOR)
    else if s == "MANAGER" then Some(MANAGER)
    else if s == "STAFF" then Some(STAFF)
    else None
  }

  /** Storing a position and reading it back gives it unchanged. */
  lemma PositionRoundTrip(p: Position)
    ensures ParsePosition(PositionName(p)) == Some(p)
  {
  }

  /** A stored user; `roleIds` is the user's row set in the user-role join table. */
  datatype User = User(
    name: string,
    email: string,
    password: string,
    position: Position,
    divisionId: Option<int>,
    subDivisionId: Option<int>,
    roleIds: set<Id>)

  /** `emails.indexOf(x)`: the first index of `x`, or -1. */
  function IndexOf(s: seq<string>, x: string): (r: int)
    ensures r == -1 <==> x !in s
    ensures r != -1 ==> 0 <= r < |s| && s[r] == x && x !in s[..r]
  {
    if s == [] then -1
    else if s[0] == x then 0
    else
      var k := IndexOf(s[1..], x);
      if k == -1 then -1
      else
        assert s[..k + 1] == [s[0]] + s[1..][..k];
        k + 1
  }

  /** `emails.filter((e, i) => emails.indexOf(e) !== i)` over the first `n` entries. */
  function RepeatedEntries(emails: seq<string>, n: nat): seq<string>
    requires n <= |emails|
  {
    if n == 0 then []
    else RepeatedEntries(emails, n - 1)
         + (if IndexOf(emails, emails[n - 1]) != n - 1 then [emails[n - 1]] else [])
  }

  /** `[...new Set(s)]`: each value once, at its first occurrence. */
  function Dedup(s: seq<string>): seq<string>
  {
    if s == [] then []
    else Dedup(s[..|s| - 1]) + (if s[|s| - 1] in s[..|s| - 1] then [] else [s[|s| - 1]])
  }

  /** The `duplicates` the bulk import reports. */
  function Duplicates(emails: seq<string>): seq<string>
  {
    Dedup(RepeatedEntries(emails, |emails|))
  }

  /** An entry is kept by the filter exactly when it occurs earlier too. */
  lemma IndexOfIsEarlier(emails: seq<string>, i: nat)
    requires i < |emails|
    ensures IndexOf(emails, emails[i]) != i <==> emails[i] in emails[..i]
  {
    if emails[i] in emails[..i] {
      var j :| 0 <= j < i && emails[..i][j] == emails[i];
      assert emails[j] == emails[i];
    }
  }

  /** One step of the filter: the entry at `n - 1` is kept exactly when it occurs before. */
  lemma RepeatedEntriesStep(emails: seq<string>, n: nat)
    requires 0 < n <= |emails|
    ensures RepeatedEntries(emails, n) ==
      RepeatedEntries(emails, n - 1) + (if emails[n - 1] in emails[..n - 1] then [emails[n - 1]] else [])
  {
    IndexOfIsEarlier(emails, n - 1);
  }

  /** One step of the multiset of a prefix. */
  lemma PrefixMultisetStep(emails: seq<string>, n: nat)
    requires 0 < n <= |emails|
    ensures multiset(emails[..n]) == multiset(emails[..n - 1]) + multiset{emails[n - 1]}
  {
    assert emails[..n] == emails[..n - 1] + [emails[n - 1]];
  }

  /** The filter keeps `x` exactly when `x` occurs at least twice. */
  lemma {:induction false} RepeatedEntriesMembership(emails: seq<string>, n: nat, x: string)
    requires n <= |emails|
    ensures x in RepeatedEntries(emails, n) <==> multiset(emails[..n])[x] >= 2
  {
    if n > 0 {
      RepeatedEntriesMembership(emails, n - 1, x);
      RepeatedEntriesStep(emails, n);
      PrefixMultisetStep(emails, n);
      var pre, e := emails[..n - 1], emails[n - 1];
      if x == e {
        assert e in pre <==> multiset(pre)[e] >= 1;
      }
    }
  }

  /** The set keeps exactly the values of the list, each once. */
  lemma {:induction false} DedupProperties(s: seq<string>)
    ensures forall x :: x in Dedup(s) <==> x in s
    ensures forall i, j :: 0 <= i < j < |Dedup(s)| ==> Dedup(s)[i] != Dedup(s)[j]
  {
    if s != [] {
      var pre := s[..|s| - 1];
      DedupProperties(pre);
      assert s == pre + [s[|s| - 1]];
    }
  }

  /**
   * The duplicates reported are exactly the e-mails that occur more than
   * once in the list, each named once.
   */
  lemma DuplicatesCorrect(emails: seq<string>)
    ensures forall x :: x in Duplicates(emails) <==> multiset(emails)[x] >= 2
    ensures forall i, j :: 0 <= i < j < |Duplicates(emails)| ==> Duplicates(emails)[i] != Duplicates(emails)[j]
  {
    DedupProperties(RepeatedEntries(emails, |emails|));
    assert emails[..|emails|] == emails;
    forall x ensures x in Duplicates(emails) <==> multiset(emails)[x] >= 2 {
      RepeatedEntriesMembership(emails, |emails|, x);
    }
  }

  /** No duplicate reported: the e-mails are pairwise distinct. */
  lemma NoDuplicatesDistinct(emails: seq<string>)
    requires Duplicates(emails) == []
    ensures forall i, j :: 0 <= i < j < |emails| ==> emails[i] != emails[j]
  {
    forall i, j | 0 <= i < j < |emails| && emails[i] == emails[j] ensures multiset(emails)[emails[i]] >= 2 {
      OccursTwice(emails, i, j);
    }
    DuplicatesCorrect(emails);
  }

  /** Two positions holding the same value count twice in the multiset. */
  lemma OccursTwice(s: seq<string>, i: nat, j: nat)
    requires i < j < |s| && s[i] == s[j]
    ensures multiset(s)[s[i]] >= 2
  {
    assert s == s[..j] + [s[j]] + s[j + 1..];
    assert s[..j][i] == s[i];
  }

  /** `users.map(u => u.email.toLowerCase())`; validation guarantees every e-mail is present. */
  function LowerEmails(rows: seq<CsvRow>): (r: seq<string>)
    requires forall i :: 0 <= i < |rows| ==> rows[i].email.Some?
    ensures |r| == |rows|
    ensures forall i :: 0 <= i < |rows| ==> r[i] == ToLower(rows[i].email.value)
  {
    seq(|rows|, i requires 0 <= i < |rows| => ToLower(rows[i].email.value))
  }

  /** The roles given to a new user: the stored roles among a non-empty role array, else MEMBER when it exists. */
  function InitialRoles(roles: Option<seq<Id>>, roleTable: set<Id>, memberRole: Option<Id>): (r: set<Id>)
    ensures roles.Some? && |roles.value| > 0 ==> forall x :: x in r <==> x in roles.value && x in roleTable
    ensures !(roles.Some? && |roles.value| > 0) ==> r == (if memberRole.Some? then {memberRole.value} else {})
  {
    if roles.Some? && |roles.value| > 0 then set x | x in roles.value && x in roleTable
    else if memberRole.Some? then {memberRole.value}
    else {}
  }

  /** The user the bulk import stores for a validated row. */
  function BulkUser(row: CsvRow, memberRole: Option<Id>): (u: User)
    requires row.name.Some? && row.email.Some? && row.password.Some?
    requires !BadPosition(row.position)
    ensures u.name == row.name.value && u.password == row.password.value
    ensures u.email == ToLower(row.email.value)
    ensures ToLower(u.email) == u.email && |u.email| == |row.email.value|
    ensures TruthyStr(row.position) ==> PositionName(u.position) == ToUpper(row.position.value)
    ensures !TruthyStr(row.position) ==> u.position == STAFF
    ensures memberRole.Some? ==> u.roleIds == {memberRole.value}
    ensures memberRole.None? ==> u.roleIds == {}
    ensures u.divisionId == row.divisionId && u.subDivisionId == row.subDivisionId
  {
    ToLowerIdempotent(row.email.value);
    User(
      row.name.value,
      ToLower(row.email.value),
      row.password.value,
      if TruthyStr(row.position) then ParsePosition(ToUpper(row.position.value)).value else STAFF,
      row.divisionId,
      row.subDivisionId,
      if memberRole.Some? then {memberRole.value} else {})
  }

  /** A nullable foreign key holds: null, or the id of a stored row. */
  predicate RefOk(reference: Option<int>, table: set<Id>)
  {
    reference.None? || reference.value in table
  }

  /** Both foreign keys of a user record hold. */
  predicate RefsOk(u: User, divisions: set<Id>, subDivisions: set<Id>)
  {
    RefOk(u.divisionId, divisions) && RefOk(u.subDivisionId, subDivisions)
  }

  /** Every stored user references existing divisions and sub-divisions only. */
  ghost predicate NoDanglingRefs(users: map<Id, User>, divisions: set<Id>, subDivisions: set<Id>)
  {
    forall id :: id in users ==> RefsOk(users[id], divisions, subDivisions)
  }

  /**
   * An update gives a reference column a new value that names no stored
   * row; `save` sends changed columns only, so re-sending the stored value
   * is never refused.
   */
  predicate DanglingChange(given: Option<Option<int>>, current: Option<int>, table: set<Id>)
  {
    given.Some? && given.value != current && !RefOk(given.value, table)
  }

  /** Every row is complete and names a valid position: what CSV validation guarantees. */
  predicate RowsComplete(rows: seq<CsvRow>)
  {
    forall i :: 0 <= i < |rows| ==>
      rows[i].name.Some? && rows[i].email.Some? && rows[i].password.Some? && !BadPosition(rows[i].position)
  }

  /** The records the bulk loop creates, one per row in row order. */
  function BulkUsers(rows: seq<CsvRow>, memberRole: Option<Id>): (us: seq<User>)
    requires RowsComplete(rows)
    ensures |us| == |rows|
    ensures forall i :: 0 <= i < |rows| ==> us[i] == BulkUser(rows[i], memberRole)
  {
    seq(|rows|, i requires 0 <= i < |rows| => BulkUser(rows[i], memberRole))
  }

  /**
   * `newUsers` and `newNext` are `oldUsers` and `oldNext` after the bulk
   * loop created `ids`: the records before the first one whose references
   * do not hold (all of them when there is none), under consecutive ids
   * from `oldNext`, with every old user kept.
   */
  ghost predicate Appended(oldUsers: map<Id, User>, oldNext: Id, newUsers: map<Id, User>, newNext: Id,
                           records: seq<User>, divisions: set<Id>, subDivisions: set<Id>, ids: seq<Id>)
  {
    && |ids| <= |records| && newNext == oldNext + |ids|
    && (forall k :: 0 <= k < |ids| ==> RefsOk(records[k], divisions, subDivisions))
    && (|ids| < |records| ==> !RefsOk(records[|ids|], divisions, subDivisions))
    && (forall k :: 0 <= k < |ids| ==> ids[k] == oldNext + k && ids[k] in newUsers && newUsers[ids[k]] == records[k])
    && (forall id :: id in oldUsers ==> id in newUsers && newUsers[id] == oldUsers[id])
    && (forall id :: id in newUsers ==> id in oldUsers || oldNext <= id < newNext)
  }

  /** The bulk loop creates only users whose references hold. */
  lemma AppendedKeepsRefs(oldUsers: map<Id, User>, oldNext: Id, newUsers: map<Id, User>, newNext: Id,
                          records: seq<User>, divisions: set<Id>, subDivisions: set<Id>, ids: seq<Id>)
    requires Appended(oldUsers, oldNext, newUsers, newNext, records, divisions, subDivisions, ids)
    requires NoDanglingRefs(oldUsers, divisions, subDivisions)
    ensures NoDanglingRefs(newUsers, divisions, subDivisions)
  {
    forall id | id in newUsers ensures RefsOk(newUsers[id], divisions, subDivisions) {
      if id !in oldUsers {
        assert newUsers[ids[id - oldNext]] == records[id - oldNext];
      }
    }
  }

  /** What the bulk import answers. */
  datatype BulkOutcome =
    | NoFile                                 // 400, no file uploaded
    | Invalid(errors: seq<CsvError>)         // 400, CSV validation failed
    | Duplicated(duplicates: seq<string>)    // 400, the file repeats an e-mail
    | Existing(existingEmails: set<string>)  // 400, e-mails already stored
    | Created(ids: seq<Id>)                  // 201
    | Aborted(created: seq<Id>)              // 500, the database refused the insert of row |created|; the users created before it stay

  /** No two stored users share an e-mail. */
  ghost predicate EmailsUnique(users: map<Id, User>)
  {
    forall a, b :: a in users && b in users && a != b ==> users[a].email != users[b].email
  }

  class UserDirectory {
    var users: map<Id, User>
    var nextId: Id

    ghost predicate Valid()
      reads this
    {
      && (forall id :: id in users ==> id < nextId)
      && EmailsUnique(users)
    }

    constructor ()
      ensures Valid()
      ensures users == map[] && nextId == 1
    {
      users := map[];
      nextId := 1;
    }

    /** Some stored user has exactly this e-mail (the lookup is case-sensitive). */
    predicate EmailTaken(email: string)
      reads this
    {
      exists id :: id in users && users[id].email == email
    }

    /** The stored e-mails among `emails`: the `existingEmails` of the bulk import. */
    function StoredAmong(emails: seq<string>): (r: set<string>)
      reads this
      ensures forall e :: e in r <==> e in emails && EmailTaken(e)
    {
      set id | id in users && users[id].email in emails :: users[id].email
    }

    /**
     * `createUser`: name, e-mail and password are required; the e-mail must
     * be new; the position defaults to STAFF; a falsy division id is stored
     * as null. The insert is refused by the database for a position outside
     * the enumeration or a reference to a missing division or sub-division.
     */
    method CreateUser(
      name: Option<string>, email: Option<string>, password: Option<string>,
      position: Option<string>, divisionId: Option<int>, subDivisionId: Option<int>,
      roles: Option<seq<Id>>, roleTable: set<Id>, memberRole: Option<Id>,
      divisions: set<Id>, subDivisions: set<Id>)
      returns (r: Result<Id>)
      requires Valid()
      modifies this
      ensures Valid()
      ensures !TruthyStr(name) || !TruthyStr(email) || !TruthyStr(password) ==> r == Err(BadRequest(MissingFields))
      ensures TruthyStr(name) && TruthyStr(email) && TruthyStr(password) && old(EmailTaken(email.value)) ==>
        r == Err(BadRequest(EmailExists))
      ensures TruthyStr(name) && TruthyStr(email) && TruthyStr(password) && !old(EmailTaken(email.value))
              && ((TruthyStr(position) && position.value !in ValidPositions)
                  || !RefOk(IdOrNull(divisionId), divisions) || !RefOk(IdOrNull(subDivisionId), subDivisions)) ==>
        r == Err(DatabaseError)
      ensures r.Err? ==> users == old(users) && nextId == old(nextId)
      ensures r.Ok? <==>
        && TruthyStr(name) && TruthyStr(email) && TruthyStr(password) && !old(EmailTaken(email.value))
        && !(TruthyStr(position) && position.value !in ValidPositions)
        && RefOk(IdOrNull(divisionId), divisions) && RefOk(IdOrNull(subDivisionId), subDivisions)
      ensures r.Ok? ==>
        && r.value == old(nextId) && nextId == old(nextId) + 1
        && users == old(users)[r.value := User(name.value, email.value, password.value,
             ParsePosition(if TruthyStr(position) then position.value else "STAFF").value,
             IdOrNull(divisionId), IdOrNull(subDivisionId),
             InitialRoles(roles, roleTable, memberRole))]
      ensures NoDanglingRefs(old(users), divisions, subDivisions) ==> NoDanglingRefs(users, divisions, subDivisions)
    {
      if !TruthyStr(name) || !TruthyStr(email) || !TruthyStr(password) {
        return Err(BadRequest(MissingFields));
      }
      if EmailTaken(email.value) {
        return Err(BadRequest(EmailExists));
      }
      var pos := ParsePosition(if TruthyStr(position) then position.value else "STAFF");
      var u := User(name.value, email.value, password.value, if pos.Some? then pos.value else STAFF,
                    IdOrNull(divisionId), IdOrNull(subDivisionId), InitialRoles(roles, roleTable, memberRole));
      if pos.None? || !RefsOk(u, divisions, subDivisions) {
        return Err(DatabaseError);
      }
      var id := Insert(u);
      r := Ok(id);
    }

    /**
     * `updateUser`: 404 for an unknown id; a truthy e-mail that differs from
     * the stored one must be new; truthy name, e-mail and position replace
     * the stored ones, a division id given (even null) replaces the stored
     * one, and a role array replaces the user's roles with the stored roles
     * it names. The save is refused by the database for a position outside
     * the enumeration or a changed reference to a missing row.
     */
    method UpdateUser(
      id: Id, name: Option<string>, email: Option<string>, position: Option<string>,
      divisionId: Option<Option<int>>, subDivisionId: Option<Option<int>>,
      roles: Option<seq<Id>>, roleTable: set<Id>, divisions: set<Id>, subDivisions: set<Id>)
      returns (r: Result<()>)
      requires Valid()
      modifies this
      ensures Valid()
      ensures nextId == old(nextId)
      ensures id !in old(users) ==> r == Err(NotFound)
      ensures id in old(users) && TruthyStr(email) && email.value != old(users[id].email)
              && old(EmailTaken(email.value)) ==>
        r == Err(BadRequest(EmailExists))
      ensures id in old(users) && !(TruthyStr(email) && email.value != old(users[id].email) && old(EmailTaken(email.value)))
              && ((TruthyStr(position) && position.value !in ValidPositions)
                  || DanglingChange(divisionId, old(users[id].divisionId), divisions)
                  || DanglingChange(subDivisionId, old(users[id].subDivisionId), subDivisions)) ==>
        r == Err(DatabaseError)
      ensures r.Err? ==> users == old(users)
      ensures r.Ok? <==>
        && id in old(users)
        && !(TruthyStr(email) && email.value != old(users[id].email) && old(EmailTaken(email.value)))
        && !(TruthyStr(position) && position.value !in ValidPositions)
        && !DanglingChange(divisionId, old(users[id].divisionId), divisions)
        && !DanglingChange(subDivisionId, old(users[id].subDivisionId), subDivisions)
      ensures r.Ok? ==>
        && id in old(users)
        && var u := old(users[id]);
           users == old(users)[id := User(
             if TruthyStr(name) then name.value else u.name,
             if TruthyStr(email) then email.value else u.email,
             u.password,
             if TruthyStr(position) then ParsePosition(position.value).value else u.position,
             if divisionId.Some? then divisionId.value else u.divisionId,
             if subDivisionId.Some? then subDivisionId.value else u.subDivisionId,
             if roles.Some? then (set x | x in roles.value && x in roleTable) else u.roleIds)]
      ensures NoDanglingRefs(old(users), divisions, subDivisions) ==> NoDanglingRefs(users, divisions, subDivisions)
    {
      if id !in users {
        return Err(NotFound);
      }
      var u := users[id];
      if TruthyStr(email) && email.value != u.email && EmailTaken(email.value) {
        return Err(BadRequest(EmailExists));
      }
      if (TruthyStr(position) && position.value !in ValidPositions)
         || DanglingChange(divisionId, u.divisionId, divisions)
         || DanglingChange(subDivisionId, u.subDivisionId, subDivisions) {
        return Err(DatabaseError);
      }
      var u' := User(
        if TruthyStr(name) then name.value else u.name,
        if TruthyStr(email) then email.value else u.email,
        u.password,
        if TruthyStr(position) then ParsePosition(position.value).value else u.position,
        if divisionId.Some? then divisionId.value else u.divisionId,
        if subDivisionId.Some? then subDivisionId.value else u.subDivisionId,
        if roles.Some? then (set x | x in roles.value && x in roleTable) else u.roleIds);
      Store(id, u');
      r := Ok(());
    }

    /**
     * The creation loop of the bulk import: one insert per record, in row
     * order, under consecutive ids. The records come from validated rows
     * whose lower-cased e-mails are distinct and not yet stored, so an
     * insert fails only on a reference to a missing division or
     * sub-division. That failure ends the loop; the users created before it
     * stay, since the loop runs outside a transaction.
     */
    method CreateRows(records: seq<User>, divisions: set<Id>, subDivisions: set<Id>) returns (ids: seq<Id>)
      requires Valid()
      requires forall i, j :: 0 <= i < j < |records| ==> records[i].email != records[j].email
      requires forall i :: 0 <= i < |records| ==> !EmailTaken(records[i].email)
      modifies this
      ensures Valid()
      ensures Appended(old(users), old(nextId), users, nextId, records, divisions, subDivisions, ids)
    {
      ids := [];
      var k := 0;
      while k < |records| && RefsOk(records[k], divisions, subDivisions)
        invariant 0 <= k <= |records|
        invariant nextId == old(nextId) + k && |ids| == k
        invariant Valid()
        invariant forall j :: k <= j < |records| ==> !EmailTaken(records[j].email)
        invariant forall j :: 0 <= j < k ==> RefsOk(records[j], divisions, subDivisions)
        invariant forall j :: 0 <= j < k ==> ids[j] == old(nextId) + j && ids[j] in users && users[ids[j]] == records[j]
        invariant forall id :: id in old(users) ==> id in users && users[id] == old(users)[id]
        invariant forall id :: id in users ==> id in old(users) || old(nextId) <= id < nextId
      {
        var u := records[k];
        var id := Insert(u);
        ids := ids + [id];
        k := k + 1;
        forall j | k <= j < |records| ensures !EmailTaken(records[j].email) {
          assert records[j].email != u.email;
        }
      }
    }

    /** `user.save()` of a record whose e-mail is its own or not yet stored. */
    method Store(id: Id, u: User)
      requires Valid() && id in users
      requires u.email == users[id].email || !EmailTaken(u.email)
      modifies this
      ensures Valid()
      ensures users == old(users)[id := u] && nextId == old(nextId)
    {
      users := users[id := u];
    }

    /**
     * `User.create` for a record the column constraints accept: stores it
     * under the next id.
     */
    method Insert(u: User) returns (id: Id)
      requires Valid()
      requires !EmailTaken(u.email)
      modifies this
      ensures Valid()
      ensures id == old(nextId) && nextId == old(nextId) + 1
      ensures users == old(users)[id := u]
    {
      id := nextId;
      users := users[id := u];
      nextId := nextId + 1;
    }

    /**
     * `bulkUploadUsers` after CSV validation: repeated e-mails (compared
     * lower-cased), then e-mails already stored (compared as lower-cased
     * against the stored e-mails exactly), leave the directory unchanged.
     * Otherwise one user per row is created, in row order, each with the
     * MEMBER role when that role exists, until the database refuses a row
     * that references a missing division or sub-division: the answer is
     * then a 500 and the users created before that row stay.
     */
    method ImportRows(rows: seq<CsvRow>, memberRole: Option<Id>, divisions: set<Id>, subDivisions: set<Id>)
      returns (r: BulkOutcome)
      requires Valid()
      requires RowsComplete(rows)
      modifies this
      ensures Valid()
      ensures var emails := LowerEmails(rows);
        && (Duplicates(emails) != [] ==> r == Duplicated(Duplicates(emails)))
        && (Duplicates(emails) == [] && old(StoredAmong(emails)) != {} ==> r == Existing(old(StoredAmong(emails))))
        && (Duplicates(emails) == [] && old(StoredAmong(emails)) == {} ==> r.Created? || r.Aborted?)
      ensures !r.Created? && !r.Aborted? ==> users == old(users) && nextId == old(nextId)
      ensures r.Created? || r.Aborted? ==>
        var ids := if r.Created? then r.ids else r.created;
        && (forall i, j :: 0 <= i < j < |rows| ==> ToLower(rows[i].email.value) != ToLower(rows[j].email.value))
        && (forall i :: 0 <= i < |rows| ==> !old(EmailTaken(ToLower(rows[i].email.value))))
        && (r.Created? <==> |ids| == |rows|)
        && Appended(old(users), old(nextId), users, nextId, BulkUsers(rows, memberRole), divisions, subDivisions, ids)
      ensures NoDanglingRefs(old(users), divisions, subDivisions) ==> NoDanglingRefs(users, divisions, subDivisions)
    {
      var emails := LowerEmails(rows);
      var duplicates := Duplicates(emails);
      if duplicates != [] {
        return Duplicated(duplicates);
      }
      var existing := StoredAmong(emails);
      if existing != {} {
        return Existing(existing);
      }
      NoDuplicatesDistinct(emails);
      forall i | 0 <= i < |rows| ensures !EmailTaken(emails[i]) {
        assert emails[i] in emails;
      }
      var records := BulkUsers(rows, memberRole);
      assert forall i :: 0 <= i < |records| ==> records[i].email == emails[i];
      var ids := CreateRows(records, divisions, subDivisions);
      r := if |ids| < |rows| then Aborted(ids) else Created(ids);
      if NoDanglingRefs(old(users), divisions, subDivisions) {
        AppendedKeepsRefs(old(users), old(nextId), users, nextId, BulkUsers(rows, memberRole), divisions, subDivisions, ids);
      }
    }

    /**
     * `bulkUploadUsers`: without a file, or with validation errors, nothing
     * is created; a validated file is imported by `ImportRows`.
     */
    method BulkUploadUsers(file: Option<seq<CsvRow>>, memberRole: Option<Id>, divisions: set<Id>, subDivisions: set<Id>)
      returns (r: BulkOutcome)
      requires Valid()
      modifies this
      ensures Valid()
      ensures file.None? ==> r == NoFile
      ensures file.Some? && AllErrors(file.value) != [] ==> r == Invalid(AllErrors(file.value))
      ensures file.Some? && AllErrors(file.value) == [] ==>
        && RowsComplete(file.value)
        && var emails := LowerEmails(file.value);
           && (Duplicates(emails) != [] ==> r == Duplicated(Duplicates(emails)))
           && (Duplicates(emails) == [] && old(StoredAmong(emails)) != {} ==> r == Existing(old(StoredAmong(emails))))
           && (Duplicates(emails) == [] && old(StoredAmong(emails)) == {} ==> r.Created? || r.Aborted?)
      ensures !r.Created? && !r.Aborted? ==> users == old(users) && nextId == old(nextId)
      ensures r.Created? || r.Aborted? ==>
        && file.Some? && AllErrors(file.value) == [] && RowsComplete(file.value)
        && var rows := file.value;
           var ids := if r.Created? then r.ids else r.created;
           && (forall i, j :: 0 <= i < j < |rows| ==> ToLower(rows[i].email.value) != ToLower(rows[j].email.value))
           && (forall i :: 0 <= i < |rows| ==> !old(EmailTaken(ToLower(rows[i].email.value))))
           && (r.Created? <==> |ids| == |rows|)
           && Appended(old(users), old(nextId), users, nextId, BulkUsers(rows, memberRole), divisions, subDivisions, ids)
      ensures NoDanglingRefs(old(users), divisions, subDivisions) ==> NoDanglingRefs(users, divisions, subDivisions)
    {
      if file.None? {
        return NoFile;
      }
      var errors := ValidateUserCsv(file.value);
      if errors != [] {
        return Invalid(errors);
      }
      AcceptedRows(file.value);
      r := ImportRows(file.value, memberRole, divisions, subDivisions);
    }
  }
}
