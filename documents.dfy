/**
 * The document repository's access tiers: the per-document access rule,
 * the access-level filter of the document list, and the upload and
 * metadata-update handlers.
 */
module Documents {
  import opened Common

  /** The positions that see BOARD documents. */
  predicate BoardPosition(position: string)
  {
    position == "P" || position == "VP" || position == "SEC" || position == "DIRECTOR"
  }

  /** The positions that see EXECUTIVE documents. */
  predicate ExecutivePosition(position: string)
  {
    position == "P" || position == "VP" || position == "SEC"
  }

  /** The access levels the `access_level` column admits. */
  predicate KnownLevel(level: string)
  {
    level == "PUBLIC" || level == "BOARD" || level == "EXECUTIVE"
  }

  /** `canAccessDocument(user, document)` for a document of the given access level. */
  function CanAccessDocument(user: Caller, level: string): (ok: bool)
    ensures IsAdmin(user) ==> ok
    ensures level == "PUBLIC" ==> ok
    ensures !IsAdmin(user) && level == "BOARD" ==> (ok <==> BoardPosition(user.position))
    ensures !IsAdmin(user) && level == "EXECUTIVE" ==> (ok <==> ExecutivePosition(user.position))
    ensures !IsAdmin(user) && !KnownLevel(level) ==> !ok
  {
    if IsAdmin(user) then true
    else if level == "PUBLIC" then true
    else if level == "BOARD" then BoardPosition(user.position)
    else if level == "EXECUTIVE" then ExecutivePosition(user.position)
    else false
  }

  /** The tiers are nested: whoever sees EXECUTIVE documents sees BOARD ones, and everyone sees PUBLIC ones. */
  lemma TiersNested(user: Caller)
    ensures CanAccessDocument(user, "EXECUTIVE") ==> CanAccessDocument(user, "BOARD")
    ensures CanAccessDocument(user, "BOARD") ==> CanAccessDocument(user, "PUBLIC")
  {
  }

  /** The `access_level` part of the list query's `where` clause. */
  datatype LevelFilter = AnyLevel | Exactly(level: string) | OneOf(levels: set<string>)

  predicate Admits(f: LevelFilter, level: string)
  {
    match f
    case AnyLevel => true
    case Exactly(l) => level == l
    case OneOf(ls) => level in ls
  }

  /**
   * `getAllDocuments`' access-level filter: the requested level first, then,
   * for a non-admin, overwritten by the levels of the caller's position.
   * For a non-admin it admits exactly the levels `canAccessDocument` allows,
   * whatever level was requested.
   */
  method AccessFilter(user: Caller, requested: Option<string>) returns (f: LevelFilter)
    ensures IsAdmin(user) ==> f == (if TruthyStr(requested) then Exactly(requested.value) else AnyLevel)
    ensures !IsAdmin(user) ==> forall level :: Admits(f, level) <==> CanAccessDocument(user, level)
  {
    f := AnyLevel;
    if TruthyStr(requested) {
      f := Exactly(requested.value);
    }
    if !IsAdmin(user) {
      if ExecutivePosition(user.position) {
        f := OneOf({"PUBLIC", "BOARD", "EXECUTIVE"});
      } else if user.position == "DIRECTOR" {
        f := OneOf({"PUBLIC", "BOARD"});
      } else {
        f := Exactly("PUBLIC");
      }
    }
  }

  /** A stored document's metadata. */
  datatype Document = Document(uploaderId: Id, title: string, description: Option<string>, fileUrl: string, accessLevel: string)

  class DocumentStore {
    var documents: map<Id, Document>
    var nextId: Id
    /** Names of the uploaded files present in the upload directory. */
    var uploads: set<string>

    ghost predicate Valid()
      reads this
    {
      && nextId > 0
      && (forall id :: id in documents ==> 0 < id < nextId)
      && (forall id :: id in documents ==> KnownLevel(documents[id].accessLevel))
    }

    constructor (uploads: set<string>)
      ensures Valid() && documents == map[] && nextId == 1 && this.uploads == uploads
    {
      documents := map[];
      nextId := 1;
      this.uploads := uploads;
    }

    /**
     * `getAllDocuments` without search and paging: the ids of the documents
     * the list shows. A non-admin sees exactly the documents the access
     * rule lets them open; an admin sees every document, or those of the
     * level they ask for. An admin's level outside the `access_level` ENUM
     * reaches the query and is refused by the database (500); a non-admin's
     * is overwritten first.
     */
    method ListDocuments(user: Caller, requested: Option<string>) returns (r: Result<set<Id>>)
      ensures r.Err? <==> IsAdmin(user) && TruthyStr(requested) && !KnownLevel(requested.value)
      ensures r.Err? ==> r.error == DatabaseError
      ensures r.Ok? ==> forall id :: id in r.value ==> id in documents
      ensures r.Ok? && !IsAdmin(user) ==>
        forall id :: id in r.value <==> id in documents && CanAccessDocument(user, documents[id].accessLevel)
      ensures r.Ok? && IsAdmin(user) && !TruthyStr(requested) ==> r.value == documents.Keys
      ensures r.Ok? && IsAdmin(user) && TruthyStr(requested) ==>
        forall id :: id in r.value <==> id in documents && documents[id].accessLevel == requested.value
    {
      var f := AccessFilter(user, requested);
      if f.Exactly? && !KnownLevel(f.level) {
        assert IsAdmin(user) by {
          if !IsAdmin(user) {
            assert Admits(f, f.level);
          }
        }
        return Err(DatabaseError);
      }
      r := Ok(set id | id in documents && Admits(f, documents[id].accessLevel));
    }

    /** `getDocument`: absent is NotFound, inaccessible is Forbidden. */
    function GetDocument(user: Caller, id: Id): (r: Result<Document>)
      reads this
      ensures id !in documents ==> r == Err(NotFound)
      ensures id in documents && !CanAccessDocument(user, documents[id].accessLevel) ==> r == Err(Forbidden)
      ensures r.Ok? ==> id in documents && r.value == documents[id] && CanAccessDocument(user, r.value.accessLevel)
    {
      if id !in documents then Err(NotFound)
      else if !CanAccessDocument(user, documents[id].accessLevel) then Err(Forbidden)
      else Ok(documents[id])
    }

    /**
     * `uploadDocument`: a file is required, then a title (the uploaded file
     * is deleted when the title is missing or the insert fails); the
     * access level defaults to PUBLIC, and a level outside the column's
     * ENUM is refused by the database.
     */
    method UploadDocument(user: Caller, file: Option<string>, title: Option<string>, description: Option<string>,
                          accessLevel: Option<string>)
      returns (r: Result<Id>)
      requires Valid()
      modifies this
      ensures Valid()
      ensures file.None? ==> r == Err(BadRequest(FileMissing)) && documents == old(documents) && uploads == old(uploads)
      ensures file.Some? && !TruthyStr(title) ==>
        r == Err(BadRequest(MissingFields)) && documents == old(documents) && uploads == old(uploads) - {file.value}
      ensures file.Some? && TruthyStr(title) ==>
        var level := if TruthyStr(accessLevel) then accessLevel.value else "PUBLIC";
        && (!KnownLevel(level) ==>
              r == Err(DatabaseError) && documents == old(documents) && uploads == old(uploads) - {file.value})
        && (KnownLevel(level) ==>
              && r == Ok(old(nextId)) && old(nextId) !in old(documents)
              && documents == old(documents)[old(nextId) := Document(user.id, title.value, description,
                                                                     "/uploads/documents/" + file.value, level)]
              && uploads == old(uploads))
    {
      if file.None? {
        return Err(BadRequest(FileMissing));
      }
      if !TruthyStr(title) {
        uploads := uploads - {file.value};
        return Err(BadRequest(MissingFields));
      }
      var level := if TruthyStr(accessLevel) then accessLevel.value else "PUBLIC";
      if !KnownLevel(level) {
        uploads := uploads - {file.value};
        return Err(DatabaseError);
      }
      var id := nextId;
      documents := documents[id := Document(user.id, title.value, description, "/uploads/documents/" + file.value, level)];
      nextId := nextId + 1;
      r := Ok(id);
    }

    /**
     * `updateDocument`: title and access level are applied when truthy, the
     * description whenever present, even empty or null; a level outside
     * the column's ENUM makes the database refuse the save.
     */
    method UpdateDocument(id: Id, title: Option<string>, description: Option<Option<string>>, accessLevel: Option<string>)
      returns (r: Result<Document>)
      requires Valid()
      modifies this
      ensures Valid()
      ensures nextId == old(nextId) && uploads == old(uploads)
      ensures id !in old(documents) ==> r == Err(NotFound) && documents == old(documents)
      ensures id in old(documents) ==>
        var d := old(documents)[id];
        var d' := Document(d.uploaderId,
                           if TruthyStr(title) then title.value else d.title,
                           if description.Some? then description.value else d.description,
                           d.fileUrl,
                           if TruthyStr(accessLevel) then accessLevel.value else d.accessLevel);
        && (KnownLevel(d'.accessLevel) ==> r == Ok(d') && documents == old(documents)[id := d'])
        && (!KnownLevel(d'.accessLevel) ==> r == Err(DatabaseError) && documents == old(documents))
    {
      if id !in documents {
        return Err(NotFound);
      }
      var d := documents[id];
      if TruthyStr(title) { d := d.(title := title.value); }
      if description.Some? { d := d.(description := description.value); }
      if TruthyStr(accessLevel) { d := d.(accessLevel := accessLevel.value); }
      if !KnownLevel(d.accessLevel) {
        return Err(DatabaseError);
      }
      documents := documents[id := d];
      r := Ok(d);
    }
  }
}
