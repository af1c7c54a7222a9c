/**
 * The article handlers: the DRAFT/PUBLISHED/ARCHIVED status, the rules for
 * when `publish_date` is set, the editor stamp every edit leaves, and the
 * public reads that only ever show PUBLISHED articles. The clock is the
 * parameter `now`; an uploaded image is given by its file name.
 */
module Articles {
  import opened Common

  /** The status ENUM of the articles table. */
  datatype ArticleStatus = Draft | Published | Archived

  function StatusName(s: ArticleStatus): (r: string)
    ensures r in ["DRAFT", "PUBLISHED", "ARCHIVED"]
  {
    match s
    case Draft => "DRAFT"
    case Published => "PUBLISHED"
    case Archived => "ARCHIVED"
  }

  /** The ENUM check the database applies to a status string. */
  function ParseStatus(s: string): (r: Option<ArticleStatus>)
    ensures r.Some? <==> s in ["DRAFT", "PUBLISHED", "ARCHIVED"]
    ensures r.Some? ==> StatusName(r.value) == s
  {
    if s == "DRAFT" then Some(Draft)
    else if s == "PUBLISHED" then Some(Published)
    else if s == "ARCHIVED" then Some(Archived)
    else None
  }

  lemma StatusRoundTrip(s: ArticleStatus)
    ensures ParseStatus(StatusName(s)) == Some(s)
  {
  }

  datatype Article = Article(
    authorId: Id,
    editorId: Option<Id>,
    publishDate: Option<int>,
    lastEditDate: Option<int>,
    title: string,
    content: string,
    status: ArticleStatus,
    imageUrl: Option<string>)

  /** Where an uploaded article image is served from. */
  function ImageUrl(filename: string): (r: string)
    ensures |r| == |"/uploads/articles/"| + |filename|
    ensures r[..|"/uploads/articles/"|] == "/uploads/articles/" && r[|"/uploads/articles/"|..] == filename
  {
    "/uploads/articles/" + filename
  }

  /** A published article carries the date it was published. */
  predicate Dated(a: Article)
  {
    a.status == Published ==> a.publishDate.Some?
  }

  /**
   * `articleData` of `createArticle`: written by the caller, not yet edited,
   * with a publish date exactly when it is created PUBLISHED.
   */
  function NewArticle(author: Id, title: string, content: string, status: ArticleStatus,
                      imageFile: Option<string>, now: int): (r: Article)
    ensures r.authorId == author && r.editorId.None? && r.lastEditDate.None?
    ensures r.publishDate.Some? <==> status == Published
    ensures r.publishDate.Some? ==> r.publishDate.value == now
    ensures r.title == title && r.content == content && r.status == status
    ensures r.imageUrl.Some? <==> imageFile.Some?
    ensures imageFile.Some? ==> r.imageUrl == Some(ImageUrl(imageFile.value))
    ensures Dated(r)
  {
    Article(author, None, if status == Published then Some(now) else None, None,
            title, content, status,
            if imageFile.Some? then Some(ImageUrl(imageFile.value)) else None)
  }

  /**
   * The article `updateArticle` saves: truthy title and content and a given
   * status replace the stored ones, the caller becomes the editor, and
   * `publish_date` is set only when the status moves to PUBLISHED from
   * another status; re-sending PUBLISHED keeps the original date.
   */
  function Updated(a: Article, title: Option<string>, content: Option<string>,
                   status: Option<ArticleStatus>, editor: Id, imageFile: Option<string>, now: int): (r: Article)
    ensures r.authorId == a.authorId
    ensures r.editorId == Some(editor) && r.lastEditDate == Some(now)
    ensures r.title == (if TruthyStr(title) then title.value else a.title)
    ensures r.content == (if TruthyStr(content) then content.value else a.content)
    ensures r.status == (if status.Some? then status.value else a.status)
    ensures r.publishDate != a.publishDate ==> status == Some(Published) && a.status != Published
    ensures status == Some(Published) && a.status != Published ==> r.publishDate == Some(now)
    ensures imageFile.None? ==> r.imageUrl == a.imageUrl
    ensures imageFile.Some? ==> r.imageUrl == Some(ImageUrl(imageFile.value))
    ensures Dated(a) ==> Dated(r)
  {
    var publishes := status == Some(Published) && a.status != Published;
    a.(title := if TruthyStr(title) then title.value else a.title,
       content := if TruthyStr(content) then content.value else a.content,
       status := if status.Some? then status.value else a.status,
       editorId := Some(editor),
       lastEditDate := Some(now),
       publishDate := if publishes then Some(now) else a.publishDate,
       imageUrl := if imageFile.Some? then Some(ImageUrl(imageFile.value)) else a.imageUrl)
  }

  /** The article `publishArticle` saves: PUBLISHED with a fresh date, whatever it was before. */
  function Republished(a: Article, editor: Id, now: int): (r: Article)
    ensures r.status == Published && r.publishDate == Some(now)
    ensures r.editorId == Some(editor) && r.lastEditDate == Some(now)
    ensures r.title == a.title && r.content == a.content && r.authorId == a.authorId && r.imageUrl == a.imageUrl
  {
    a.(status := Published, publishDate := Some(now), editorId := Some(editor), lastEditDate := Some(now))
  }

  /**
   * The two ways to publish differ on an article that is already
   * published: the publish action moves the date, an update that sends
   * PUBLISHED again does not.
   */
  lemma PublishVersusUpdate(a: Article, editor: Id, t1: int, t2: int)
    requires t1 != t2
    ensures Republished(Republished(a, editor, t1), editor, t2).publishDate == Some(t2)
    ensures Updated(Republished(a, editor, t1), None, None, Some(Published), editor, None, t2).publishDate == Some(t1)
  {
  }

  /** Publishing a draft through an update, or archiving it again, keeps the first publish date. */
  lemma ArchiveKeepsPublishDate(a: Article, editor: Id, t1: int, t2: int)
    requires a.status != Published
    ensures var p := Updated(a, None, None, Some(Published), editor, None, t1);
            && p.publishDate == Some(t1)
            && Updated(p, None, None, Some(Archived), editor, None, t2).publishDate == Some(t1)
  {
  }

  class ArticleStore {
    var articles: map<Id, Article>
    var nextId: Id

    ghost predicate Valid()
      reads this
    {
      && nextId > 0
      && (forall id :: id in articles ==> 0 < id < nextId)
      && (forall id :: id in articles ==> Dated(articles[id]))
    }

    constructor ()
      ensures Valid()
      ensures articles == map[]
    {
      articles := map[];
      nextId := 1;
    }

    /** `getPublishedArticles`: the public list holds the PUBLISHED articles and nothing else. */
    function PublishedArticles(): (r: set<Id>)
      reads this
      ensures forall id :: id in r <==> id in articles && articles[id].status == Published
    {
      set id | id in articles && articles[id].status == Published
    }

    /**
     * The public list and the public detail agree: an article is listed
     * exactly when it can be fetched, and every listed article is dated.
     */
    lemma PublishedListMatchesGet(id: Id)
      requires Valid()
      ensures id in PublishedArticles() <==> GetPublishedArticle(id).Ok?
      ensures id in PublishedArticles() ==> articles[id].publishDate.Some?
    {
    }

    /** `getPublishedArticle`: 404 for an article that is absent or not PUBLISHED. */
    function GetPublishedArticle(id: Id): (r: Result<Article>)
      reads this
      requires Valid()
      ensures r.Ok? <==> id in articles && articles[id].status == Published
      ensures r.Err? ==> r.error == NotFound
      ensures r.Ok? ==> r.value == articles[id] && r.value.publishDate.Some?
    {
      if id in articles && articles[id].status == Published then Ok(articles[id]) else Err(NotFound)
    }

    /**
     * `createArticle`: title and content are required; the status defaults
     * to DRAFT and must be one of the ENUM values, or the database
     * refuses the insert.
     */
    method CreateArticle(caller: Caller, title: Option<string>, content: Option<string>,
                         status: Option<string>, imageFile: Option<string>, now: int)
      returns (r: Result<Id>)
      requires Valid()
      modifies this
      ensures Valid()
      ensures !TruthyStr(title) || !TruthyStr(content) ==> r == Err(BadRequest(MissingFields))
      ensures TruthyStr(title) && TruthyStr(content) && TruthyStr(status) && ParseStatus(status.value).None? ==>
        r == Err(DatabaseError)
      ensures r.Err? ==> articles == old(articles)
      ensures r.Ok? <==>
        TruthyStr(title) && TruthyStr(content) && (!TruthyStr(status) || ParseStatus(status.value).Some?)
      ensures r.Ok? ==>
        && r.value == old(nextId) && r.value !in old(articles)
        && articles == old(articles)[r.value := NewArticle(
             caller.id, title.value, content.value,
             if TruthyStr(status) then ParseStatus(status.value).value else Draft,
             imageFile, now)]
    {
      if !TruthyStr(title) || !TruthyStr(content) {
        return Err(BadRequest(MissingFields));
      }
      var st := Draft;
      if TruthyStr(status) {
        var parsed := ParseStatus(status.value);
        if parsed.None? {
          return Err(DatabaseError);
        }
        st := parsed.value;
      }
      var article := NewArticle(caller.id, title.value, content.value, st, imageFile, now);
      r := Ok(nextId);
      articles := articles[nextId := article];
      nextId := nextId + 1;
    }

    /**
     * `updateArticle`: 404 for an unknown id; a status outside the ENUM
     * makes the database refuse the save, which leaves the article as it
     * was; otherwise the
     * article becomes `Updated(...)` of its old self.
     */
    method UpdateArticle(caller: Caller, id: Id, title: Option<string>, content: Option<string>,
                         status: Option<string>, imageFile: Option<string>, now: int)
      returns (r: Result<()>)
      requires Valid()
      modifies this
      ensures Valid()
      ensures id !in old(articles) ==> r == Err(NotFound)
      ensures id in old(articles) && TruthyStr(status) && ParseStatus(status.value).None? ==>
        r == Err(DatabaseError)
      ensures nextId == old(nextId)
      ensures r.Err? ==> articles == old(articles)
      ensures r.Ok? <==> id in old(articles) && (!TruthyStr(status) || ParseStatus(status.value).Some?)
      ensures r.Ok? ==>
        articles == old(articles)[id := Updated(
          old(articles[id]), title, content,
          if TruthyStr(status) then ParseStatus(status.value) else None,
          caller.id, imageFile, now)]
    {
      if id !in articles {
        return Err(NotFound);
      }
      var st: Option<ArticleStatus> := None;
      if TruthyStr(status) {
        st := ParseStatus(status.value);
        if st.None? {
          return Err(DatabaseError);
        }
      }
      articles := articles[id := Updated(articles[id], title, content, st, caller.id, imageFile, now)];
      r := Ok(());
    }

    /** `publishArticle`: 404 for an unknown id, otherwise published anew at `now`. */
    method PublishArticle(caller: Caller, id: Id, now: int) returns (r: Result<()>)
      requires Valid()
      modifies this
      ensures Valid()
      ensures nextId == old(nextId)
      ensures r.Err? <==> id !in old(articles)
      ensures r.Err? ==> r.error == NotFound && articles == old(articles)
      ensures r.Ok? ==> articles == old(articles)[id := Republished(old(articles[id]), caller.id, now)]
      ensures r.Ok? ==> id in PublishedArticles()
    {
      if id !in articles {
        return Err(NotFound);
      }
      articles := articles[id := Republished(articles[id], caller.id, now)];
      r := Ok(());
    }
  }
}
