/**
 * `NotionClient`: the read-through caches of the database schema and of the
 * user directory, the pagination drain, and the request methods built on them.
 * Redis is the mutable `redis` field; `log` records every call to Redis and to
 * the Notion SDK, in order.
 */
module Client {
  import opened Wrappers
  import opened Text
  import opened NotionTypes
  import opened Backend
  import opened ReadThrough
  import opened Pagination
  import opened SchemaDefaults
  import opened Requests

  const UserCacheKey: string := "notion:users:all"
  const DatabaseCacheKey: string := "notion:database"

  /** The `users.list` calls made with the given start cursors. */
  function UsersListEvents(cursors: seq<Option<string>>): (r: seq<Event>)
    ensures |r| == |cursors|
    ensures forall i :: 0 <= i < |r| ==> r[i] == UsersList(cursors[i])
    ensures BackendOnly(r)
  {
    seq(|cursors|, i requires 0 <= i < |cursors| => UsersList(cursors[i]))
  }

  /** Logging one more drain call extends the trace by that call's event. */
  lemma UsersListEventsStep(cursors: seq<Option<string>>, pos: nat)
    requires pos < |cursors|
    ensures UsersListEvents(cursors[..pos + 1]) == UsersListEvents(cursors[..pos]) + [UsersList(cursors[pos])]
  {
    assert cursors[..pos + 1] == cursors[..pos] + [cursors[pos]];
  }

  /** `get_page_data` on a retrieved page (or on the error retrieving it raised). */
  function PageDataOf(page: Result<Page, Error>): Result<PageData, Error> {
    match page
    case Failure(e) => Failure(e)
    case Success(p) =>
      match Identifier(p.properties)
      case Success(id) => Success(PageData(id, p.url))
      case Failure(e) => Failure(e)
  }

  /**
   * A schema with a title, an assignee (people) and a Sentry URL (url) column,
   * a new issue without an owner: the URL column holds the Sentry URL, the
   * assignee column keeps its default `{"people": []}` because defaulting runs
   * before the explicit writes, and the title holds the issue title.
   */
  lemma CreateWithoutOwnerScenario(nameCol: string, assigneeCol: string, urlCol: string,
                                   columns: Columns, title: string, sentryIssueUrl: string)
    requires columns.assigneeId != columns.sentryUrlId
    requires columns.assigneeId != TitleKey && columns.sentryUrlId != TitleKey
    ensures var schema := [(nameCol, PropertyDescriptor(TitleKey, Some("title"))),
                           (assigneeCol, PropertyDescriptor(columns.assigneeId, Some("people"))),
                           (urlCol, PropertyDescriptor(columns.sentryUrlId, Some("url")))];
      var r := IssueProperties(EmptyProperties(schema), columns, title, sentryIssueUrl, None);
      && r.Keys == {TitleKey, columns.assigneeId, columns.sentryUrlId}
      && r[columns.sentryUrlId] == UrlValue(sentryIssueUrl)
      && r[columns.assigneeId] == JObj(map["people" := JArr([])])
      && r[TitleKey] == TitleValue(title)
  {
    var schema := [(nameCol, PropertyDescriptor(TitleKey, Some("title"))),
                   (assigneeCol, PropertyDescriptor(columns.assigneeId, Some("people"))),
                   (urlCol, PropertyDescriptor(columns.sentryUrlId, Some("url")))];
    assert schema[..2][..1] == schema[..1];
    assert schema[..1][..0] == [];
    assert EmptyProperties(schema[..1]) == map[];
    assert EmptyProperties(schema[..2]) == map[columns.assigneeId := JObj(map["people" := JArr([])])];
    assert EmptyProperties(schema) == map[columns.assigneeId := JObj(map["people" := JArr([])]),
                                          columns.sentryUrlId := JObj(map["url" := JNull])];
  }

  class NotionClient {
    const notion: Notion
    const codec: Codec
    const config: Config
    var redis: CacheStore
    ghost var log: seq<Event>

    /**
     * The cache codec gives back what it stored. The pagination contract of
     * the directory is required separately, by the members that list users.
     */
    ghost predicate Valid() {
      RoundTrips(codec)
    }

    constructor (notion: Notion, codec: Codec, config: Config, redis: CacheStore)
      requires RoundTrips(codec)
      ensures Valid()
      ensures this.notion == notion && this.codec == codec && this.config == config
      ensures this.redis == redis && log == []
    {
      this.notion := notion;
      this.codec := codec;
      this.config := config;
      this.redis := redis;
      log := [];
    }

    /** The read-through of the database schema from the current store. */
    function DatabaseLookup(): Outcome<Database>
      reads this
    {
      Lookup(redis, DatabaseCacheKey, config.cacheTimeout, codec.decodeDatabase, codec.encodeDatabase,
             notion.database, [DatabasesRetrieve(config.databaseId)])
    }

    /** The read-through of the user directory from the current store. */
    function UsersLookup(): Outcome<seq<User>>
      requires WellFormed(notion.directory)
      reads this
    {
      Lookup(redis, UserCacheKey, config.cacheTimeout, codec.decodeUsers, codec.encodeUsers,
             Drain(notion.directory), UsersListEvents(DrainCursors(notion.directory)))
    }

    /** `_retrieve_database`. */
    method RetrieveDatabase() returns (r: Result<Database, Error>)
      requires Valid()
      modifies this
      ensures r == old(DatabaseLookup()).result
      ensures redis == old(DatabaseLookup()).store
      ensures log == old(log) + old(DatabaseLookup()).events
      ensures r.Success? ==> CachedValue(redis.Get(DatabaseCacheKey), codec.decodeDatabase) == Some(r.value)
    {
      log := log + [RedisGet(DatabaseCacheKey)];
      var cached := redis.Get(DatabaseCacheKey);
      if cached.Some? && |cached.value| > 0 {
        var data := codec.decodeDatabase(cached.value);
        if data.Some? {
          return Success(data.value);
        }
      }
      log := log + [DatabasesRetrieve(config.databaseId)];
      var response := notion.database;
      if response.Failure? {
        return Failure(response.error);
      }
      var database := response.value;
      var serialized := codec.encodeDatabase(database);
      var written := redis.Setex(DatabaseCacheKey, config.cacheTimeout, serialized);
      log := log + [RedisSetex(DatabaseCacheKey, config.cacheTimeout, serialized)];
      if written.Failure? {
        return Failure(written.error);
      }
      redis := written.value;
      return Success(database);
    }

    /** The `while has_more` loop of `_get_and_cache_users`. */
    method DrainUsers() returns (r: Result<seq<User>, Error>)
      requires WellFormed(notion.directory)
      modifies this`log
      ensures r == Drain(notion.directory)
      ensures log == old(log) + UsersListEvents(DrainCursors(notion.directory))
    {
      var d := notion.directory;
      var allUsers: seq<User> := [];
      var startCursor: Option<string> := None;
      var hasMore := true;
      ghost var pos: nat := 0;
      PrependNothing(DrainFrom(d, 0));
      while hasMore
        invariant pos <= |d.pages|
        invariant hasMore ==> pos < |d.pages| && startCursor == CursorOf(d, pos)
        invariant hasMore ==> Drain(d) == Prepend(allUsers, DrainFrom(d, pos))
        invariant !hasMore ==> pos == |d.pages| && Drain(d) == Success(allUsers)
        invariant log == old(log) + UsersListEvents(DrainCursors(d)[..pos])
        decreases |d.pages| - pos
      {
        var params: Option<string> := if Truthy(startCursor) then startCursor else None;
        ListUsersAt(d, pos);
        UsersListEventsStep(DrainCursors(d), pos);
        log := log + [UsersList(params)];
        var response := ListUsers(d, params);
        if response.Failure? {
          DrainFailure(d, pos);
          assert DrainCursors(d)[..pos + 1] == DrainCursors(d);
          return Failure(response.error);
        }
        var page := response.value;
        DrainStep(d, pos, allUsers);
        if Truthy(page.nextCursor) {
          startCursor := page.nextCursor;
        } else {
          hasMore := false;
        }
        allUsers := allUsers + page.results;
        pos := pos + 1;
      }
      assert DrainCursors(d)[..pos] == DrainCursors(d);
      return Success(allUsers);
    }

    /** `_get_and_cache_users`. */
    method GetAndCacheUsers() returns (r: Result<seq<User>, Error>)
      requires Valid() && WellFormed(notion.directory)
      modifies this
      ensures r == old(UsersLookup()).result
      ensures redis == old(UsersLookup()).store
      ensures log == old(log) + old(UsersLookup()).events
      ensures r.Success? ==> CachedValue(redis.Get(UserCacheKey), codec.decodeUsers) == Some(r.value)
    {
      ghost var store0 := redis;
      ghost var log0 := log;
      ghost var liveEvents := UsersListEvents(DrainCursors(notion.directory));
      log := log + [RedisGet(UserCacheKey)];
      var cached := redis.Get(UserCacheKey);
      if cached.Some? && |cached.value| > 0 {
        var data := codec.decodeUsers(cached.value);
        if data.Some? {
          return Success(data.value);
        }
      }
      assert CachedValue(store0.Get(UserCacheKey), codec.decodeUsers).None?;
      var allUsers := DrainUsers();
      assert log == log0 + ([RedisGet(UserCacheKey)] + liveEvents);
      if allUsers.Failure? {
        return allUsers;
      }
      var serialized := codec.encodeUsers(allUsers.value);
      var written := redis.Setex(UserCacheKey, config.cacheTimeout, serialized);
      log := log + [RedisSetex(UserCacheKey, config.cacheTimeout, serialized)];
      if written.Failure? {
        return Failure(written.error);
      }
      redis := written.value;
      assert log == log0 + ([RedisGet(UserCacheKey)] + liveEvents + [RedisSetex(UserCacheKey, config.cacheTimeout, serialized)]);
      return allUsers;
    }

    /** `get_users(query, limit)`. */
    method GetUsers(query: Option<string>, limit: int) returns (r: Result<seq<User>, Error>)
      requires Valid() && WellFormed(notion.directory)
      modifies this
      ensures redis == old(UsersLookup()).store
      ensures log == old(log) + old(UsersLookup()).events
      ensures old(UsersLookup()).result.Failure? ==> r == old(UsersLookup()).result
      ensures old(UsersLookup()).result.Success? ==>
                r == Success(FilterUsers(old(UsersLookup()).result.value, query, limit))
    {
      var allUsers := GetAndCacheUsers();
      if allUsers.Failure? {
        return allUsers;
      }
      if !Truthy(query) {
        return Success(SliceTo(allUsers.value, limit));
      }
      var lowered := Lower(query.value);
      var filtered := Matching(allUsers.value, lowered);
      return Success(SliceTo(filtered, limit));
    }

    /** `search_issues(query, limit)`. */
    method SearchIssues(query: Option<string>, limit: int) returns (r: Result<seq<Page>, Error>)
      modifies this`log
      ensures log == old(log) + [DatabasesQuery(config.databaseId, SearchParams(query, limit))]
      ensures r == notion.query(SearchParams(query, limit))
    {
      var params := QueryParams(limit, None);
      if Truthy(query) {
        params := params.(filter := Some(TitleFilter("title", query.value)));
      }
      log := log + [DatabasesQuery(config.databaseId, params)];
      r := notion.query(params);
    }

    /** `get_page_data(page_id)`. */
    method GetPageData(pageId: string) returns (r: Result<PageData, Error>)
      modifies this`log
      ensures log == old(log) + [PagesRetrieve(pageId)]
      ensures r == PageDataOf(notion.retrievePage(pageId))
    {
      log := log + [PagesRetrieve(pageId)];
      var response := notion.retrievePage(pageId);
      if response.Failure? {
        return Failure(response.error);
      }
      var identifier := FindIdentifier(response.value.properties);
      if identifier.Failure? {
        return Failure(identifier.error);
      }
      return Success(PageData(identifier.value, response.value.url));
    }

    /** `add_sentry_link_to_page(page_id, url)`: writes the URL into the Sentry column. */
    method AddSentryLinkToPage(pageId: string, url: string) returns (r: Result<(), Error>)
      modifies this`log
      ensures log == old(log) + [PagesUpdate(pageId, map[config.columns.sentryUrlId := UrlValue(url)])]
      ensures r == notion.updatePage(pageId, map[config.columns.sentryUrlId := UrlValue(url)])
    {
      var properties := map[config.columns.sentryUrlId := UrlValue(url)];
      log := log + [PagesUpdate(pageId, properties)];
      r := notion.updatePage(pageId, properties);
    }

    /** The property map `create_issue` sends for a page in database `db`. */
    function NewPageProperties(db: Database, title: string, sentryIssueUrl: string,
                               ownerId: Option<string>): map<string, Json>
    {
      IssueProperties(EmptyProperties(db.properties), config.columns, title, sentryIssueUrl, ownerId)
    }

    /** The SDK calls `create_issue` makes once the schema lookup returned `db`. */
    function CreateIssueEvents(db: Result<Database, Error>, title: string, sentryIssueUrl: string,
                               description: Option<string>, ownerId: Option<string>): seq<Event>
    {
      match db
      case Failure(_) => []
      case Success(d) =>
        var properties := NewPageProperties(d, title, sentryIssueUrl, ownerId);
        [PagesCreate(config.databaseId, properties, Children(description))]
        + match notion.createPage(properties, Children(description))
          case Success(created) => [PagesRetrieve(created.id)]
          case Failure(_) => []
    }

    /** What `create_issue` returns once the schema lookup returned `db`. */
    function CreateIssueResult(db: Result<Database, Error>, title: string, sentryIssueUrl: string,
                               description: Option<string>, ownerId: Option<string>): Result<CreateIssueResponse, Error>
    {
      match db
      case Failure(e) => Failure(e)
      case Success(d) =>
        match notion.createPage(NewPageProperties(d, title, sentryIssueUrl, ownerId), Children(description))
        case Failure(e) => Failure(e)
        case Success(created) =>
          match PageDataOf(notion.retrievePage(created.id))
          case Success(page) => Success(CreateIssueResponse(page.url, page.identifier))
          case Failure(e) => Failure(e)
    }

    /** The in-place construction of `properties_object` in `create_issue`. */
    method BuildProperties(db: Database, title: string, sentryIssueUrl: string, ownerId: Option<string>)
      returns (properties: map<string, Json>)
      ensures properties == NewPageProperties(db, title, sentryIssueUrl, ownerId)
    {
      properties := InitializeEmptyProperties(db.properties);
      properties := properties["title" := TitleValue(title)];
      properties := properties[config.columns.sentryUrlId := UrlValue(sentryIssueUrl)];
      if Truthy(ownerId) {
        properties := properties[config.columns.assigneeId := PeopleValue(ownerId.value)];
      }
    }

    /** `create_issue(title, sentry_issue_url, description, owner_id)`. */
    method CreateIssue(title: string, sentryIssueUrl: string, description: Option<string>,
                       ownerId: Option<string>) returns (r: Result<CreateIssueResponse, Error>)
      requires Valid()
      modifies this
      ensures redis == old(DatabaseLookup()).store
      ensures log == old(log) + old(DatabaseLookup()).events
                     + CreateIssueEvents(old(DatabaseLookup()).result, title, sentryIssueUrl, description, ownerId)
      ensures r == CreateIssueResult(old(DatabaseLookup()).result, title, sentryIssueUrl, description, ownerId)
    {
      var database := RetrieveDatabase();
      if database.Failure? {
        return Failure(database.error);
      }
      r := CreateInDatabase(database.value, title, sentryIssueUrl, description, ownerId);
    }

    /** The part of `create_issue` after the schema is known: create the page, then read it back. */
    method CreateInDatabase(db: Database, title: string, sentryIssueUrl: string, description: Option<string>,
                            ownerId: Option<string>) returns (r: Result<CreateIssueResponse, Error>)
      modifies this`log
      ensures log == old(log) + CreateIssueEvents(Success(db), title, sentryIssueUrl, description, ownerId)
      ensures r == CreateIssueResult(Success(db), title, sentryIssueUrl, description, ownerId)
    {
      var properties := BuildProperties(db, title, sentryIssueUrl, ownerId);
      var children := Children(description);
      log := log + [PagesCreate(config.databaseId, properties, children)];
      var created := notion.createPage(properties, children);
      if created.Failure? {
        return Failure(created.error);
      }
      var pageData := GetPageData(created.value.id);
      if pageData.Failure? {
        return Failure(pageData.error);
      }
      return Success(CreateIssueResponse(pageData.value.url, pageData.value.identifier));
    }
  }
}
