/**
 * The collaborators the client calls but whose code is not modelled: the
 * Notion SDK (as the answers it gives), the JSON/pydantic codec used for
 * cache values, and the trace of calls the client makes to them and to Redis.
 */
module Backend {
  import opened Wrappers
  import opened NotionTypes
  import Pagination

  /** One call to Redis or to the Notion SDK, named after the SDK method. */
  datatype Event =
    | RedisGet(key: string)
    | RedisSetex(key: string, ttl: int, value: seq<byte>)
    | DatabasesRetrieve(databaseId: string)
    | UsersList(startCursor: Option<string>)
    | DatabasesQuery(databaseId: string, params: QueryParams)
    | PagesCreate(databaseId: string, properties: map<string, Json>, children: seq<Json>)
    | PagesRetrieve(pageId: string)
    | PagesUpdate(pageId: string, properties: map<string, Json>)

  /**
   * What the Notion workspace answers: the configured database (already
   * validated), the user directory, and the page endpoints. Each answer is
   * either the validated response or the error the SDK call raises.
   */
  datatype Notion = Notion(
    database: Result<Database, Error>,
    directory: Pagination.Directory,
    query: QueryParams -> Result<seq<Page>, Error>,
    createPage: (map<string, Json>, seq<Json>) -> Result<CreatedPage, Error>,
    retrievePage: string -> Result<Page, Error>,
    updatePage: (string, map<string, Json>) -> Result<(), Error>)

  /**
   * `json.dumps(model_dump(mode="json"))` and `model_validate(json.loads(...))`
   * for the two cached values; decoding fails on corrupt or stale payloads.
   */
  datatype Codec = Codec(
    encodeDatabase: Database -> seq<byte>,
    decodeDatabase: seq<byte> -> Option<Database>,
    encodeUsers: seq<User> -> seq<byte>,
    decodeUsers: seq<byte> -> Option<seq<User>>)

  /** A value the codec writes is non-empty and reads back as itself. */
  ghost predicate RoundTrips(c: Codec) {
    && (forall db :: |c.encodeDatabase(db)| > 0 && c.decodeDatabase(c.encodeDatabase(db)) == Some(db))
    && (forall us :: |c.encodeUsers(us)| > 0 && c.decodeUsers(c.encodeUsers(us)) == Some(us))
  }
}
