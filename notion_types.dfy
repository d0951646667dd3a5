/**
 * Data shapes exchanged with the Notion API and with Sentry: JSON values,
 * database schemas, users, pages, and the settings the client reads.
 */
module NotionTypes {
  import opened Wrappers

  /** One byte of a Redis value. */
  newtype byte = x: int | 0 <= x < 256

  /** A JSON document as sent to / received from the Notion API. */
  datatype Json =
    | JNull
    | JBool(b: bool)
    | JNum(n: int)
    | JStr(s: string)
    | JArr(items: seq<Json>)
    | JObj(fields: map<string, Json>)

  /** Exceptions the Python code lets escape to its caller. */
  datatype Error =
    | ApiError(reason: string)        // raised by the Notion SDK (transport, auth, rate limit, validation)
    | ValidationError(model: string)  // pydantic `model_validate` rejected a payload
    | ValueError(message: string)     // raised explicitly by the client
    | RedisError(message: string)     // redis-py `ResponseError` for a command the server rejects

  /**
   * One column of a database schema. `typ` is `getattr(prop, "type", None)`:
   * `None` when the descriptor has no type attribute at all.
   */
  datatype PropertyDescriptor = PropertyDescriptor(id: string, typ: Option<string>)

  /** A database schema: the `properties` dict, name to descriptor, in iteration order. */
  type Schema = seq<(string, PropertyDescriptor)>

  datatype Database = Database(properties: Schema)

  /** A workspace member; the UUID `id` is kept in its `str()` form. */
  datatype User = User(id: string, name: string)

  /** One rich-text element of a title property. */
  datatype RichText = RichText(plainText: string)

  datatype UniqueId = UniqueId(prefix: string, number: int)

  /**
   * One value of a page's `properties` dict: its `type` tag, the `title`
   * rich-text list (empty unless `typ == "title"`), and the `unique_id` payload
   * when the backend sent one.
   */
  datatype PageProperty = PageProperty(typ: string, title: seq<RichText>, uniqueId: Option<UniqueId>)

  /** A retrieved page; `properties` holds the dict's values in iteration order. */
  datatype Page = Page(id: string, url: string, properties: seq<PageProperty>)

  /** The part of a create-page response the client reads. */
  datatype CreatedPage = CreatedPage(id: string, url: string)

  datatype PageData = PageData(identifier: string, url: string)

  datatype CreateIssueResponse = CreateIssueResponse(url: string, issueId: string)

  /** The `filter` argument of a database query: the title contains `contains`. */
  datatype TitleFilter = TitleFilter(property: string, contains: string)

  /** Keyword arguments of `databases.query`, besides the database id. */
  datatype QueryParams = QueryParams(pageSize: int, filter: Option<TitleFilter>)

  /** Property ids of the two columns the client writes, and the issue-id column. */
  datatype Columns = Columns(assigneeId: string, issueId: string, sentryUrlId: string)

  /** The settings the client reads; loaded once at start-up. */
  datatype Config = Config(databaseId: string, columns: Columns, cacheTimeout: int)
}
