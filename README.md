# Sentry–Notion issue adapter: the Notion client layer in Dafny

This project models the core of a webhook adapter that lets Sentry create,
search and link issues in a Notion database. The core is the Notion client
layer and the request handlers that call it:

- **Schema defaulting** (`initialize_empty_properties`). Every recognised,
  non-title column of the database schema gets an empty value keyed by its
  property id.
- **Read-through caches.** The database schema (`notion:database`) and the
  full user directory (`notion:users:all`) are read from Redis first. A truthy
  value that deserialises is returned as is. Otherwise the live Notion call
  runs, and its result is written back with `setex` and the configured
  `cache_timeout`.
- **Cursor-pagination drain.** `users.list` is called page after page until a
  falsy `next_cursor`, and the pages' results are concatenated.
- **Request logic.** This covers the `get_users` filter and limit, the
  `search_issues` query parameters, the `create_issue` property map and
  children, and the `get_page_data` identifier (`prefix-number` of the first
  `unique_id` property).
- **Response shaping** in the Sentry handlers: search entries, user options,
  and create/link responses.

Modules:

- `Wrappers`: `Option` and `Result`.
- `Text`: truthiness, ASCII lower-casing, substring search, `str(int)`.
- `NotionTypes`: JSON, schemas, users, pages, settings.
- `SchemaDefaults`: `src/notion/utils.py`.
- `Pagination`: the `users.list` page chain and its drain.
- `Backend`: the Notion SDK answers, the cache codec, and the call trace.
- `ReadThrough`: the Redis store and the read-through policy.
- `Requests`: the backend-free parts of `NotionClient`.
- `Client`: the `NotionClient` class.
- `Handlers`: `src/main.py`.

`NotionClient` is a class. Redis is its mutable `redis` field: a map from key
to bytes, plus the TTL of the last `setex`. A ghost `log` records every Redis
and Notion SDK call in order. Every stateful method states its new store and
the exact calls it appends, so "no backend call on a hit", "exactly one
`setex` on a miss", "get before fetch before write", "one `users.list` per
page" and "update before retrieve on link" are all facts about the log.

The Notion SDK, JSON and pydantic validation are collaborators whose code is
not part of this model. The SDK is a constant value of answers: the database,
the page chain of the directory, and functions for query, create, retrieve
and update. Each answer is either the validated response or the error the
call raises. The cache codec is a pair of functions per cached value, and
decoding may fail. Settings (`database_id`, the column ids, `cache_timeout`)
are a constant `Config`.

In `src/notion/client.py` the Redis `get` and `setex` calls (lines 191, 210,
217 and 255) are not wrapped in `try`, so connection errors propagate to the
caller. `src/settings.py` accepts any integer for `cache_timeout`, and Redis
refuses `SETEX` with an expire time of zero or less. The model includes that
refusal: after a successful live fetch, the caller gets the Redis error and
nothing is cached. The only failure the read-throughs swallow is a decoding
failure of a cached payload. The model treats the store as always reachable (see Left out)
and swallows only decoding failures.
A test in `tests/notion_client/client_test.py` names settings fields
(`column_names`, `sentry_url`, `assignee`) that `src/settings.py` does not
define. The model uses the client's own `columns.sentry_url_id` and
`columns.assignee_id`.

## Model

| member | source | states |
|---|---|---|
| `SchemaDefaults.DefaultValue` | src/notion/utils.py:21-49 | The value is present exactly for the 13 listed types. It is `{type: []}` for rich_text, multi_select, people, files and relation, `{type: None}` for number, select, date, url, email, phone_number and status, and `{type: False}` for checkbox. `title` has no value. |
| `SchemaDefaults.InitializeEmptyProperties` | src/notion/utils.py:14-51 | The in-place loop over the schema builds exactly the dict `EmptyProperties` defines: each descriptor in iteration order either adds or overwrites its id, or is skipped. |
| `SchemaDefaults.DescriptorDefaultIffRecognised` | src/notion/utils.py:17-19 | A descriptor with a missing or empty type contributes nothing. A descriptor contributes a value exactly when its type is one of the 13 non-title types, and the value is that type's default. |
| `SchemaDefaults.KeysAreRecognisedIds` | src/notion/utils.py:16-49 | The result's keys are exactly the ids of descriptors with a recognised non-title type. Titles and missing, empty or unknown types add no key, and schema names never become keys. |
| `SchemaDefaults.LastRecognisedWins` | src/notion/utils.py:16-49 | Every recognised descriptor's id is present. It holds that descriptor's default unless a later recognised descriptor has the same id, so on duplicate ids the later one wins. |
| `SchemaDefaults.SkippedDescriptorIrrelevant` | src/notion/utils.py:17-23 | Inserting a title, untyped or unknown-typed descriptor anywhere in the schema leaves the result unchanged, and no error is raised. |
| `SchemaDefaults.EmptySchemaNoProperties` | src/notion/utils.py:14-16 | An empty schema, or one holding only a title column, yields an empty dict. |
| `Text.ContainsIffOccurs` | src/notion/client.py:125 | Python's `needle in s` holds exactly when some window of `s` spells `needle`. |
| `Text.IntToString` | src/notion/client.py:167 | `str(n)` is non-empty. It starts with `-` exactly for a negative number, the rest is decimal digits, and those digits read in decimal give back `n` (negated for a negative `n`). There is no leading zero except in `"0"` itself. |
| `Pagination.ListUsersAt` | src/notion/client.py:232-239 | Asking the backend for the cursor of page `i` (none for the first page, the previous page's `next_cursor` after that) returns page `i`. |
| `Pagination.DrainCallsFollowCursors` | src/notion/client.py:227-251 | A drain makes one `users.list` call per page. The first omits `start_cursor`, and each later call passes the previous page's truthy `next_cursor`. The `i`-th call is answered with page `i`. |
| `Pagination.DrainConcatenatesPages` | src/notion/client.py:227-251 | Draining returns the in-order concatenation of all pages' results. If the last page reached raises, the drain returns that error and no partial list. |
| `Pagination.ThreePageDrain` | src/notion/client.py:227-251 | A three-page chain with two truthy cursors makes the calls `[None, c1, c2]` and returns `a + b + c`. |
| `ReadThrough.CacheStore.Setex` | src/notion/client.py:210 | `setex` stores the value and TTL under the key and leaves every other key's value and TTL unchanged. A TTL of zero or less is refused with Redis's "invalid expire time" error, and nothing is stored. |
| `ReadThrough.LookupHit` | src/notion/client.py:191-195 | When the cached bytes are truthy and deserialise, the lookup returns them after a single `get`. There is no backend call and no `setex`, and the store is unchanged. |
| `ReadThrough.LookupMiss` | src/notion/client.py:191-210 | On a missing key, falsy bytes or a decoding failure, the backend fetch runs once, right after the `get`, and the trace holds nothing else but the one `setex` on success. If the fetch raises, its error propagates and nothing is written. Otherwise exactly one `setex` follows, on the same key and TTL, and stores the encoded result. When `cache_timeout` is zero or less, Redis refuses that `setex`: the caller gets the Redis error instead of the fetched value, and nothing is stored. |
| `ReadThrough.LookupFrame` | src/notion/client.py:210 | A lookup touches no key other than its own. The two caches are independent. |
| `ReadThrough.LookupWarms` | src/notion/client.py:209-210 | With a codec that reads back what it writes, a successful lookup leaves a warm cache. The next lookup returns the same value after one `get` and writes nothing. |
| `Requests.SliceTo` | src/notion/client.py:121 | `xs[:limit]` is a prefix of `xs` of length `min(limit, n)`, or `max(0, n + limit)` for a negative limit. |
| `Requests.MatchingMembers` | src/notion/client.py:125 | The comprehension keeps exactly the users whose lower-cased name contains the lower-cased query. |
| `Requests.MatchingAppend` | src/notion/client.py:125 | The comprehension keeps the users' order: it distributes over concatenation. |
| `Requests.FilterUsersSpec` | src/notion/client.py:112-126 | With a falsy query the result is the first `min(limit, n)` users. Otherwise it is an order-preserving prefix of the matching users, of length `min(limit, matches)`. Every returned user matches, and every match is returned when the limit allows. |
| `Requests.SearchParams` | src/notion/client.py:132-137 | `page_size` is always `limit`. A filter `title contains query` is present exactly when the query is truthy. |
| `Requests.IssueProperties` | src/notion/client.py:60-74 | The keys are the defaults plus `title`, the Sentry URL column and, for a truthy owner, the assignee column. Every other default is unchanged. The assignee column is `{"people": [{"id": owner}]}`. The URL column is `{"url": url}` unless the assignee write overrides it. The title is the title text unless a later write overrides it. |
| `Requests.Children` | src/notion/client.py:84-100 | `children` holds exactly one paragraph with the description when the description is truthy, and is empty otherwise. |
| `Requests.IdentifierFromFirstUniqueId` | src/notion/client.py:164-168 | The identifier comes from the first `unique_id` property in iteration order, as `prefix + "-" + str(number)`. A malformed one fails validation. |
| `Requests.IdentifierMissing` | src/notion/client.py:164-171 | The lookup raises `ValueError("Failed to get page data")` exactly when no property has type `unique_id`. |
| `Requests.FindIdentifier` | src/notion/client.py:164-171 | The early-return loop over the page's properties computes exactly `Identifier`. |
| `Client.CreateWithoutOwnerScenario` | src/notion/client.py:60-74 | For a schema {title, people assignee, url column} and no owner, the URL column holds the Sentry URL and the assignee keeps `{"people": []}`, because defaulting runs before the explicit writes. |
| `Client.NotionClient.constructor` | src/notion/client.py:34-41 | The client starts with the given Notion answers, codec, settings and Redis contents, and an empty call trace. |
| `Client.NotionClient.RetrieveDatabase` | src/notion/client.py:188-212 | The method returns the schema read-through result on `notion:database` with `cache_timeout`, and leaves the store and call trace that lookup defines. After success, the cache serves the returned schema. |
| `Client.NotionClient.DrainUsers` | src/notion/client.py:227-251 | The `while has_more` loop returns `Drain` of the directory and logs one `users.list` call per page with the cursors `DrainCursors` gives. It terminates because the pages left to visit decrease. |
| `Client.NotionClient.GetAndCacheUsers` | src/notion/client.py:214-257 | The method returns the directory read-through result on `notion:users:all`, with the drain as the live fetch. Its store and call trace are the ones that lookup defines. After success, the cache serves the returned list. |
| `Client.NotionClient.GetUsers` | src/notion/client.py:112-126 | The method returns `FilterUsers` of the directory lookup's users for the given query and limit, or that lookup's error. The cache effects are those of the lookup. |
| `Client.NotionClient.SearchIssues` | src/notion/client.py:128-151 | The method makes one `databases.query` call on the configured database with `SearchParams(query, limit)` and returns its answer. |
| `Client.NotionClient.GetPageData` | src/notion/client.py:153-171 | The method makes one `pages.retrieve` call and returns the page URL with its identifier. It returns the retrieve error or the identifier error if either occurs. |
| `Client.NotionClient.AddSentryLinkToPage` | src/notion/client.py:173-182 | The method makes one `pages.update` call that writes `{"url": url}` into the Sentry URL column, and returns its outcome. |
| `Client.NotionClient.CreateIssue` | src/notion/client.py:47-110 | The method runs the schema lookup, then `pages.create` on the configured database with `IssueProperties(EmptyProperties(schema), …)` and `Children(description)`, then `get_page_data` on the new page id. It returns the URL and identifier, or the first error. |
| `Client.NotionClient.BuildProperties` | src/notion/client.py:60-74 | The mutated `properties_object` equals `IssueProperties(EmptyProperties(schema), …)`: every schema default, then title, Sentry URL, and the assignee only when the owner id is truthy. |
| `Client.NotionClient.CreateInDatabase` | src/notion/client.py:77-110 | Once the schema is known, the method logs one `pages.create` and, if that succeeds, one `pages.retrieve` of the new id. It returns the page's URL and identifier or the first error. |
| `Handlers.TitleEntriesSpec` | src/main.py:45-54 | An issue contributes exactly one entry per title-typed property, in property order. The label is the first title element's `plain_text` or `""`, the value is the issue id, and `default` is false. |
| `Handlers.SearchEntriesAppend` | src/main.py:44-54 | Entries come in issue order: the mapping distributes over concatenation of issue lists. |
| `Handlers.SearchEntriesValues` | src/main.py:50-53 | Every search entry's value is the id of one of the issues, and no entry is a default. |
| `Handlers.SearchResponses` | src/main.py:43-56 | The nested append loops produce exactly `SearchEntries(issues)`. |
| `Handlers.SearchNotionIssues` | src/main.py:36-56 | The handler passes the query through unchanged, with the default limit 10, in one `databases.query`. It returns the search entries of the answer or the query's error. |
| `Handlers.UserOptions` | src/main.py:78-80 | The options have the same length and order as the users, with label = name, value = id and `default` false. |
| `Handlers.GetNotionUsers` | src/main.py:74-80 | The handler passes the query through unchanged, with the default limit 10. It returns the user options of `get_users`, and the cache effects are those of the directory lookup. |
| `Handlers.CreateNotionIssue` | src/main.py:19-33 | The response copies the created page's URL and identifier, with `project == ""`. Errors propagate, and the calls are those of `create_issue`. |
| `Handlers.LinkNotionIssue` | src/main.py:59-71 | `pages.update` on the page runs before `pages.retrieve` on the same page id. The response copies URL and identifier with `project == ""`. An update error stops before the retrieve. |

## Left out

- HTTP wiring: the FastAPI app, route decorators, `Depends` and request-body reading. The handlers take the already-parsed fields. Request fields the handlers never read (installation id, Sentry issue id, project, actor) are not modelled.
- Sentry signature verification (HMAC-SHA256 over the body): it is a library call and runs before any modelled logic.
- Settings loading from the environment and JSON: `Config` is a constant given to the client.
- JSON serialisation and pydantic validation are abstract. The cache codec is a pair of functions per value whose decoder may fail. SDK answers are already validated, and a validation error is one of the errors an SDK answer can carry.
- Redis connection errors on `get` and `setex`: the store is always reachable in the model. In the code, such errors would propagate.
- TTL expiry: only the TTL passed to `setex` is stored. Expiry, clocks and logging are not modelled.
- Concurrency between requests: each method runs alone on the client.
- Unicode lower-casing: `Lower` folds ASCII letters only.
- UUIDs are kept in their string form, and `str(uuid)` is the identity.
- Pages whose properties lack a `type` key, and title properties that lack a `title` key, raise `KeyError` in the code. The model's typed page properties cannot express them.
- The `hasattr(database, "model_dump")` guard before caching the schema is always true for a pydantic model, so the model always writes.
- The Notion workspace does not change as a result of create or update. Each SDK call answers from the fixed `Notion` value.
- Termination of the drain is proved for backends that honour the pagination contract (`Pagination.WellFormed`: a finite chain with unique truthy cursors). An endless cursor chain, which would make the code loop forever, is not modelled.
