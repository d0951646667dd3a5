/**
 * The request-level logic of `NotionClient` that needs no backend: the
 * `get_users` filter, the `search_issues` query parameters, the property map
 * and children of `create_issue`, and the identifier of `get_page_data`.
 */
module Requests {
  import opened Wrappers
  import opened Text
  import opened NotionTypes

  /** `limit` when the caller passes none. */
  const DefaultLimit: int := 10

  /** The key every created page's title is written under. */
  const TitleKey: string := "title"

  function Min(a: int, b: int): int { if a <= b then a else b }
  function Max(a: int, b: int): int { if a >= b then a else b }

  /** `xs[:limit]` in Python: a negative limit counts from the end. */
  function SliceTo<T>(xs: seq<T>, limit: int): (r: seq<T>)
    ensures r <= xs
    ensures limit >= 0 ==> |r| == Min(limit, |xs|)
    ensures limit < 0 ==> |r| == Max(0, |xs| + limit)
  {
    if limit >= 0 then xs[..Min(limit, |xs|)] else xs[..Max(0, |xs| + limit)]
  }

  /** `query in user.name.lower()`, with `query` already lower-cased. */
  predicate NameMatches(u: User, loweredQuery: string) {
    Contains(Lower(u.name), loweredQuery)
  }

  /** `[user for user in users if query in user.name.lower()]`. */
  function Matching(users: seq<User>, loweredQuery: string): seq<User> {
    if users == [] then []
    else (if NameMatches(users[0], loweredQuery) then [users[0]] else []) + Matching(users[1..], loweredQuery)
  }

  /** The comprehension keeps exactly the matching users. */
  lemma {:induction false} MatchingMembers(users: seq<User>, q: string)
    ensures forall u :: u in Matching(users, q) <==> u in users && NameMatches(u, q)
    ensures |Matching(users, q)| <= |users|
  {
    if users != [] {
      MatchingMembers(users[1..], q);
      assert users == [users[0]] + users[1..];
    }
  }

  /** The comprehension keeps the users' order: it distributes over concatenation. */
  lemma {:induction false} MatchingAppend(a: seq<User>, b: seq<User>, q: string)
    ensures Matching(a + b, q) == Matching(a, q) + Matching(b, q)
    decreases |a|
  {
    if a == [] {
      assert a + b == b;
    } else {
      assert (a + b)[0] == a[0];
      assert (a + b)[1..] == a[1..] + b;
      MatchingAppend(a[1..], b, q);
    }
  }

  /** What `get_users(query, limit)` returns from the full user list. */
  function FilterUsers(all: seq<User>, query: Option<string>, limit: int): seq<User> {
    if !Truthy(query) then SliceTo(all, limit)
    else SliceTo(Matching(all, Lower(query.value)), limit)
  }

  /**
   * Without a query, the first `limit` users; with one, an order-preserving
   * prefix of the users whose lower-cased name contains the lower-cased
   * query, of length `min(limit, matches)`; every match is kept when the
   * limit allows.
   */
  lemma FilterUsersSpec(all: seq<User>, query: Option<string>, limit: int)
    ensures var r := FilterUsers(all, query, limit);
      && (!Truthy(query) && limit >= 0 ==> r == all[..Min(limit, |all|)])
      && (Truthy(query) ==> r <= Matching(all, Lower(query.value)))
      && (Truthy(query) ==> forall u :: u in r ==> u in all && Contains(Lower(u.name), Lower(query.value)))
      && (Truthy(query) && limit >= 0 ==> |r| == Min(limit, |Matching(all, Lower(query.value))|))
      && (Truthy(query) && limit >= |all| ==>
            forall u :: u in all && Contains(Lower(u.name), Lower(query.value)) ==> u in r)
  {
    if Truthy(query) {
      var q := Lower(query.value);
      MatchingMembers(all, q);
      var r := FilterUsers(all, query, limit);
      forall u | u in r ensures u in all && NameMatches(u, q) {
        var i :| 0 <= i < |r| && r[i] == u;
        assert Matching(all, q)[i] == u;
      }
      if limit >= |all| {
        assert r == Matching(all, q);
      }
    }
  }

  /** The keyword arguments `search_issues` passes to `databases.query`. */
  function SearchParams(query: Option<string>, limit: int): (r: QueryParams)
    ensures r.pageSize == limit
    ensures r.filter.Some? <==> Truthy(query)
    ensures r.filter.Some? ==> r.filter.value == TitleFilter(TitleKey, query.value)
  {
    if Truthy(query) then QueryParams(limit, Some(TitleFilter("title", query.value)))
    else QueryParams(limit, None)
  }

  /** `{"title": [{"type": "text", "text": {"content": title}}]}`. */
  function TitleValue(title: string): Json {
    JObj(map["title" := JArr([JObj(map["type" := JStr("text"), "text" := JObj(map["content" := JStr(title)])])])])
  }

  /** `{"url": url}`. */
  function UrlValue(url: string): Json {
    JObj(map["url" := JStr(url)])
  }

  /** `{"people": [{"id": owner_id}]}`. */
  function PeopleValue(ownerId: string): Json {
    JObj(map["people" := JArr([JObj(map["id" := JStr(ownerId)])])])
  }

  /** A paragraph block holding `description` as its only rich-text element. */
  function Paragraph(description: string): Json {
    JObj(map["type" := JStr("paragraph"),
             "paragraph" := JObj(map["rich_text" := JArr([JObj(map["type" := JStr("text"),
                                                                "text" := JObj(map["content" := JStr(description)])])])])])
  }

  /**
   * The `properties` of a new page: the schema defaults, then the title, then
   * the Sentry URL column, then the assignee column when an owner is given.
   * Each later write wins over an earlier one on the same key.
   */
  function IssueProperties(defaults: map<string, Json>, columns: Columns, title: string,
                           sentryIssueUrl: string, ownerId: Option<string>): (r: map<string, Json>)
    ensures r.Keys == defaults.Keys + {TitleKey, columns.sentryUrlId}
                      + (if Truthy(ownerId) then {columns.assigneeId} else {})
    ensures forall k ::
              (k in defaults && k != TitleKey && k != columns.sentryUrlId
               && (k != columns.assigneeId || !Truthy(ownerId))) ==> r[k] == defaults[k]
    ensures Truthy(ownerId) ==> r[columns.assigneeId] == PeopleValue(ownerId.value)
    ensures !(Truthy(ownerId) && columns.assigneeId == columns.sentryUrlId) ==>
              r[columns.sentryUrlId] == UrlValue(sentryIssueUrl)
    ensures TitleKey != columns.sentryUrlId && !(Truthy(ownerId) && columns.assigneeId == TitleKey) ==>
              r[TitleKey] == TitleValue(title)
  {
    var withTitle := defaults["title" := TitleValue(title)];
    var withUrl := withTitle[columns.sentryUrlId := UrlValue(sentryIssueUrl)];
    if Truthy(ownerId) then withUrl[columns.assigneeId := PeopleValue(ownerId.value)] else withUrl
  }

  /** The `children` of a new page: one paragraph for a truthy description, else none. */
  function Children(description: Option<string>): (r: seq<Json>)
    ensures |r| == (if Truthy(description) then 1 else 0)
    ensures Truthy(description) ==> r[0] == Paragraph(description.value)
  {
    if Truthy(description) then [Paragraph(description.value)] else []
  }

  /** `f"{prefix}-{number}"`. */
  function FormatUniqueId(u: UniqueId): string {
    u.prefix + "-" + IntToString(u.number)
  }

  /**
   * The identifier `get_page_data` reports: taken from the first property of
   * type `unique_id`; a malformed one fails validation, and a page without
   * one raises `ValueError`.
   */
  function Identifier(properties: seq<PageProperty>): Result<string, Error> {
    if properties == [] then Failure(ValueError("Failed to get page data"))
    else if properties[0].typ == "unique_id" then
      match properties[0].uniqueId
      case Some(u) => Success(FormatUniqueId(u))
      case None => Failure(ValidationError("NotionUniqueIdPageProperty"))
    else Identifier(properties[1..])
  }

  lemma {:induction false} IdentifierSkips(properties: seq<PageProperty>, i: nat)
    requires i <= |properties|
    requires forall j :: 0 <= j < i ==> properties[j].typ != "unique_id"
    ensures Identifier(properties) == Identifier(properties[i..])
  {
    if i > 0 {
      IdentifierSkips(properties[1..], i - 1);
      assert properties[1..][i - 1..] == properties[i..];
    }
  }

  /**
   * The identifier comes from the first `unique_id` property in iteration
   * order, formatted as `prefix-number`; it is a `ValueError` exactly when the
   * page has no `unique_id` property.
   */
  lemma IdentifierFromFirstUniqueId(properties: seq<PageProperty>, i: nat)
    requires i < |properties| && properties[i].typ == "unique_id"
    requires forall j :: 0 <= j < i ==> properties[j].typ != "unique_id"
    ensures properties[i].uniqueId.Some? ==>
      Identifier(properties) == Success(properties[i].uniqueId.value.prefix + "-" + IntToString(properties[i].uniqueId.value.number))
    ensures properties[i].uniqueId.None? ==> Identifier(properties).Failure? && Identifier(properties).error.ValidationError?
  {
    IdentifierSkips(properties, i);
  }

  lemma {:induction false} IdentifierMissing(properties: seq<PageProperty>)
    ensures (forall j :: 0 <= j < |properties| ==> properties[j].typ != "unique_id")
            <==> Identifier(properties) == Failure(ValueError("Failed to get page data"))
  {
    if properties != [] && properties[0].typ != "unique_id" {
      IdentifierMissing(properties[1..]);
      assert forall j :: 1 <= j < |properties| ==> properties[j] == properties[1..][j - 1];
    }
  }

  /** The loop of `get_page_data` over the page's properties, returning at the first `unique_id`. */
  method FindIdentifier(properties: seq<PageProperty>) returns (r: Result<string, Error>)
    ensures r == Identifier(properties)
  {
    for i := 0 to |properties|
      invariant forall j :: 0 <= j < i ==> properties[j].typ != "unique_id"
    {
      if properties[i].typ == "unique_id" {
        IdentifierSkips(properties, i);
        match properties[i].uniqueId {
          case None => return Failure(ValidationError("NotionUniqueIdPageProperty"));
          case Some(u) => return Success(u.prefix + "-" + IntToString(u.number));
        }
      }
    }
    IdentifierSkips(properties, |properties|);
    return Failure(ValueError("Failed to get page data"));
  }
}
