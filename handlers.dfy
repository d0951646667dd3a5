/**
 * The Sentry-facing handlers of `main.py`: each calls the client and shapes
 * its answer into Sentry's response models. Routing, request parsing and the
 * signature check are not part of this model.
 */
module Handlers {
  import opened Wrappers
  import opened NotionTypes
  import opened Backend
  import opened ReadThrough
  import opened Requests
  import opened Client
  import opened Pagination

  /** `SentryAsyncFieldResponse`: one option of a Sentry select field (`text` is its `label`, `isDefault` its `default`). */
  datatype AsyncField = AsyncField(text: string, value: string, isDefault: bool)

  /** `SentryIssueResponse`. */
  datatype SentryIssueResponse = SentryIssueResponse(webUrl: string, project: string, identifier: string)

  /** The `fields` of a create request: `title`, optional `description` and `owner_id`. */
  datatype CreateIssueFields = CreateIssueFields(title: string, description: Option<string>, ownerId: Option<string>)

  /** The label of a title property: its first element's plain text, or "" when the title is empty. */
  function TitleLabel(p: PageProperty): string {
    if |p.title| > 0 then p.title[0].plainText else ""
  }

  /** The entries the inner loop appends for one issue, over a prefix of its properties. */
  function TitleEntries(issueId: string, properties: seq<PageProperty>): seq<AsyncField>
    decreases |properties|
  {
    if properties == [] then []
    else
      var last := properties[|properties| - 1];
      TitleEntries(issueId, properties[..|properties| - 1])
      + (if last.typ == "title" then [AsyncField(TitleLabel(last), issueId, false)] else [])
  }

  /** The entries the outer loop collects, over a prefix of the issues. */
  function SearchEntries(issues: seq<Page>): seq<AsyncField>
    decreases |issues|
  {
    if issues == [] then []
    else
      var last := issues[|issues| - 1];
      SearchEntries(issues[..|issues| - 1]) + TitleEntries(last.id, last.properties)
  }

  /** The title-typed properties, in property order. */
  function Titles(properties: seq<PageProperty>): seq<PageProperty> {
    if properties == [] then []
    else (if properties[0].typ == "title" then [properties[0]] else []) + Titles(properties[1..])
  }

  lemma {:induction false} TitlesAppendLast(properties: seq<PageProperty>, p: PageProperty)
    ensures Titles(properties + [p]) == Titles(properties) + (if p.typ == "title" then [p] else [])
    decreases |properties|
  {
    if properties == [] {
      assert [p][1..] == [];
    } else {
      assert (properties + [p])[1..] == properties[1..] + [p];
      TitlesAppendLast(properties[1..], p);
    }
  }

  /**
   * One issue contributes exactly one entry per title-typed property, in
   * property order: label from that property, value the issue id, not default.
   */
  lemma {:induction false} TitleEntriesSpec(issueId: string, properties: seq<PageProperty>)
    ensures |TitleEntries(issueId, properties)| == |Titles(properties)|
    ensures forall i :: 0 <= i < |Titles(properties)| ==>
      TitleEntries(issueId, properties)[i] == AsyncField(TitleLabel(Titles(properties)[i]), issueId, false)
    decreases |properties|
  {
    if properties != [] {
      var init, last := properties[..|properties| - 1], properties[|properties| - 1];
      assert properties == init + [last];
      TitleEntriesSpec(issueId, init);
      TitlesAppendLast(init, last);
    }
  }

  /** Issues contribute their entries in issue order: the mapping distributes over concatenation. */
  lemma {:induction false} SearchEntriesAppend(a: seq<Page>, b: seq<Page>)
    ensures SearchEntries(a + b) == SearchEntries(a) + SearchEntries(b)
    decreases |b|
  {
    if b == [] {
      assert a + b == a;
    } else {
      var init, last := b[..|b| - 1], b[|b| - 1];
      SearchEntriesAppend(a, init);
      assert (a + b)[..|a + b| - 1] == a + init;
      assert (a + b)[|a + b| - 1] == last;
      assert SearchEntries(a + b) == SearchEntries(a + init) + TitleEntries(last.id, last.properties);
      assert SearchEntries(b) == SearchEntries(init) + TitleEntries(last.id, last.properties);
    }
  }

  /** Every search entry carries the id of one of the issues and is not a default. */
  lemma {:induction false} SearchEntriesValues(issues: seq<Page>)
    ensures forall e :: e in SearchEntries(issues) ==>
      !e.isDefault && exists i :: 0 <= i < |issues| && e.value == issues[i].id
    decreases |issues|
  {
    if issues != [] {
      var init, last := issues[..|issues| - 1], issues[|issues| - 1];
      SearchEntriesValues(init);
      TitleEntriesSpec(last.id, last.properties);
      forall e | e in SearchEntries(issues)
        ensures !e.isDefault && exists i :: 0 <= i < |issues| && e.value == issues[i].id
      {
        if e in SearchEntries(init) {
          var i :| 0 <= i < |init| && e.value == init[i].id;
          assert issues[i] == init[i];
        } else {
          assert e in TitleEntries(last.id, last.properties);
          var k :| 0 <= k < |TitleEntries(last.id, last.properties)| && TitleEntries(last.id, last.properties)[k] == e;
          assert e.value == issues[|issues| - 1].id;
        }
      }
    }
  }

  /** The nested loops of `search_notion_issues`, appending to `responses`. */
  method SearchResponses(issues: seq<Page>) returns (responses: seq<AsyncField>)
    ensures responses == SearchEntries(issues)
  {
    responses := [];
    for i := 0 to |issues|
      invariant responses == SearchEntries(issues[..i])
    {
      var issue := issues[i];
      assert issues[..i + 1][..i] == issues[..i];
      ghost var before := responses;
      for j := 0 to |issue.properties|
        invariant responses == before + TitleEntries(issue.id, issue.properties[..j])
      {
        var prop := issue.properties[j];
        assert issue.properties[..j + 1][..j] == issue.properties[..j];
        if prop.typ == "title" {
          var titlePlainText := if |prop.title| > 0 then prop.title[0].plainText else "";
          responses := responses + [AsyncField(titlePlainText, issue.id, false)];
        }
      }
      assert issue.properties[..|issue.properties|] == issue.properties;
    }
    assert issues[..|issues|] == issues;
  }

  /** `search_notion_issues(query)`: the query passes through unchanged, with the default limit. */
  method SearchNotionIssues(client: NotionClient, query: Option<string>) returns (r: Result<seq<AsyncField>, Error>)
    modifies client`log
    ensures client.log == old(client.log) + [DatabasesQuery(client.config.databaseId, SearchParams(query, DefaultLimit))]
    ensures client.notion.query(SearchParams(query, DefaultLimit)).Failure? ==>
              r == Failure(client.notion.query(SearchParams(query, DefaultLimit)).error)
    ensures client.notion.query(SearchParams(query, DefaultLimit)).Success? ==>
              r == Success(SearchEntries(client.notion.query(SearchParams(query, DefaultLimit)).value))
  {
    var issues := client.SearchIssues(query, DefaultLimit);
    if issues.Failure? {
      return Failure(issues.error);
    }
    var responses := SearchResponses(issues.value);
    return Success(responses);
  }

  /** The user list as Sentry options: same length and order, label the name, value the id. */
  function UserOptions(users: seq<User>): (r: seq<AsyncField>)
    ensures |r| == |users|
    ensures forall i :: 0 <= i < |users| ==> r[i] == AsyncField(users[i].name, users[i].id, false)
  {
    seq(|users|, i requires 0 <= i < |users| => AsyncField(users[i].name, users[i].id, false))
  }

  /** `get_notion_users(query)`: the query passes through unchanged, with the default limit. */
  method GetNotionUsers(client: NotionClient, query: Option<string>) returns (r: Result<seq<AsyncField>, Error>)
    requires client.Valid() && WellFormed(client.notion.directory)
    modifies client
    ensures client.redis == old(client.UsersLookup()).store
    ensures client.log == old(client.log) + old(client.UsersLookup()).events
    ensures old(client.UsersLookup()).result.Failure? ==> r == Failure(old(client.UsersLookup()).result.error)
    ensures old(client.UsersLookup()).result.Success? ==>
              r == Success(UserOptions(FilterUsers(old(client.UsersLookup()).result.value, query, DefaultLimit)))
  {
    var users := client.GetUsers(query, DefaultLimit);
    if users.Failure? {
      return Failure(users.error);
    }
    return Success(UserOptions(users.value));
  }

  /** `create_notion_issue`: the new page's URL and identifier, with a blank project. */
  method CreateNotionIssue(client: NotionClient, webUrl: string, fields: CreateIssueFields)
    returns (r: Result<SentryIssueResponse, Error>)
    requires client.Valid()
    modifies client
    ensures client.redis == old(client.DatabaseLookup()).store
    ensures client.log == old(client.log) + old(client.DatabaseLookup()).events
      + client.CreateIssueEvents(old(client.DatabaseLookup()).result, fields.title, webUrl, fields.description, fields.ownerId)
    ensures var created := client.CreateIssueResult(old(client.DatabaseLookup()).result, fields.title, webUrl,
                                                    fields.description, fields.ownerId);
      && (created.Failure? ==> r == Failure(created.error))
      && (created.Success? ==> r == Success(SentryIssueResponse(created.value.url, "", created.value.issueId)))
  {
    var response := client.CreateIssue(fields.title, webUrl, fields.description, fields.ownerId);
    if response.Failure? {
      return Failure(response.error);
    }
    return Success(SentryIssueResponse(response.value.url, "", response.value.issueId));
  }

  /**
   * `link_notion_issue`: the Sentry URL is written to the page first, then
   * the same page is read back for its URL and identifier.
   */
  method LinkNotionIssue(client: NotionClient, webUrl: string, pageId: string)
    returns (r: Result<SentryIssueResponse, Error>)
    modifies client`log
    ensures var update := client.notion.updatePage(pageId, map[client.config.columns.sentryUrlId := UrlValue(webUrl)]);
      && client.log == old(client.log)
           + [PagesUpdate(pageId, map[client.config.columns.sentryUrlId := UrlValue(webUrl)])]
           + (if update.Success? then [PagesRetrieve(pageId)] else [])
      && (update.Failure? ==> r == Failure(update.error))
    ensures var update := client.notion.updatePage(pageId, map[client.config.columns.sentryUrlId := UrlValue(webUrl)]);
      var page := PageDataOf(client.notion.retrievePage(pageId));
      && (update.Success? && page.Failure? ==> r == Failure(page.error))
      && (update.Success? && page.Success? ==>
            r == Success(SentryIssueResponse(page.value.url, "", page.value.identifier)))
  {
    var linked := client.AddSentryLinkToPage(pageId, webUrl);
    if linked.Failure? {
      return Failure(linked.error);
    }
    var pageData := client.GetPageData(pageId);
    if pageData.Failure? {
      return Failure(pageData.error);
    }
    return Success(SentryIssueResponse(pageData.value.url, "", pageData.value.identifier));
  }
}
