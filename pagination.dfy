/**
 * The cursor-paginated `users.list` endpoint, as a finite chain of pages,
 * and the result of draining it from the first page to the last.
 */
module Pagination {
  import opened Wrappers
  import opened Text
  import opened NotionTypes

  /** One `users.list` response: its `results` and its `next_cursor`. */
  datatype UsersPage = UsersPage(results: seq<User>, nextCursor: Option<string>)

  /**
   * The directory as the backend serves it: page `i` is what the call for
   * that page returns, or the error that call raises.
   */
  datatype Directory = Directory(pages: seq<Result<UsersPage, Error>>)

  /**
   * The backend honours its pagination contract: every page but the last is
   * returned with a truthy, unique `next_cursor`; the last one either raises
   * or carries a falsy `next_cursor`.
   */
  ghost predicate WellFormed(d: Directory) {
    && |d.pages| > 0
    && (forall i :: 0 <= i < |d.pages| - 1 ==>
          d.pages[i].Success? && Truthy(d.pages[i].value.nextCursor))
    && (d.pages[|d.pages| - 1].Success? ==> !Truthy(d.pages[|d.pages| - 1].value.nextCursor))
    && (forall i, j :: 0 <= i < j < |d.pages| - 1 ==>
          d.pages[i].value.nextCursor != d.pages[j].value.nextCursor)
  }

  /** The `start_cursor` that fetches page `i`: none for the first page. */
  function CursorOf(d: Directory, i: nat): Option<string>
    requires i < |d.pages|
    requires forall j :: 0 <= j < i ==> d.pages[j].Success?
  {
    if i == 0 then None else d.pages[i - 1].value.nextCursor
  }

  /** The first page from `j` on whose `next_cursor` is `c`, if any. */
  function PageAfter(d: Directory, c: string, j: nat): Option<nat>
    decreases |d.pages| - j
  {
    if j + 1 >= |d.pages| then None
    else if d.pages[j].Success? && d.pages[j].value.nextCursor == Some(c) then Some(j + 1)
    else PageAfter(d, c, j + 1)
  }

  /** The backend's answer to `users.list(start_cursor=...)`; an unknown cursor is rejected. */
  function ListUsers(d: Directory, startCursor: Option<string>): Result<UsersPage, Error>
    requires |d.pages| > 0
  {
    match startCursor
    case None => d.pages[0]
    case Some(c) =>
      match PageAfter(d, c, 0)
      case Some(k) => if k < |d.pages| then d.pages[k] else Failure(ApiError("invalid start_cursor"))
      case None => Failure(ApiError("invalid start_cursor"))
  }

  lemma {:induction false} PageAfterFindsUnique(d: Directory, i: nat, j: nat)
    requires WellFormed(d)
    requires j <= i < |d.pages| - 1
    requires forall k :: j <= k < i ==> d.pages[k].value.nextCursor != d.pages[i].value.nextCursor
    ensures PageAfter(d, d.pages[i].value.nextCursor.value, j) == Some(i + 1)
    decreases i - j
  {
    if j < i {
      PageAfterFindsUnique(d, i, j + 1);
    }
  }

  /** Asking for page `i` by its cursor returns page `i`. */
  lemma ListUsersAt(d: Directory, i: nat)
    requires WellFormed(d) && i < |d.pages|
    ensures ListUsers(d, CursorOf(d, i)) == d.pages[i]
  {
    if i > 0 {
      PageAfterFindsUnique(d, i - 1, 0);
    }
  }

  /** All results from page `i` on, or the error of the page that raises. */
  function DrainFrom(d: Directory, i: nat): Result<seq<User>, Error>
    requires WellFormed(d) && i < |d.pages|
    decreases |d.pages| - i
  {
    match d.pages[i]
    case Failure(e) => Failure(e)
    case Success(p) =>
      if Truthy(p.nextCursor) then
        match DrainFrom(d, i + 1)
        case Success(rest) => Success(p.results + rest)
        case Failure(e) => Failure(e)
      else Success(p.results)
  }

  /** The whole directory, as `_get_and_cache_users` collects it. */
  function Drain(d: Directory): Result<seq<User>, Error>
    requires WellFormed(d)
  {
    DrainFrom(d, 0)
  }

  /** One served page with a truthy cursor leads to the next page; a falsy one ends the chain. */
  lemma DrainStep(d: Directory, pos: nat, collected: seq<User>)
    requires WellFormed(d) && pos < |d.pages| && d.pages[pos].Success?
    ensures var p := d.pages[pos].value;
      && (Truthy(p.nextCursor) ==>
            pos + 1 < |d.pages|
            && Prepend(collected, DrainFrom(d, pos)) == Prepend(collected + p.results, DrainFrom(d, pos + 1)))
      && (!Truthy(p.nextCursor) ==>
            pos + 1 == |d.pages| && Prepend(collected, DrainFrom(d, pos)) == Success(collected + p.results))
  {
    var p := d.pages[pos].value;
    if Truthy(p.nextCursor) {
      assert pos + 1 < |d.pages|;
      var rest := DrainFrom(d, pos + 1);
      if rest.Success? {
        assert collected + (p.results + rest.value) == collected + p.results + rest.value;
      }
    }
  }

  /** Only the last page can raise, and then the drain from it is that error. */
  lemma DrainFailure(d: Directory, pos: nat)
    requires WellFormed(d) && pos < |d.pages| && d.pages[pos].Failure?
    ensures pos + 1 == |d.pages| && DrainFrom(d, pos) == Failure(d.pages[pos].error)
  {
  }

  /** `users` prepended to a successful drain result; an error stays an error. */
  function Prepend(users: seq<User>, r: Result<seq<User>, Error>): Result<seq<User>, Error> {
    match r
    case Success(rest) => Success(users + rest)
    case Failure(e) => Failure(e)
  }

  lemma PrependNothing(r: Result<seq<User>, Error>)
    ensures Prepend([], r) == r
  {
    if r.Success? {
      assert [] + r.value == r.value;
    }
  }

  /** The `start_cursor` of every `users.list` call a drain makes, in order. */
  function DrainCursors(d: Directory): (r: seq<Option<string>>)
    requires WellFormed(d)
    ensures |r| == |d.pages|
    ensures forall i :: 0 <= i < |r| ==> r[i] == CursorOf(d, i)
  {
    seq(|d.pages|, i requires 0 <= i < |d.pages| => CursorOf(d, i))
  }

  /** The results of pages `i` and on, concatenated in page order. */
  function ResultsFrom(d: Directory, i: nat): seq<User>
    requires i <= |d.pages|
    requires forall j :: i <= j < |d.pages| ==> d.pages[j].Success?
    decreases |d.pages| - i
  {
    if i == |d.pages| then [] else d.pages[i].value.results + ResultsFrom(d, i + 1)
  }

  lemma {:induction false} DrainFromConcatenates(d: Directory, i: nat)
    requires WellFormed(d) && i < |d.pages|
    ensures DrainFrom(d, i).Failure? <==> d.pages[|d.pages| - 1].Failure?
    ensures d.pages[|d.pages| - 1].Failure? ==> DrainFrom(d, i).error == d.pages[|d.pages| - 1].error
    ensures d.pages[|d.pages| - 1].Success? ==> DrainFrom(d, i) == Success(ResultsFrom(d, i))
    decreases |d.pages| - i
  {
    if i < |d.pages| - 1 {
      DrainFromConcatenates(d, i + 1);
    } else if d.pages[i].Success? {
      assert i == |d.pages| - 1;
      assert !Truthy(d.pages[i].value.nextCursor);
      assert DrainFrom(d, i) == Success(d.pages[i].value.results);
      assert ResultsFrom(d, i + 1) == [];
      assert ResultsFrom(d, i) == d.pages[i].value.results + [];
      assert d.pages[i].value.results + [] == d.pages[i].value.results;
    }
  }

  /**
   * Draining yields the in-order concatenation of every page's results when
   * the last page is served, and otherwise the error of that page: no partial
   * list ever comes out.
   */
  lemma DrainConcatenatesPages(d: Directory)
    requires WellFormed(d)
    ensures d.pages[|d.pages| - 1].Success? ==> Drain(d) == Success(ResultsFrom(d, 0))
    ensures d.pages[|d.pages| - 1].Failure? ==> Drain(d) == Failure(d.pages[|d.pages| - 1].error)
  {
    DrainFromConcatenates(d, 0);
  }

  /**
   * The calls a drain makes: the first omits `start_cursor`, each later one
   * passes the previous page's `next_cursor`, one call per page, and the
   * `i`-th call is answered with page `i`.
   */
  lemma DrainCallsFollowCursors(d: Directory)
    requires WellFormed(d)
    ensures |DrainCursors(d)| == |d.pages|
    ensures DrainCursors(d)[0] == None
    ensures forall i :: 0 <= i < |d.pages| - 1 ==>
      DrainCursors(d)[i + 1] == d.pages[i].value.nextCursor && Truthy(DrainCursors(d)[i + 1])
    ensures forall i :: 0 <= i < |d.pages| ==> ListUsers(d, DrainCursors(d)[i]) == d.pages[i]
  {
    forall i | 0 <= i < |d.pages|
      ensures ListUsers(d, DrainCursors(d)[i]) == d.pages[i]
    {
      ListUsersAt(d, i);
    }
  }

  /** The three-page chain: three calls, and the three pages' users in order. */
  lemma ThreePageDrain(a: seq<User>, b: seq<User>, c: seq<User>, c1: string, c2: string)
    requires c1 != "" && c2 != "" && c1 != c2
    ensures var d := Directory([Success(UsersPage(a, Some(c1))), Success(UsersPage(b, Some(c2))),
                               Success(UsersPage(c, None))]);
      WellFormed(d) && Drain(d) == Success(a + b + c) && DrainCursors(d) == [None, Some(c1), Some(c2)]
  {
    var p0, p1, p2 := UsersPage(a, Some(c1)), UsersPage(b, Some(c2)), UsersPage(c, None);
    var d := Directory([Success(p0), Success(p1), Success(p2)]);
    assert d.pages[0] == Success(p0) && d.pages[1] == Success(p1) && d.pages[2] == Success(p2);
    assert WellFormed(d);
    assert DrainFrom(d, 2) == Success(c);
    assert DrainFrom(d, 1) == Success(b + c);
    assert DrainFrom(d, 0) == Success(a + (b + c));
    assert a + (b + c) == a + b + c;
    var cs := DrainCursors(d);
    assert cs[0] == None && cs[1] == Some(c1) && cs[2] == Some(c2);
  }
}
