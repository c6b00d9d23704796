/**
 * The pagination controller of the post list: the `posts`, `nextPage` and
 * `loadingNextPage` state of the page and the `loadNextPage` handler that
 * fetches the next page. The asynchronous handler is split at its `await`s:
 * LoadNextPage runs the guard, raises the flag and issues the request; one
 * completion step per outcome (the fetch rejected, the body not JSON, a page
 * received) runs what follows it.
 */
module Pagination {
  import opened Wrappers
  import opened Posts

  /** `!nextPage` is false: the cursor is neither `null` nor the empty string. */
  predicate HasNextPage(nextPage: Option<string>)
  {
    nextPage.Some? && nextPage.value != ""
  }

  class Home {
    var posts: seq<Post>
    var nextPage: Option<string>
    var loadingNextPage: bool

    /** The raw posts received so far, initial page first, in the order they arrived. */
    ghost var received: seq<Post>
    /** A request was issued and its outcome has not been delivered yet. */
    ghost var inFlight: bool

    /**
     * The shown posts are exactly the normalisation of every raw post received,
     * in order; and a request can only be outstanding while the flag is up.
     */
    ghost predicate Valid()
      reads this
    {
      FormatAll(received) == Ok(posts) && (inFlight ==> loadingNextPage)
    }

    /** Neither flag nor request: the flag stays up with nothing left to lower it. */
    ghost predicate Stuck()
      reads this
    {
      loadingNextPage && !inFlight
    }

    /**
     * The page's initial state, from the props `getStaticProps` built out of
     * the raw first page `raw`.
     */
    constructor (props: PostPagination, ghost raw: seq<Post>)
      requires GetStaticProps(PostPagination(props.nextPage, raw)) == Ok(props)
      ensures Valid()
      ensures posts == props.results && nextPage == props.nextPage && !loadingNextPage
      ensures received == raw && !inFlight
    {
      posts := props.results;
      nextPage := props.nextPage;
      loadingNextPage := false;
      received := raw;
      inFlight := false;
      new;
      assert FormatAll(raw).value == props.results;
    }

    /**
     * The synchronous part of `loadNextPage`: returns without effect when there
     * is no next page or a load is under way; otherwise raises the flag and
     * requests the next page, whose URL it returns.
     */
    method LoadNextPage() returns (request: Option<string>)
      requires Valid()
      modifies this
      ensures Valid()
      ensures !HasNextPage(old(nextPage)) || old(loadingNextPage) ==> request == None && unchanged(this)
      ensures HasNextPage(old(nextPage)) && !old(loadingNextPage) ==> request == old(nextPage)
      ensures posts == old(posts) && nextPage == old(nextPage) && received == old(received)
      ensures loadingNextPage == (old(loadingNextPage) || request.Some?)
      ensures inFlight == (old(inFlight) || request.Some?)
    {
      if !HasNextPage(nextPage) || loadingNextPage {
        return None;
      }
      loadingNextPage := true;
      inFlight := true;
      request := nextPage;
    }

    /**
     * The request was rejected. The `await fetch(...)` stands before the
     * `try`, so the handler ends with the exception and the `finally` never
     * runs: the flag stays up and nothing else changes.
     */
    method FetchRejected()
      requires Valid() && inFlight
      modifies this
      ensures Valid() && Stuck()
      ensures posts == old(posts) && nextPage == old(nextPage) && received == old(received)
    {
      inFlight := false;
    }

    /**
     * The body is not JSON (or `results` is not a list): the `catch` logs a
     * diagnostic, the `finally` lowers the flag, and posts and cursor stay.
     * Returns whether the diagnostic was logged.
     */
    method ParseFailed() returns (logged: bool)
      requires Valid() && inFlight
      modifies this
      ensures Valid() && logged
      ensures !loadingNextPage && !inFlight
      ensures posts == old(posts) && nextPage == old(nextPage) && received == old(received)
    {
      logged := true;
      loadingNextPage := false;
      inFlight := false;
    }

    /**
     * A page `data` arrived. Its results are normalised in order; when every
     * one of them normalises, they are appended after the shown posts and the
     * cursor becomes the page's `next_page`; when one throws, the `catch` logs
     * a diagnostic and posts and cursor stay. The flag is lowered either way.
     */
    method PageReceived(data: PostPagination) returns (logged: bool)
      requires Valid() && inFlight
      modifies this
      ensures Valid()
      ensures !loadingNextPage && !inFlight
      ensures !logged <==> forall i :: 0 <= i < |data.results| ==> FormatPostData(data.results[i]).Ok?
      ensures !logged ==> nextPage == data.nextPage
      ensures !logged ==> |posts| == |old(posts)| + |data.results|
      ensures !logged ==> posts[..|old(posts)|] == old(posts)
      ensures !logged ==> forall i :: 0 <= i < |data.results| ==>
                            posts[|old(posts)| + i] == FormatPostData(data.results[i]).value
      ensures !logged ==> received == old(received) + data.results
      ensures logged ==> posts == old(posts) && nextPage == old(nextPage) && received == old(received)
    {
      var newPosts := FormatAll(data.results);
      if newPosts.Err? {
        logged := true;
      } else {
        FormatAllAppend(received, data.results);
        nextPage := data.nextPage;
        posts := posts + newPosts.value;
        received := received + data.results;
        logged := false;
      }
      loadingNextPage := false;
      inFlight := false;
    }
  }

  /**
   * Two clicks before the first load completes issue exactly one request:
   * the second finds the flag up and does nothing.
   */
  method DoubleClick(home: Home) returns (first: Option<string>, second: Option<string>)
    requires home.Valid() && !home.loadingNextPage
    modifies home
    ensures home.Valid()
    ensures first.Some? <==> HasNextPage(old(home.nextPage))
    ensures second == None
    ensures home.posts == old(home.posts) && home.nextPage == old(home.nextPage)
  {
    first := home.LoadNextPage();
    second := home.LoadNextPage();
  }

  /**
   * After a rejected request the flag is never lowered again: every later
   * click is a no-op, whatever the cursor.
   */
  method RejectedFetchBlocksLaterLoads(home: Home) returns (retry: Option<string>)
    requires home.Valid() && home.inFlight
    modifies home
    ensures home.Valid() && home.Stuck()
    ensures retry == None
    ensures home.posts == old(home.posts) && home.nextPage == old(home.nextPage)
  {
    home.FetchRejected();
    retry := home.LoadNextPage();
  }
}
