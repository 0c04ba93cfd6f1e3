/**
 * The article event listener: after an article is created, updated or
 * deleted, it asks the prerender service to render or delete the article's
 * page and to re-render the home page and the article's category page.
 *
 * The prerender client is a foreign service: whether each call throws is an
 * input. The listener catches every exception, so a failing call ends the
 * trace of calls it made.
 */
module ArticleEvents {
  import opened Common

  datatype ArticleSavedEvent = ArticleSavedEvent(articleId: Option<int>, operationType: Option<string>,
                                                 viewStatus: Option<bool>, sortId: Option<int>)

  /** The prerender calls. */
  datatype PrerenderCall =
    | RenderArticle(articleId: Option<int>)
    | DeleteArticle(articleId: Option<int>)
    | RenderHomePage
    | RenderCategoryPage(sortId: int)

  /** The calls the handler means to make, in order. */
  function PlannedCalls(e: ArticleSavedEvent): seq<PrerenderCall>
  {
    var category := if e.sortId.Some? then [RenderCategoryPage(e.sortId.value)] else [];
    if e.operationType == Some("CREATE") || e.operationType == Some("UPDATE") then
      if e.viewStatus == Some(true) then [RenderArticle(e.articleId), RenderHomePage] + category
      else [DeleteArticle(e.articleId), RenderHomePage] + category
    else if e.operationType == Some("DELETE") then [DeleteArticle(e.articleId), RenderHomePage] + category
    else []
  }

  /**
   * What the planned calls say: a visible created or updated article is
   * rendered, otherwise a saved or deleted article's page is deleted; the
   * home page comes second; the category page comes last, iff there is a
   * sort id; any other (or a null) operation makes no call.
   */
  lemma PlannedCallsShape(e: ArticleSavedEvent)
    ensures var p := PlannedCalls(e);
      var known := e.operationType in {Some("CREATE"), Some("UPDATE"), Some("DELETE")};
      && (!known ==> p == [])
      && (known ==>
            && |p| == (if e.sortId.Some? then 3 else 2) && p[1] == RenderHomePage
            && (p[0] == RenderArticle(e.articleId) <==> e.operationType != Some("DELETE") && e.viewStatus == Some(true))
            && (p[0] != RenderArticle(e.articleId) ==> p[0] == DeleteArticle(e.articleId))
            && (e.sortId.Some? ==> p[2] == RenderCategoryPage(e.sortId.value)))
  {
  }

  /** Issue `calls` in order from position `i`; a call that throws is made and ends the run. */
  function Issue(calls: seq<PrerenderCall>, throws: seq<bool>, i: nat): seq<PrerenderCall>
    requires i <= |calls|
    decreases |calls| - i
  {
    if i == |calls| then []
    else if i < |throws| && throws[i] then [calls[i]]
    else [calls[i]] + Issue(calls, throws, i + 1)
  }

  /**
   * The calls made from position `i` are the planned ones up to and
   * including the first that throws, or all of them when none throws.
   */
  lemma {:induction false} IssueSpec(calls: seq<PrerenderCall>, throws: seq<bool>, i: nat)
    requires i <= |calls|
    ensures var t := Issue(calls, throws, i);
      && i + |t| <= |calls| && t == calls[i..i + |t|]
      && (forall k :: i <= k < i + |t| - 1 ==> !(k < |throws| && throws[k]))
      && (i + |t| < |calls| ==> i + |t| - 1 < |throws| && throws[i + |t| - 1] && |t| >= 1)
      && ((forall k :: i <= k < |calls| ==> !(k < |throws| && throws[k])) ==> t == calls[i..])
    decreases |calls| - i
  {
    if i < |calls| && !(i < |throws| && throws[i]) {
      IssueSpec(calls, throws, i + 1);
    }
  }

  /** handleArticleSavedEvent: the trace of prerender calls made. */
  function HandleArticleSavedEvent(e: ArticleSavedEvent, throws: seq<bool>): seq<PrerenderCall>
  {
    Issue(PlannedCalls(e), throws, 0)
  }

  /** The trace is always a prefix of the plan, and the whole plan when no call throws. */
  lemma HandlerTraceIsPrefix(e: ArticleSavedEvent, throws: seq<bool>)
    ensures HandleArticleSavedEvent(e, throws) <= PlannedCalls(e)
    ensures (forall k :: 0 <= k < |throws| ==> !throws[k]) ==> HandleArticleSavedEvent(e, throws) == PlannedCalls(e)
  {
    IssueSpec(PlannedCalls(e), throws, 0);
    assert PlannedCalls(e)[0..] == PlannedCalls(e);
  }
}
