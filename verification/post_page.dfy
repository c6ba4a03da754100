/**
 * The single-post page: which view it shows, when the appreciation button
 * appears, and how the post body is cut into paragraphs.
 */
module PostPage {
  import opened Common
  import opened Text
  import Ledger
  import ArweaveQueries
  import ArweaveProvider

  /** `id || null`: the route's `:id` parameter, with a missing or empty one as `null`. */
  function RouteId(param: Option<string>): (id: Option<string>)
    ensures id.Some? <==> Present(param)
    ensures id.Some? ==> id == param
  {
    if Present(param) then param else None
  }

  /** Without an id in the route the post query is disabled; with one it is keyed by it. */
  lemma RouteIdDrivesQuery(param: Option<string>)
    ensures !Present(param) ==> !ArweaveQueries.PostQuery(RouteId(param)).enabled
    ensures Present(param) ==> ArweaveQueries.PostQuery(RouteId(param)).key == ArweaveQueries.PostKey(param.value)
  {
  }

  /** The three views of the page. */
  datatype PostView = LoadingView | NotFoundView | ArticleView(post: Ledger.BlogPost)

  /** Loading wins; then an error or a missing post gives the not-found view. */
  function ChooseView(isLoading: bool, isError: bool, data: Option<Ledger.BlogPost>): (v: PostView)
    ensures v == LoadingView <==> isLoading
    ensures v == NotFoundView <==> !isLoading && (isError || data.None?)
    ensures v.ArticleView? ==> data == Some(v.post)
  {
    if isLoading then LoadingView
    else if isError || data.None? then NotFoundView
    else ArticleView(data.value)
  }

  /** A settled query for a route id shows the post exactly when the id fetches and parses. */
  lemma SettledView(param: Option<string>, store: Ledger.Store)
    ensures var v := ChooseView(false, false, ArweaveQueries.PostQueryFn(RouteId(param), store));
      && (v.ArticleView? <==> Present(param) && Ledger.Readable(param.value, store))
      && (v.ArticleView? ==> v.post.id == param.value)
  {
  }

  /**
   * `address && address !== post.author`: the appreciation button shows for
   * a connected wallet, the same address the session would expose, unless
   * it is the author's own.
   */
  function ShowAppreciate(wallet: JsString, author: string): (show: bool)
    ensures show <==> ArweaveProvider.SessionAddress(wallet).Some? && ArweaveProvider.SessionAddress(wallet).value != author
    ensures wallet == Str(author) ==> !show
  {
    Truthy(wallet) && wallet.s != author
  }

  predicate HasText(p: string)
  {
    Trim(p) != []
  }

  /**
   * `content.split("\n")` with the blank lines skipped: every paragraph is
   * one untouched line of the body, in order, and holds some text.
   */
  function Paragraphs(content: string): (ps: seq<string>)
    ensures forall i :: 0 <= i < |ps| ==> '\n' !in ps[i] && !Blank(ps[i])
    ensures |ps| <= multiset(content)['\n'] + 1
    ensures Subsequence(ps, Split(content, '\n'))
  {
    Filter(Split(content, '\n'), HasText)
  }

  /** Every line with text is a paragraph as often as it occurs; the blank lines are dropped. */
  lemma ParagraphCounts(content: string)
    ensures forall x :: multiset(Paragraphs(content))[x] == if !Blank(x) then multiset(Split(content, '\n'))[x] else 0
  {
    FilterCounts(Split(content, '\n'), HasText);
  }

  /** A body renders no paragraph exactly when it is blank. */
  lemma NoParagraphsIffBlank(content: string)
    ensures Paragraphs(content) == [] <==> Blank(content)
  {
    BlankPieces(content, '\n');
  }

  /** A one-line body with text is a single paragraph, unchanged. */
  lemma SingleLine(content: string)
    requires '\n' !in content && !Blank(content)
    ensures Paragraphs(content) == [content]
  {
    SplitOfSeparatorFree(content, '\n');
    assert Split(content, '\n')[1..] == [];
  }
}
