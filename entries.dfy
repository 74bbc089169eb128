/** The entries page (src/pages/entries.tsx): a search form turned into a Drive filter,
    and a result list that is replaced by a fresh search and extended by scrolling. */
module Entries {
  import opened Wrappers
  import Seqs
  import Drive

  datatype Method = ByTitle | ByContent
  datatype Order = Ascending | Descending

  /** One entry of the filter's `matches`; `nameNot` is the excluded file name. */
  datatype Match = Match(query: Option<string>, starred: Option<bool>, mimeType: string, nameNot: string)
  datatype FilterConfig = FilterConfig(matches: seq<Match>, order: Order, pageToken: string)

  /** A file of a search reply, and a page of such files. */
  datatype FoundFile = FoundFile(name: string, description: string, starred: bool)
  datatype ResultPage = ResultPage(files: seq<FoundFile>, nextPageToken: Option<string>)

  /** A row of the entries table: the title is the folder's description, the date its name. */
  datatype Row = Row(title: string, date: string, starred: bool)

  /** The three values of the "Starred" select. */
  predicate IsStarredChoice(starred: string) {
    starred == "undefined" || starred == "true" || starred == "false"
  }

  /** `starred === 'undefined' ? undefined : JSON.parse(starred)` on the select's values. */
  function StarredConstraint(starred: string): (r: Option<bool>)
    requires IsStarredChoice(starred)
    ensures r.None? <==> starred == "undefined"
    ensures r.Some? ==> (r.value <==> starred == "true")
  {
    if starred == "undefined" then None else Some(starred == "true")
  }

  /** The filter `search` sends. */
  function Filter(query: string, searchBy: Method, order: Order, starred: string, pageToken: string): (c: FilterConfig)
    requires IsStarredChoice(starred)
    ensures |c.matches| == 1 && c.order == order && c.pageToken == pageToken
    ensures c.matches[0].query == (if query == "" then None else Some(query))
    ensures c.matches[0].starred == StarredConstraint(starred)
  {
    FilterConfig(
      [Match(if query == "" then None else Some(query), StarredConstraint(starred),
             if searchBy == ByTitle then Drive.FolderMimeType else "text/html",
             if searchBy == ByTitle then Drive.SearchedName else "template.html")],
      order, pageToken)
  }

  /** Whether a Drive file with this name and type passes a match's type and name tests. */
  predicate Admits(m: Match, name: string, mimeType: string) {
    mimeType == m.mimeType && name != m.nameNot
  }

  /** A title search lists only folders and never the app's root folder; a content
      search lists only HTML files and never the template. */
  lemma SearchScope(query: string, searchBy: Method, order: Order, starred: string, pageToken: string,
                    name: string, mimeType: string)
    requires IsStarredChoice(starred)
    ensures var m := Filter(query, searchBy, order, starred, pageToken).matches[0];
      Admits(m, name, mimeType) <==>
        if searchBy == ByTitle then mimeType == Drive.FolderMimeType && name != Drive.SearchedName
        else mimeType == "text/html" && name != "template.html"
  {
  }

  function ToRows(files: seq<FoundFile>): (rows: seq<Row>)
    ensures |rows| == |files|
    ensures forall i :: 0 <= i < |files| ==>
              rows[i].date == files[i].name && rows[i].title == files[i].description &&
              rows[i].starred == files[i].starred
  {
    seq(|files|, i requires 0 <= i < |files| => Row(files[i].description, files[i].name, files[i].starred))
  }

  /** The table rows and cursor after a search: a failed search changes nothing; otherwise
      the page's rows replace or (when `concat`) follow the old ones, and the cursor
      becomes the page's token or empty. */
  function AfterSearch(rows: seq<Row>, cursor: string, concat: bool, reply: Option<ResultPage>): (r: (seq<Row>, string))
    ensures reply.None? ==> r == (rows, cursor)
    ensures reply.Some? ==> r.1 == reply.value.nextPageToken.GetOr("")
    ensures reply.Some? && concat ==> |rows| <= |r.0| && r.0[..|rows|] == rows && r.0[|rows|..] == ToRows(reply.value.files)
    ensures reply.Some? && !concat ==> r.0 == ToRows(reply.value.files)
  {
    match reply
    case None => (rows, cursor)
    case Some(page) =>
      (if concat then rows + ToRows(page.files) else ToRows(page.files), page.nextPageToken.GetOr(""))
  }

  /** The rows a list of pages contributes, in page order. */
  function PageRows(pages: seq<ResultPage>): (rows: seq<seq<Row>>)
    ensures |rows| == |pages|
  {
    seq(|pages|, i requires 0 <= i < |pages| => ToRows(pages[i].files))
  }

  /** Scrolling: one `search(true)` per page, each succeeding. */
  function Scroll(rows: seq<Row>, cursor: string, pages: seq<ResultPage>): (seq<Row>, string)
    decreases |pages|
  {
    if pages == [] then (rows, cursor)
    else
      var next := AfterSearch(rows, cursor, true, Some(pages[0]));
      Scroll(next.0, next.1, pages[1..])
  }

  /** Scrolling through pages appends every page's rows in order, and leaves the cursor
      of the last page. */
  lemma {:induction false} ScrollAccumulates(rows: seq<Row>, cursor: string, pages: seq<ResultPage>)
    ensures Scroll(rows, cursor, pages).0 == rows + Seqs.Flatten(PageRows(pages))
    ensures pages != [] ==> Scroll(rows, cursor, pages).1 == pages[|pages| - 1].nextPageToken.GetOr("")
    decreases |pages|
  {
    if pages != [] {
      var next := AfterSearch(rows, cursor, true, Some(pages[0]));
      ScrollAccumulates(next.0, next.1, pages[1..]);
      assert PageRows(pages)[1..] == PageRows(pages[1..]);
      assert next.0 == rows + ToRows(pages[0].files);
      if pages[1..] == [] {
        assert pages[|pages| - 1] == pages[0];
      } else {
        assert pages[1..][|pages[1..]| - 1] == pages[|pages| - 1];
      }
    }
  }

  /** The page's state: the search form and the result table with its cursor. */
  class EntriesPage {
    var query: string
    var searchBy: Method
    var order: Order
    var starred: string
    var rows: seq<Row>
    var nextPageToken: string

    /** The page as first rendered. */
    constructor ()
      ensures query == "" && searchBy == ByTitle && order == Descending && starred == "undefined"
      ensures rows == [] && nextPageToken == ""
    {
      query, searchBy, order, starred := "", ByTitle, Descending, "undefined";
      rows, nextPageToken := [], "";
    }

    predicate Valid()
      reads this
    {
      IsStarredChoice(starred)
    }

    /** Whether the infinite scroll offers another page. */
    function HasMore(): (more: bool)
      reads this
      ensures more <==> nextPageToken != ""
    {
      nextPageToken != ""
    }

    /** `search(concat)`: every search, a fresh one included, sends the current cursor. */
    method Search(concat: bool, reply: Option<ResultPage>) returns (sent: FilterConfig)
      requires Valid()
      modifies this
      ensures Valid()
      ensures sent == Filter(query, searchBy, order, starred, old(nextPageToken))
      ensures (rows, nextPageToken) == AfterSearch(old(rows), old(nextPageToken), concat, reply)
      ensures query == old(query) && searchBy == old(searchBy) && order == old(order) && starred == old(starred)
    {
      sent := Filter(query, searchBy, order, starred, nextPageToken);
      if reply.None? {
        return;
      }
      var added := ToRows(reply.value.files);
      rows := if concat then rows + added else added;
      nextPageToken := reply.value.nextPageToken.GetOr("");
    }

    /** The mount effect: without a signed-in user the page navigates to `/about` and
        searches nothing; otherwise it runs a fresh search. */
    method Mount(email: string, reply: Option<ResultPage>) returns (sent: Option<FilterConfig>, navigate: Option<string>)
      requires Valid()
      modifies this
      ensures Valid()
      ensures email == "" ==> navigate == Some("/about") && sent.None? && unchanged(this)
      ensures email != "" ==>
                navigate.None? && sent == Some(Filter(query, searchBy, order, starred, old(nextPageToken))) &&
                (rows, nextPageToken) == AfterSearch(old(rows), old(nextPageToken), false, reply)
    {
      if email == "" {
        return None, Some("/about");
      }
      var config := Search(false, reply);
      sent, navigate := Some(config), None;
    }
  }
}
