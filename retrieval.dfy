/** The documentation tools of `src/docs_doctor/package_expert/tools.py`.
    The embedding model and the `site_pages` store are oracles; what the
    tools do with their answers is modelled exactly. */
module Retrieval {
  import opened Common
  import opened Text

  /** One row of `site_pages`, with the columns the tools read. */
  datatype DocRow = DocRow(title: string, content: string, url: string, chunkNumber: int)

  /** The three store queries the tools issue. `MatchSitePages` is the
      `match_site_pages` procedure; the other two are table selects filtered
      on `metadata->>source`, the last also on the URL and ordered by
      `chunk_number` by the store. */
  datatype StoreQuery =
    | MatchSitePages(queryEmbedding: seq<real>, matchCount: nat, source: string)
    | PageUrls(source: string)
    | PageChunks(url: string, source: string)

  /** The store's answer to a query: rows, or an exception's message. */
  type Store = StoreQuery -> Result<seq<DocRow>>

  /** The embedding model: a vector, or an exception's message. */
  type Embedder = string -> Result<seq<real>>

  const EmbeddingSize: nat := 1536

  /** `get_embedding`: the model's vector, or on any error a zero vector of
      1536 entries. */
  function GetEmbedding(response: Result<seq<real>>): (r: seq<real>)
    ensures response.Success? ==> r == response.value
    ensures response.Failure? ==> |r| == EmbeddingSize && forall i :: 0 <= i < |r| ==> r[i] == 0.0
  {
    match response
    case Success(v) => v
    case Failure(_) => seq(EmbeddingSize, _ => 0.0)
  }

  const NoDocumentation := "No relevant documentation found."
  const ChunkSeparator := "\n\n---\n\n"
  const RetrievalErrorPrefix := "Error retrieving documentation: "

  /** One retrieved row, rendered as a Markdown section. */
  function Chunk(row: DocRow): string {
    "\n# " + row.title + "\n\n" + row.content + "\n"
  }

  /** The rendered rows, in row order. */
  function Chunks(rows: seq<DocRow>): (r: seq<string>)
    ensures |r| == |rows| && forall i :: 0 <= i < |rows| ==> r[i] == Chunk(rows[i])
  {
    seq(|rows|, i requires 0 <= i < |rows| => Chunk(rows[i]))
  }

  /** What `retrieve_relevant_documentation` returns for the store's answer. */
  function RetrievalAnswer(matches: Result<seq<DocRow>>): (r: string)
    ensures matches.Failure? ==> r == RetrievalErrorPrefix + matches.message
    ensures matches == Success([]) ==> r == NoDocumentation
    ensures matches.Success? && matches.value != [] ==> Chunk(matches.value[0]) <= r
    ensures matches.Success? && |matches.value| == 1 ==> r == Chunk(matches.value[0])
  {
    match matches
    case Failure(e) => RetrievalErrorPrefix + e
    case Success(rows) =>
      if rows == [] then NoDocumentation
      else
        JoinStartsWithFirst(Chunks(rows), ChunkSeparator);
        Join(Chunks(rows), ChunkSeparator)
  }

  /** One more matching row adds the separator and that row's section. */
  lemma RetrievalAnswerSnoc(rows: seq<DocRow>, row: DocRow)
    requires rows != []
    ensures RetrievalAnswer(Success(rows + [row])) == RetrievalAnswer(Success(rows)) + ChunkSeparator + Chunk(row)
  {
    assert Chunks(rows + [row]) == Chunks(rows) + [Chunk(row)];
    JoinSnoc(Chunks(rows), Chunk(row), ChunkSeparator);
  }

  /** The three outcomes can be told apart: rendered documentation starts
      with a newline, the sentinel with `N`, an error with `E`. */
  lemma RetrievalOutcomesDistinct(matches: Result<seq<DocRow>>)
    ensures var r := RetrievalAnswer(matches);
      && |r| > 0
      && (matches.Failure? <==> r[0] == 'E')
      && (matches == Success([]) <==> r[0] == 'N')
      && (matches.Success? && matches.value != [] <==> r[0] == '\n')
  {
    if matches.Success? && matches.value != [] {
      var r := RetrievalAnswer(matches);
      assert r[0] == Chunk(matches.value[0])[0];
    }
  }

  /** `retrieve_relevant_documentation`: embeds the query, asks the store for
      the five best matches of this package, and renders them; every error
      becomes a message and nothing is raised. */
  method RetrieveRelevantDocumentation(userQuery: string, packageName: string, embed: Embedder, store: Store) returns (r: string)
    ensures r == RetrievalAnswer(store(MatchSitePages(GetEmbedding(embed(userQuery)), 5, packageName)))
  {
    var queryEmbedding := GetEmbedding(embed(userQuery));
    var result := store(MatchSitePages(queryEmbedding, 5, packageName));
    if result.Failure? {
      return RetrievalErrorPrefix + result.message;
    }
    var rows := result.value;
    if rows == [] {
      return NoDocumentation;
    }
    var formattedChunks: seq<string> := [];
    for i := 0 to |rows|
      invariant |formattedChunks| == i
      invariant forall j :: 0 <= j < i ==> formattedChunks[j] == Chunk(rows[j])
    {
      formattedChunks := formattedChunks + [Chunk(rows[i])];
    }
    assert formattedChunks == Chunks(rows);
    r := Join(formattedChunks, ChunkSeparator);
  }

  /** The URLs appearing in `rows`. */
  function Urls(rows: seq<DocRow>): set<string> {
    set i | 0 <= i < |rows| :: rows[i].url
  }

  /** `list_documentation_pages`: the distinct URLs of the package's rows in
      ascending order; `[]` when there are none or the query fails. */
  function ListDocumentationPages(packageName: string, store: Store): (r: seq<string>)
    ensures StrictlySorted(r)
    ensures var result := store(PageUrls(packageName));
      forall u :: u in r <==> result.Success? && u in Urls(result.value)
  {
    match store(PageUrls(packageName))
    case Failure(_) => []
    case Success(rows) => if rows == [] then [] else SortedUrls(rows)
  }

  /** `sorted(set(doc['url'] for doc in rows))`. */
  function SortedUrls(rows: seq<DocRow>): (r: seq<string>)
    ensures StrictlySorted(r)
    ensures forall u :: u in r <==> u in Urls(rows)
  {
    var urls := seq(|rows|, i requires 0 <= i < |rows| => rows[i].url);
    assert forall u :: u in urls <==> u in Urls(rows) by {
      forall u | u in urls ensures u in Urls(rows) {
        var i :| 0 <= i < |urls| && urls[i] == u;
      }
      forall i | 0 <= i < |rows| ensures rows[i].url in urls {
        assert urls[i] == rows[i].url;
      }
    }
    SortedDistinct(urls)
  }

  /** The same URL set in any order and multiplicity lists the same pages. */
  lemma PageListDependsOnlyOnUrls(a: seq<DocRow>, b: seq<DocRow>)
    requires Urls(a) == Urls(b)
    ensures SortedUrls(a) == SortedUrls(b)
  {
    StrictlySortedUnique(SortedUrls(a), SortedUrls(b));
  }

  const PageErrorPrefix := "Error retrieving page content: "
  const NoContentPrefix := "No content found for URL: "

  /** `title.split(' - ')[0]`. */
  function PageTitle(title: string): (r: string)
    ensures r <= title
    ensures |r| == |title| || OccursAt(title, " - ", |r|)
    ensures forall i: nat :: i < |r| ==> !OccursAt(title, " - ", i)
  {
    BeforeFirst(title, " - ")
  }

  /** The heading part followed by every chunk's content, in row order. */
  function PageParts(rows: seq<DocRow>): (r: seq<string>)
    requires rows != []
    ensures |r| == |rows| + 1
    ensures r[0] == "# " + PageTitle(rows[0].title) + "\n"
    ensures forall i :: 0 <= i < |rows| ==> r[i + 1] == rows[i].content
  {
    ["# " + PageTitle(rows[0].title) + "\n"] + seq(|rows|, i requires 0 <= i < |rows| => rows[i].content)
  }

  /** What `get_page_content` returns for the store's answer. */
  function PageText(url: string, chunks: Result<seq<DocRow>>): (r: string)
    ensures chunks.Failure? ==> r == PageErrorPrefix + chunks.message
    ensures chunks == Success([]) ==> r == NoContentPrefix + url
    ensures chunks.Success? && chunks.value != [] ==> "# " + PageTitle(chunks.value[0].title) + "\n" <= r
  {
    match chunks
    case Failure(e) => PageErrorPrefix + e
    case Success(rows) =>
      if rows == [] then NoContentPrefix + url
      else
        JoinStartsWithFirst(PageParts(rows), "\n\n");
        Join(PageParts(rows), "\n\n")
  }

  /** One more chunk adds a blank line and its content. */
  lemma PageTextSnoc(url: string, rows: seq<DocRow>, row: DocRow)
    requires rows != []
    ensures PageText(url, Success(rows + [row])) == PageText(url, Success(rows)) + "\n\n" + row.content
  {
    assert PageParts(rows + [row]) == PageParts(rows) + [row.content];
    JoinSnoc(PageParts(rows), row.content, "\n\n");
  }

  /** A page of one chunk is its heading, a blank line and the content. */
  lemma SingleChunkPage(url: string, row: DocRow)
    ensures PageText(url, Success([row])) == "# " + PageTitle(row.title) + "\n" + "\n\n" + row.content
  {
    assert PageParts([row]) == ["# " + PageTitle(row.title) + "\n"] + [row.content];
    JoinSnoc(["# " + PageTitle(row.title) + "\n"], row.content, "\n\n");
  }

  /** `get_page_content`: the chunks of one page of this package, joined
      under the page's title; every error becomes a message. */
  method GetPageContent(url: string, packageName: string, store: Store) returns (r: string)
    ensures r == PageText(url, store(PageChunks(url, packageName)))
  {
    var result := store(PageChunks(url, packageName));
    if result.Failure? {
      return PageErrorPrefix + result.message;
    }
    var rows := result.value;
    if rows == [] {
      return NoContentPrefix + url;
    }
    var pageTitle := PageTitle(rows[0].title);
    var formattedContent := ["# " + pageTitle + "\n"];
    for i := 0 to |rows|
      invariant |formattedContent| == i + 1
      invariant formattedContent[0] == "# " + pageTitle + "\n"
      invariant forall j :: 0 <= j < i ==> formattedContent[j + 1] == rows[j].content
    {
      formattedContent := formattedContent + [rows[i].content];
    }
    assert formattedContent == PageParts(rows);
    r := Join(formattedContent, "\n\n");
  }
}
