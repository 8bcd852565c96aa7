/** Search results as the search collaborator returns them, and their text rendering. */
module Search {
  import opened Text

  /** One hit of the search collaborator: `{title, link, snippet}`. */
  datatype SearchResult = SearchResult(title: string, link: string, snippet: string)

  /** A string literal as Python's `repr` prints it when no escaping is needed. */
  function Quote(s: string): string {
    "'" + s + "'"
  }

  /** `repr` of one result dictionary, keys in the collaborator's order. */
  function Show(r: SearchResult): string {
    "{'title': " + Quote(r.title) + ", 'link': " + Quote(r.link) + ", 'snippet': " + Quote(r.snippet) + "}"
  }

  /** `repr` of a list of result dictionaries. */
  function ShowList(rs: seq<SearchResult>): string {
    "[" + Join(", ", seq(|rs|, i requires 0 <= i < |rs| => Show(rs[i]))) + "]"
  }

  /** The `link` field of every result, in order. */
  function Links(rs: seq<SearchResult>): (r: seq<string>)
    ensures |r| == |rs|
    ensures forall i :: 0 <= i < |rs| ==> r[i] == rs[i].link
  {
    seq(|rs|, i requires 0 <= i < |rs| => rs[i].link)
  }
}
