/** Where claim checking fetches its reference material from, and which
    keyword arguments each kind of source needs. */
module DataSources {

  datatype DataSource = Web | Mcp | Retriever

  /** The enum member's name, used in error messages. */
  function Name(d: DataSource): string {
    match d
    case Web => "WEB"
    case Mcp => "MCP"
    case Retriever => "RETRIEVER"
  }

  /** The keyword arguments a source needs, in the order they are checked.
      Every source needs at least one, and none is listed twice. */
  function RequiredArgs(d: DataSource): (r: seq<string>)
    ensures |r| > 0
    ensures forall i, j :: 0 <= i < j < |r| ==> r[i] != r[j]
  {
    match d
    case Web => ["urls"]
    case Mcp => ["params"]
    case Retriever => ["retriever_request", "query"]
  }

  /** The table itself: one entry per source. */
  lemma RequiredArgsTable()
    ensures RequiredArgs(Web) == ["urls"]
    ensures RequiredArgs(Mcp) == ["params"]
    ensures RequiredArgs(Retriever) == ["retriever_request", "query"]
  {
  }
}
