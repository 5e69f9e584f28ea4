/** The records exchanged between the verification client and its callers. */
module Types {
  import opened Wrappers

  /** Ranked category of a cited source: academic > official > news > blog > unknown. */
  datatype Credibility = Academic | Official | News | Blog | Unknown {

    /** The lower-case spelling the records carry. */
    function Name(): string {
      match this
      case Academic => "academic"
      case Official => "official"
      case News => "news"
      case Blog => "blog"
      case Unknown => "unknown"
    }
  }

  /**
   * One cited reference as gathered by the crawler. An empty `content`
   * stands for both a missing and an empty fetched text (both are falsy
   * in the source), and `error` is the optional fetch error.
   */
  datatype Source = Source(
    url: string,
    title: string,
    content: string,
    credibility: Credibility,
    error: Option<string>)

  /** What one paragraph verification is asked about. */
  datatype Input = Input(paragraphText: string, paragraphLinks: seq<string>, sources: seq<Source>)

  /** The three verdicts the model may give. */
  datatype Confidence = High | Medium | Low {

    /** The JSON spelling of the verdict. */
    function Text(): string {
      match this
      case High => "high"
      case Medium => "medium"
      case Low => "low"
    }
  }

  /** The structured verdict handed back to callers. */
  datatype Output = Output(confidence: Confidence, summaryOfSources: string, reasoning: string)
}
