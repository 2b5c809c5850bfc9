/** The `/analysis` handler: configuration check, Figma fetch, summary, streamed
    generation, and the PDF report, each failure ending the request with an error body. */
module Analysis {
  import opened JsonValue
  import opened FigmaSummary
  import opened Report

  /** The three values read from the environment at start-up (`os.getenv`). */
  datatype Config = Config(figmaToken: Option<string>, fileKey: Option<string>, geminiKey: Option<string>)

  /** `not value` is false: the variable is set and not empty. */
  predicate IsSet(value: Option<string>) {
    value.Some? && value.value != ""
  }

  predicate Configured(config: Config) {
    IsSet(config.figmaToken) && IsSet(config.fileKey) && IsSet(config.geminiKey)
  }

  /** What the Figma files endpoint answers: a status code and the decoded body. */
  datatype FigmaReply = FigmaReply(status: int, body: Json)

  /** The generation stream: the `text` of each chunk in arrival order (None when the
      chunk has none), then the message of the exception that ended it, if any. */
  datatype Stream = Stream(chunks: seq<Option<string>>, failure: Option<string>)

  /** The outbound calls the handler makes, in order. */
  datatype Call = FetchFigma | GenerateContent

  datatype Response = ErrorBody(message: string) | PdfBody(pages: seq<seq<Placement>>)

  const MISSING_ENV := "Missing env vars"
  const FETCH_FAILED := "failed to fetch figma"
  const GEMINI_ERROR := "Gemini API error: "
  const OK := 200

  function ChunkText(chunk: Option<string>): string {
    if chunk.Some? then chunk.value else ""
  }

  /** All chunk texts, in arrival order, one after another. */
  function Concat(chunks: seq<Option<string>>): string {
    if chunks == [] then "" else ChunkText(chunks[0]) + Concat(chunks[1..])
  }

  lemma {:induction false} ConcatSnoc(chunks: seq<Option<string>>, chunk: Option<string>)
    ensures Concat(chunks + [chunk]) == Concat(chunks) + ChunkText(chunk)
  {
    if chunks != [] {
      assert (chunks + [chunk])[1..] == chunks[1..] + [chunk];
      ConcatSnoc(chunks[1..], chunk);
    }
  }

  /** Stream chunks arriving one after another are glued in order into one text. */
  lemma {:induction false} ConcatAppend(a: seq<Option<string>>, b: seq<Option<string>>)
    ensures Concat(a + b) == Concat(a) + Concat(b)
  {
    if a != [] {
      assert (a + b)[0] == a[0] && (a + b)[1..] == a[1..] + b;
      ConcatAppend(a[1..], b);
      assert Concat(a + b) == ChunkText(a[0]) + (Concat(a[1..]) + Concat(b));
    } else {
      assert a + b == b;
    }
  }

  /** The chunks of the example stream "Hello ", "World", "!" make "Hello World!". */
  lemma HelloWorld()
    ensures Concat([Some("Hello "), Some("World"), Some("!")]) == "Hello World!"
    ensures Concat([None, Some("")]) == ""
  {
    assert [Some("Hello "), Some("World"), Some("!")][1..] == [Some("World"), Some("!")];
    assert [Some("World"), Some("!")][1..] == [Some("!")];
  }

  /** The stream loop: every chunk with a truthy text is appended, in order. */
  method Accumulate(chunks: seq<Option<string>>) returns (text: string)
    ensures text == Concat(chunks)
  {
    text := "";
    for i := 0 to |chunks|
      invariant text == Concat(chunks[..i])
    {
      assert chunks[..i + 1] == chunks[..i] + [chunks[i]];
      ConcatSnoc(chunks[..i], chunks[i]);
      if chunks[i].Some? && chunks[i].value != "" {
        text := text + chunks[i].value;
      }
    }
    assert chunks[..|chunks|] == chunks;
  }

  /** `analyze_figma`. The fetch reply and the generation are the upstream services'
      answers; `generate` receives the summary the prompt is built from. */
  method AnalyzeFigma(config: Config, reply: FigmaReply, generate: Summary -> Stream)
    returns (response: Response, calls: seq<Call>)
    requires reply.status == OK ==> WellShaped(reply.body)
    ensures !Configured(config) ==> response == ErrorBody(MISSING_ENV) && calls == []
    ensures Configured(config) && reply.status != OK ==>
              response == ErrorBody(FETCH_FAILED) && calls == [FetchFigma]
    ensures Configured(config) && reply.status == OK ==>
              var stream := generate(ExtractSummary(reply.body));
              && calls == [FetchFigma, GenerateContent]
              && response == if stream.failure.Some? then ErrorBody(GEMINI_ERROR + stream.failure.value)
                             else PdfBody(ReportPages(Concat(stream.chunks)))
    ensures response.PdfBody? ==> calls == [FetchFigma, GenerateContent]
  {
    calls := [];
    if !IsSet(config.figmaToken) || !IsSet(config.fileKey) || !IsSet(config.geminiKey) {
      return ErrorBody(MISSING_ENV), calls;
    }
    calls := calls + [FetchFigma];
    if reply.status != OK {
      return ErrorBody(FETCH_FAILED), calls;
    }
    var summary := ExtractSummary(reply.body);
    calls := calls + [GenerateContent];
    var stream := generate(summary);
    var analysisText := Accumulate(stream.chunks);
    if stream.failure.Some? {
      return ErrorBody(GEMINI_ERROR + stream.failure.value), calls;
    }
    var pdf := RenderReport(analysisText);
    response := PdfBody(pdf.Pages());
  }
}
