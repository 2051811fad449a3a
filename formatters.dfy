/** Token extraction and stream accumulation (utils/formatters.py). A chunk
    of either provider family is one datatype: Gemini chunks carry `text`,
    OpenAI chunks carry `choices[0].delta.content`. Only the text the
    formatters return is modelled; what they draw on the console is not. */
module Formatters {
  import opened Wrappers

  datatype Delta = Delta(content: Option<string>)

  datatype Choice = Choice(delta: Delta)

  /** A missing attribute and an attribute holding None are both None. */
  datatype Chunk = Chunk(text: Option<string>, choices: Option<seq<Choice>>)

  /** A Gemini-style chunk. */
  function TextChunk(text: string): Chunk {
    Chunk(Some(text), None)
  }

  /** An OpenAI-style chunk with a single choice. */
  function DeltaChunk(content: Option<string>): Chunk {
    Chunk(None, Some([Choice(Delta(content))]))
  }

  /** `hasattr(chunk, 'text') and chunk.text` */
  predicate CarriesText(chunk: Chunk) {
    chunk.text.Some? && chunk.text.value != ""
  }

  /** The first choice's delta content, when the list of choices is present
      and non-empty and that content is not None. */
  function FirstDeltaContent(chunk: Chunk): Option<string> {
    match chunk.choices
    case Some(cs) => if cs != [] then cs[0].delta.content else None
    case None => None
  }

  /** `extract_text_from_chunk`: a non-empty `text` wins over any choices;
      otherwise the first delta's content; otherwise the empty string. It
      never invents text the chunk does not carry. */
  function ExtractTextFromChunk(chunk: Chunk): (r: string)
    ensures CarriesText(chunk) ==> r == chunk.text.value
    ensures !CarriesText(chunk) && FirstDeltaContent(chunk).Some? ==> r == FirstDeltaContent(chunk).value
    ensures r != "" ==> CarriesText(chunk) || FirstDeltaContent(chunk) == Some(r)
    ensures !CarriesText(chunk) && FirstDeltaContent(chunk).None? ==> r == ""
  {
    if CarriesText(chunk) then chunk.text.value
    else match FirstDeltaContent(chunk)
      case Some(content) => content
      case None => ""
  }

  /** The extractor serves both families without being told which one
      produced the chunk. */
  lemma ExtractIsProviderAgnostic(text: string, content: string)
    requires text != ""
    ensures ExtractTextFromChunk(TextChunk(text)) == text
    ensures ExtractTextFromChunk(DeltaChunk(Some(content))) == content
    ensures ExtractTextFromChunk(DeltaChunk(None)) == ""
    ensures ExtractTextFromChunk(Chunk(Some(text), Some([Choice(Delta(Some(content)))]))) == text
  {
  }

  /** The text a stream carries: every chunk's extracted delta, in order. */
  function Concat(stream: seq<Chunk>): string
  {
    if stream == [] then ""
    else Concat(stream[..|stream| - 1]) + ExtractTextFromChunk(stream[|stream| - 1])
  }

  /** The non-empty deltas of a stream, in order. */
  function NonEmptyDeltas(stream: seq<Chunk>): seq<string>
  {
    if stream == [] then []
    else
      var d := ExtractTextFromChunk(stream[|stream| - 1]);
      NonEmptyDeltas(stream[..|stream| - 1]) + (if d != "" then [d] else [])
  }

  function Join(parts: seq<string>): string
  {
    if parts == [] then "" else Join(parts[..|parts| - 1]) + parts[|parts| - 1]
  }

  lemma {:induction false} JoinAppend(a: seq<string>, b: seq<string>)
    ensures Join(a + b) == Join(a) + Join(b)
  {
    if b != [] {
      assert (a + b)[..|a + b| - 1] == a + b[..|b| - 1];
      JoinAppend(a, b[..|b| - 1]);
    } else {
      assert a + b == a;
    }
  }

  /** Skipping the empty deltas, as both formatters do, loses nothing: the
      stream's text is the join of its non-empty deltas, each of which is
      non-empty. */
  lemma {:induction false} ConcatIsJoinOfNonEmptyDeltas(stream: seq<Chunk>)
    ensures Concat(stream) == Join(NonEmptyDeltas(stream))
    ensures forall d :: d in NonEmptyDeltas(stream) ==> d != ""
  {
    if stream != [] {
      var init := stream[..|stream| - 1];
      var d := ExtractTextFromChunk(stream[|stream| - 1]);
      ConcatIsJoinOfNonEmptyDeltas(init);
      JoinAppend(NonEmptyDeltas(init), if d != "" then [d] else []);
      if d != "" {
        assert Join([d]) == Join([]) + d;
      }
    }
  }

  /** Streams compose: the text of two streams in a row is the text of the
      first followed by the text of the second. */
  lemma {:induction false} ConcatAppend(a: seq<Chunk>, b: seq<Chunk>)
    ensures Concat(a + b) == Concat(a) + Concat(b)
  {
    if b != [] {
      assert (a + b)[..|a + b| - 1] == a + b[..|b| - 1];
      assert (a + b)[|a + b| - 1] == b[|b| - 1];
      ConcatAppend(a, b[..|b| - 1]);
    } else {
      assert a + b == a;
    }
  }

  /** A stream none of whose chunks carries text yields the empty string. */
  lemma {:induction false} SilentStreamIsEmpty(stream: seq<Chunk>)
    requires forall i :: 0 <= i < |stream| ==> ExtractTextFromChunk(stream[i]) == ""
    ensures Concat(stream) == ""
  {
    if stream != [] {
      SilentStreamIsEmpty(stream[..|stream| - 1]);
    }
  }

  /** A stream of "Hel" and "lo" carries "Hello". */
  lemma HelloStream()
    ensures Concat([TextChunk("Hel"), TextChunk("lo")]) == "Hello"
  {
    assert [TextChunk("Hel"), TextChunk("lo")][..1] == [TextChunk("Hel")];
  }

  /** `format_markdown_stream`: returns the stream's text. The text handed
      to the live markdown view and the returned text are the same after
      every chunk, so a failed markdown parse, which only changes what is
      shown, cannot change what is returned. `style` colours the fallback
      display only. */
  method FormatMarkdownStream(stream: seq<Chunk>, style: string) returns (fullResponse: string)
    ensures fullResponse == Concat(stream)
  {
    fullResponse := "";
    var accumulatedText := "";
    for i := 0 to |stream|
      invariant accumulatedText == fullResponse
      invariant fullResponse == Concat(stream[..i])
    {
      var textChunk := ExtractTextFromChunk(stream[i]);
      if textChunk != "" {
        fullResponse := fullResponse + textChunk;
        accumulatedText := accumulatedText + textChunk;
      }
      assert stream[..i + 1][..i] == stream[..i];
    }
    assert stream[..|stream|] == stream;
  }

  /** `format_plain_stream`: returns the same text as the markdown
      formatter, printing each delta as it arrives. */
  method FormatPlainStream(stream: seq<Chunk>, style: string) returns (fullResponse: string)
    ensures fullResponse == Concat(stream)
  {
    fullResponse := "";
    for i := 0 to |stream|
      invariant fullResponse == Concat(stream[..i])
    {
      var textChunk := ExtractTextFromChunk(stream[i]);
      if textChunk != "" {
        fullResponse := fullResponse + textChunk;
      }
      assert stream[..i + 1][..i] == stream[..i];
    }
    assert stream[..|stream|] == stream;
  }
}
