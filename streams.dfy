/** StreamHandler (handlers/stream_handler.py): picks the formatter from the
    markdown flag and the display style from the provider family. Its only
    state in the Python class is the console, which is not modelled. */
module Streams {
  import opened Formatters

  const GeminiStyle := "cyan"
  const OpenAIStyle := "green"

  /** `handle_stream`: markdown on selects the markdown formatter, off the
      plain one; either way the result is the stream's text, so neither the
      flag nor the style changes it. */
  method HandleStream(stream: seq<Chunk>, useMarkdown: bool := true, style: string := GeminiStyle)
    returns (text: string)
    ensures text == Concat(stream)
  {
    if useMarkdown {
      text := FormatMarkdownStream(stream, style);
    } else {
      text := FormatPlainStream(stream, style);
    }
  }

  /** `handle_gemini_stream`: `handle_stream` in cyan. */
  method HandleGeminiStream(stream: seq<Chunk>, useMarkdown: bool := true) returns (text: string)
    ensures text == Concat(stream)
  {
    text := HandleStream(stream, useMarkdown, GeminiStyle);
  }

  /** `handle_openai_stream`: `handle_stream` in green. */
  method HandleOpenAIStream(stream: seq<Chunk>, useMarkdown: bool := true) returns (text: string)
    ensures text == Concat(stream)
  {
    text := HandleStream(stream, useMarkdown, OpenAIStyle);
  }

  /** Rendering style does not alter the data path: the two formatters
      return the same text for the same stream. */
  method RenderStylesAgree(stream: seq<Chunk>) returns (markdown: string, plain: string)
    ensures markdown == plain == Concat(stream)
  {
    markdown := HandleStream(stream, true);
    plain := HandleStream(stream, false);
  }
}
