/** The provider clients (clients/__init__.py) and the adapter contract they
    share (clients/base_client.py, clients/gemini_client.py,
    clients/openai_client.py). The SDK calls are not modelled: a streaming
    call is a parameter that yields the chunks delivered, or None when the
    SDK raised. */
module Clients {
  import opened Wrappers
  import opened Dicts
  import opened Config
  import opened Formatters
  import opened ChatModels
  import Streams

  datatype ModelInfo = ModelInfo(name: string, description: string)

  datatype ProviderKind = GeminiKind | OpenAIKind

  /** A registered client adapter, known by the SDK it wraps. */
  datatype Client = Client(kind: ProviderKind)
  {
    /** `available_models`: the fixed, numbered table of each adapter. */
    function AvailableModels(): (models: Dict<ModelInfo>)
      ensures models != []
    {
      match kind
      case GeminiKind => [
        ("1", ModelInfo("gemini-2.0-flash", "Fast & efficient")),
        ("2", ModelInfo("gemini-1.5-flash", "Balanced performance")),
        ("3", ModelInfo("gemini-1.5-pro", "Most capable")),
        ("4", ModelInfo("gemini-2.0-flash-exp", "Experimental"))]
      case OpenAIKind => [
        ("1", ModelInfo("gpt-4o", "Latest GPT-4 model")),
        ("2", ModelInfo("gpt-4o-mini", "Fast & cost-effective")),
        ("3", ModelInfo("gpt-4-turbo", "Previous generation")),
        ("4", ModelInfo("gpt-3.5-turbo", "Legacy model"))]
    }
  }

  /** Both tables number their four models "1" to "4", in that order, and
      open with the provider's default model. */
  lemma ModelTablesNumbered(client: Client)
    ensures Keys(client.AvailableModels()) == ["1", "2", "3", "4"]
    ensures client.kind == GeminiKind ==> client.AvailableModels()[0].1.name == "gemini-2.0-flash"
    ensures client.kind == OpenAIKind ==> client.AvailableModels()[0].1.name == "gpt-4o"
  {
  }

  /** The provider-shaped message list handed to `stream_response`: plain
      contents for Gemini, role/content records for OpenAI. */
  datatype Request = GeminiContents(contents: seq<string>) | OpenAIMessages(messages: seq<RoleContent>)

  /** A streaming call with a request and a model name: the chunks it
      delivered, or None when the SDK raised, on opening or mid-stream. */
  type Network = (Request, string) -> Option<seq<Chunk>>

  /** The answer of `stream_response` to a call's outcome. */
  function Reply(outcome: Option<seq<Chunk>>): (r: Option<string>)
    ensures r.None? <==> outcome.None?
    ensures r.Some? ==> r.value == Concat(outcome.value)
  {
    match outcome
    case None => None
    case Some(stream) => Some(Concat(stream))
  }

  /** `stream_response` of either adapter: the streamed text, rendered in
      the adapter's style, or None when the call raised. */
  method StreamResponse(client: Client, messages: Request, model: string, useMarkdown: bool, network: Network)
    returns (r: Option<string>)
    ensures network(messages, model).None? ==> r.None?
    ensures network(messages, model).Some? ==> r == Some(Concat(network(messages, model).value))
  {
    var outcome := network(messages, model);
    match outcome {
      case None =>
        r := None;
      case Some(chunks) =>
        var text;
        if client.kind == GeminiKind {
          text := Streams.HandleGeminiStream(chunks, useMarkdown);
        } else {
          text := Streams.HandleOpenAIStream(chunks, useMarkdown);
        }
        r := Some(text);
    }
  }

  const GeminiName := "gemini"
  const OpenAIName := "openai"
  const NoProvidersError := "No AI providers configured!"

  /** The registry `setup_clients` builds from a dict: Gemini first, then
      OpenAI, each only when its key is set and its client could be built. */
  function Registered(clients: Dict<Client>, settings: Settings, geminiBuilds: bool, openaiBuilds: bool): Dict<Client>
  {
    var withGemini :=
      if IsSet(settings.geminiApiKey) && geminiBuilds then Put(clients, GeminiName, Client(GeminiKind)) else clients;
    if IsSet(settings.openaiApiKey) && openaiBuilds then Put(withGemini, OpenAIName, Client(OpenAIKind)) else withGemini
  }

  /** Starting from the empty dict of `__init__`: "gemini" is registered
      exactly when its key is set and its client builds, the same holds for
      "openai", Gemini comes first, and one failing does not stop the other. */
  lemma RegisteredFromEmpty(settings: Settings, geminiBuilds: bool, openaiBuilds: bool)
    ensures Keys(Registered([], settings, geminiBuilds, openaiBuilds)) ==
      (if IsSet(settings.geminiApiKey) && geminiBuilds then [GeminiName] else []) +
      (if IsSet(settings.openaiApiKey) && openaiBuilds then [OpenAIName] else [])
  {
    var g := if IsSet(settings.geminiApiKey) && geminiBuilds then Put([], GeminiName, Client(GeminiKind)) else [];
    PutKeys([], GeminiName, Client(GeminiKind));
    PutKeys(g, OpenAIName, Client(OpenAIKind));
  }

  /** Without any API key nothing can be registered, so the settings check
      and the registry refuse the same configurations. */
  lemma NoKeysNoClients(settings: Settings, geminiBuilds: bool, openaiBuilds: bool)
    requires ValidateApiKeys(settings).Fail?
    ensures Registered([], settings, geminiBuilds, openaiBuilds) == []
  {
  }

  class ClientManager {
    const settings: Settings
    var clients: Dict<Client>

    /** The first half of `ClientManager.__init__`, which goes on to call
        `setup_clients` at once. */
    constructor (settings: Settings)
      ensures this.settings == settings && clients == []
    {
      this.settings := settings;
      clients := [];
    }

    /** `setup_clients`: whether each SDK client could be built is passed
        in. It fails with the ValueError's message exactly when no client
        ends up registered. */
    method SetupClients(geminiBuilds: bool, openaiBuilds: bool) returns (outcome: Outcome<string>)
      modifies this
      ensures clients == Registered(old(clients), settings, geminiBuilds, openaiBuilds)
      ensures UniqueKeys(old(clients)) ==> UniqueKeys(clients)
      ensures outcome.Fail? <==> clients == []
      ensures outcome.Fail? ==> outcome.error == NoProvidersError
    {
      if IsSet(settings.geminiApiKey) {
        if geminiBuilds {
          if UniqueKeys(clients) {
            PutKeepsUniqueKeys(clients, GeminiName, Client(GeminiKind));
          }
          clients := Put(clients, GeminiName, Client(GeminiKind));
        }
      }
      if IsSet(settings.openaiApiKey) {
        if openaiBuilds {
          if UniqueKeys(clients) {
            PutKeepsUniqueKeys(clients, OpenAIName, Client(OpenAIKind));
          }
          clients := Put(clients, OpenAIName, Client(OpenAIKind));
        }
      }
      if clients == [] {
        outcome := Fail(NoProvidersError);
      } else {
        outcome := Pass;
      }
    }

    /** `get_available_providers`: the registered names numbered from "1"
        in insertion order. */
    function GetAvailableProviders(): (providers: Dict<string>)
      reads this
      ensures |providers| == |clients|
      ensures forall i :: 0 <= i < |clients| ==> Get(providers, PyText.NatToString(i + 1)) == Some(clients[i].0)
    {
      var names := Keys(clients);
      forall i | 0 <= i < |clients| ensures Get(Enumerate(names), PyText.NatToString(i + 1)) == Some(clients[i].0) {
        EnumerateSelects(names, i);
      }
      Enumerate(names)
    }

    /** `get_client`: the client registered under the name, or None. */
    function GetClient(provider: string): (client: Option<Client>)
      reads this
      ensures client.Some? <==> provider in Keys(clients)
      ensures client.Some? ==> (provider, client.value) in clients
    {
      var client := Get(clients, provider);
      if client.None? then None
      else
        GetStored(clients, provider);
        client
    }
  }
}
