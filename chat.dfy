/** The main-menu coordinator (handlers/chat_handler.py): classifies a menu
    command and delegates to the provider manager and the session. The
    answer typed at a selection prompt is passed in; what `config` displays
    is returned. */
module Chat {
  import opened Wrappers
  import opened PyText
  import opened Config
  import opened Clients
  import opened Sessions
  import opened Providers

  datatype MenuCommand = QuitApp | StartChat | PickModel | PickProvider | ShowConfig | ShowHelp | Unknown | NoInput

  /** The menu command an input names, after strip and lower-case. */
  function ClassifyMenuInput(userInput: string): (cmd: MenuCommand)
    ensures var s := Lower(Strip(userInput));
      (cmd == QuitApp <==> s == "quit") &&
      (cmd == StartChat <==> s == "startchat") &&
      (cmd == PickModel <==> s == "model") &&
      (cmd == PickProvider <==> s == "provider") &&
      (cmd == ShowConfig <==> s == "config") &&
      (cmd == ShowHelp <==> s == "help") &&
      (cmd == NoInput <==> s == "")
  {
    var s := Lower(Strip(userInput));
    if s == "quit" then QuitApp
    else if s == "startchat" then StartChat
    else if s == "model" then PickModel
    else if s == "provider" then PickProvider
    else if s == "config" then ShowConfig
    else if s == "help" then ShowHelp
    else if s != "" then Unknown
    else NoInput
  }

  /** What `show_config` is given to display. */
  datatype ConfigView = ConfigView(provider: string, model: string, useMarkdown: bool, historyLength: nat)

  class ChatHandler {
    const clientManager: ClientManager
    const settings: Settings
    const providerManager: ProviderManager
    const sessionManager: SessionManager

    ghost predicate Valid()
      reads this, clientManager, providerManager, sessionManager, sessionManager.history
    {
      providerManager.clientManager == clientManager &&
      providerManager.Valid() && sessionManager.Valid()
    }

    /** `__init__`, without the display-only collaborators. */
    constructor (clientManager: ClientManager, settings: Settings)
      requires clientManager.clients != [] && settings.maxHistoryLength >= 1
      ensures this.clientManager == clientManager && this.settings == settings
      ensures fresh(providerManager) && fresh(sessionManager) && fresh(sessionManager.history)
      ensures providerManager.currentProvider == Dicts.Keys(clientManager.clients)[0]
      ensures providerManager.currentModel == DefaultModel(clientManager.clients[0].1)
      ensures sessionManager.history.messages == [] && sessionManager.useMarkdown
      ensures Valid()
    {
      this.clientManager := clientManager;
      this.settings := settings;
      providerManager := new ProviderManager(clientManager);
      sessionManager := new SessionManager(settings);
    }

    /** `_get_ai_response`: one exchange with the current provider and
        model. */
    method GetAIResponse(userInput: string, network: Network) returns (response: string)
      requires Valid()
      modifies sessionManager.history
      ensures Valid()
      ensures var provider := providerManager.currentProvider;
        var client := clientManager.GetClient(provider);
        var reply := if client.Some? then
          Reply(network(old(sessionManager.BuildRequest(provider, userInput)), providerManager.currentModel))
          else None;
        (response, sessionManager.history.messages) ==
          Exchange(old(sessionManager.history.messages), client.Some?, reply, userInput, sessionManager.settings.maxHistoryLength)
    {
      response := sessionManager.GetAIResponse(
        clientManager, providerManager.currentProvider, providerManager.currentModel, userInput, network);
    }

    /** `process_user_input`: false only for 'quit'; 'model' and 'provider'
        run the matching prompt with the given answer; 'config' shows the
        current selection, the markdown flag and the number of messages in
        the history. Nothing else changes the state. */
    method ProcessUserInput(userInput: string, answer: string) returns (keepRunning: bool, shown: Option<ConfigView>)
      requires Valid()
      modifies providerManager
      ensures Valid()
      ensures var cmd := ClassifyMenuInput(userInput);
        var before := old(Selection(providerManager.currentProvider, providerManager.currentModel));
        var after := Selection(providerManager.currentProvider, providerManager.currentModel);
        (keepRunning <==> cmd != QuitApp) &&
        (cmd == PickModel ==> after == ModelChoice(clientManager.clients, before, answer).1) &&
        (cmd == PickProvider ==> after == ProviderChoice(clientManager.clients, before, answer).1) &&
        (cmd != PickModel && cmd != PickProvider ==> after == before) &&
        (shown.Some? <==> cmd == ShowConfig) &&
        (shown.Some? ==>
          shown.value == ConfigView(after.provider, after.model, sessionManager.useMarkdown, |sessionManager.history.messages|))
    {
      var cmd := ClassifyMenuInput(userInput);
      shown := None;
      if cmd == QuitApp {
        return false, None;
      } else if cmd == StartChat {
        return true, None;
      } else if cmd == PickModel {
        var _ := providerManager.ChangeModel(answer);
        return true, None;
      } else if cmd == PickProvider {
        var _ := providerManager.ChangeProvider(answer);
        return true, None;
      } else if cmd == ShowConfig {
        shown := Some(ConfigView(providerManager.currentProvider, providerManager.currentModel,
          sessionManager.useMarkdown, sessionManager.history.Length()));
        return true, shown;
      }
      return true, None;
    }
  }
}
