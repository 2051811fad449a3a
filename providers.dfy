/** Provider and model selection (handlers/provider_manager.py): two small
    state machines over the current provider and model. The answer the user
    types at each prompt is passed in. */
module Providers {
  import opened Wrappers
  import opened PyText
  import opened Dicts
  import opened Clients

  datatype Selection = Selection(provider: string, model: string)

  /** The model is one of those the client offers. */
  predicate OffersModel(client: Client, name: string) {
    exists i :: 0 <= i < |client.AvailableModels()| && client.AvailableModels()[i].1.name == name
  }

  /** The provider is registered and the model is one it offers. */
  predicate ValidSelection(clients: Dict<Client>, current: Selection) {
    Get(clients, current.provider).Some? && OffersModel(Get(clients, current.provider).value, current.model)
  }

  /** The first model of a client's table, which every switch of provider
      falls back to. */
  function DefaultModel(client: Client): (name: string)
    ensures OffersModel(client, name)
  {
    client.AvailableModels()[0].1.name
  }

  /** The outcome of `change_provider` for an answer: whether it changed
      anything, and the selection afterwards. */
  function ProviderChoice(clients: Dict<Client>, current: Selection, answer: string): (bool, Selection)
  {
    var providers := Enumerate(Keys(clients));
    if |providers| <= 1 then (false, current)
    else
      match Resolve(providers, answer)
      case Selected(name) =>
        EnumeratePicksEntry(Keys(clients), Strip(answer));
        (true, Selection(name, DefaultModel(Get(clients, name).value)))
      case _ => (false, current)
  }

  /** The outcome of `change_model` for an answer. */
  function ModelChoice(clients: Dict<Client>, current: Selection, answer: string): (bool, Selection)
  {
    match Get(clients, current.provider)
    case None => (false, current)
    case Some(client) =>
      match Resolve(client.AvailableModels(), answer)
      case Selected(info) => (true, Selection(current.provider, info.name))
      case _ => (false, current)
  }

  /** With at most one provider registered there is nothing to switch to. */
  lemma SingleProviderKeepsSelection(clients: Dict<Client>, current: Selection, answer: string)
    requires |clients| <= 1
    ensures ProviderChoice(clients, current, answer) == (false, current)
  {
  }

  /** Answering the number i + 1 (surrounding whitespace allowed) switches to
      the i-th registered provider and resets the model to its first one. */
  lemma NumberedProviderChoice(clients: Dict<Client>, current: Selection, answer: string, i: nat)
    requires |clients| >= 2 && i < |clients|
    requires Strip(answer) == NatToString(i + 1)
    ensures Get(clients, clients[i].0).Some?
    ensures ProviderChoice(clients, current, answer) ==
      (true, Selection(clients[i].0, DefaultModel(Get(clients, clients[i].0).value)))
  {
    EnumerateSelects(Keys(clients), i);
  }

  /** No menu key reads as 'cancel' in any letter case: numbered provider
      keys are digits, and the model keys are "1" to "4". */
  lemma CancelIsNoKey(clients: Dict<Client>, client: Client, answer: string)
    requires Lower(Strip(answer)) == "cancel"
    ensures Strip(answer) !in Keys(Enumerate(Keys(clients)))
    ensures Strip(answer) !in Keys(client.AvailableModels())
  {
    var c := Strip(answer);
    assert LowerChar(c[0]) == 'c';
    assert Keys(client.AvailableModels()) == ["1", "2", "3", "4"];
  }

  /** 'cancel', in any letter case, changes neither provider nor model. */
  lemma CancelKeepsSelection(clients: Dict<Client>, current: Selection, answer: string)
    requires Lower(Strip(answer)) == "cancel"
    ensures ProviderChoice(clients, current, answer) == (false, current)
    ensures ModelChoice(clients, current, answer) == (false, current)
  {
    if Get(clients, current.provider).Some? {
      CancelIsNoKey(clients, Get(clients, current.provider).value, answer);
    } else {
      CancelIsNoKey(clients, Client(GeminiKind), answer);
    }
  }

  /** A key of the current provider's model table selects that model and
      keeps the provider; without a client for the current provider nothing
      changes. */
  lemma ModelChoiceSelects(clients: Dict<Client>, current: Selection, answer: string)
    ensures Get(clients, current.provider).None? ==> ModelChoice(clients, current, answer) == (false, current)
    ensures Get(clients, current.provider).Some? && Strip(answer) in Keys(Get(clients, current.provider).value.AvailableModels()) ==>
      ModelChoice(clients, current, answer) ==
        (true, Selection(current.provider, Get(Get(clients, current.provider).value.AvailableModels(), Strip(answer)).value.name))
  {
  }

  /** The provider prompt keeps the selection valid: the provider stays
      registered and the model stays one it offers. */
  lemma ProviderChoiceKeepsSelectionValid(clients: Dict<Client>, current: Selection, answer: string)
    requires ValidSelection(clients, current)
    ensures ValidSelection(clients, ProviderChoice(clients, current, answer).1)
  {
    var providers := Enumerate(Keys(clients));
    if |providers| > 1 && Resolve(providers, answer).Selected? {
      var name := Resolve(providers, answer).value;
      EnumeratePicksEntry(Keys(clients), Strip(answer));
      var client := Get(clients, name).value;
      assert ProviderChoice(clients, current, answer).1 == Selection(name, DefaultModel(client));
    }
  }

  /** So does the model prompt. */
  lemma ModelChoiceKeepsSelectionValid(clients: Dict<Client>, current: Selection, answer: string)
    requires ValidSelection(clients, current)
    ensures ValidSelection(clients, ModelChoice(clients, current, answer).1)
  {
    var models := Get(clients, current.provider).value.AvailableModels();
    var choice := Strip(answer);
    if choice in Keys(models) {
      GetStored(models, choice);
      var info := Get(models, choice).value;
      var i :| 0 <= i < |models| && models[i] == (choice, info);
      assert models[i].1.name == info.name;
    }
  }

  class ProviderManager {
    const clientManager: ClientManager
    var currentProvider: string
    var currentModel: string

    ghost predicate Valid()
      reads this, clientManager
    {
      ValidSelection(clientManager.clients, Selection(currentProvider, currentModel))
    }

    /** `__init__`: the first registered provider and its first model.
        `setup_clients` has guaranteed that some provider is registered. */
    constructor (clientManager: ClientManager)
      requires clientManager.clients != []
      ensures this.clientManager == clientManager
      ensures currentProvider == Keys(clientManager.clients)[0]
      ensures currentModel == DefaultModel(clientManager.clients[0].1)
      ensures Valid()
    {
      this.clientManager := clientManager;
      currentProvider := clientManager.clients[0].0;
      new;
      currentModel := GetDefaultModel();
    }

    /** `_get_default_model`: the first model of the current provider. */
    function GetDefaultModel(): (name: string)
      reads this, clientManager
      requires clientManager.GetClient(currentProvider).Some?
      ensures OffersModel(clientManager.GetClient(currentProvider).value, name)
    {
      DefaultModel(clientManager.GetClient(currentProvider).value)
    }

    /** `change_provider`: with two or more providers, a numbered answer
        switches provider and resets the model; 'cancel' or anything else
        leaves both as they were. */
    method ChangeProvider(answer: string) returns (changed: bool)
      requires Valid()
      modifies this
      ensures Valid()
      ensures (changed, Selection(currentProvider, currentModel)) ==
        ProviderChoice(clientManager.clients, old(Selection(currentProvider, currentModel)), answer)
    {
      ProviderChoiceKeepsSelectionValid(clientManager.clients, Selection(currentProvider, currentModel), answer);
      var providers := clientManager.GetAvailableProviders();
      assert providers == Enumerate(Keys(clientManager.clients));
      if |providers| <= 1 {
        return false;
      }
      var choice := Strip(answer);
      var picked := Get(providers, choice);
      assert Resolve(providers, answer).Selected? <==> picked.Some?;
      if picked.Some? {
        EnumeratePicksEntry(Keys(clientManager.clients), choice);
        currentProvider := picked.value;
        var client := clientManager.GetClient(currentProvider);
        currentModel := DefaultModel(client.value);
        return true;
      } else if Lower(choice) == "cancel" {
        return false;
      } else {
        return false;
      }
    }

    /** `change_model`: a key of the current provider's table selects that
        model; 'cancel', anything else, or no client changes nothing. */
    method ChangeModel(answer: string) returns (changed: bool)
      requires Valid()
      modifies this
      ensures Valid()
      ensures (changed, Selection(currentProvider, currentModel)) ==
        ModelChoice(clientManager.clients, old(Selection(currentProvider, currentModel)), answer)
    {
      ModelChoiceKeepsSelectionValid(clientManager.clients, Selection(currentProvider, currentModel), answer);
      var client := clientManager.GetClient(currentProvider);
      if client.None? {
        return false;
      }
      var models := client.value.AvailableModels();
      var choice := Strip(answer);
      var picked := Get(models, choice);
      if picked.Some? {
        currentModel := picked.value.name;
        return true;
      } else if Lower(choice) == "cancel" {
        return false;
      } else {
        return false;
      }
    }
  }
}
