/** `process_message` (recipe_assist.py:75-98): reject a blank message, ask
    the classifier, decline non-food messages, otherwise search with the
    arguments of the first tool call the model returned. */
module Router {
  import opened Wrappers
  import opened PyStr
  import opened RecipeSearch
  import opened RecipeAssistant

  const EmptyMessage: string := "Message cannot be empty."
  const DeclineText: string :=
    "I'm here to assist with food, recipes, and cooking-related questions only. Please ask me something related to food!"
  const ProcessErrorPrefix: string := "Error processing message: "

  /** Python's messages for the three ways `message.tool_calls[0]` and the
      module-level name `tools` can fail. */
  const NoToolCalls: string := "'NoneType' object is not subscriptable"
  const EmptyToolCalls: string := "list index out of range"
  const UndefinedTools: string := "name 'tools' is not defined"

  /** Python's message when the decoded arguments hold a key `self`, which
      clashes with the bound method's own first parameter. */
  const SelfTwice: string := "RecipeAssistant.search_recipes() got multiple values for argument 'self'"

  /** The exceptions `process_message` raises. */
  datatype Raised = ValueError(msg: string) | Exception(msg: string)

  /** One structured call in the model's answer. `arguments` is the outcome of
      `json.loads` on its argument text: the dictionary, or the message of the
      exception raised while decoding it. */
  datatype ToolCall = ToolCall(name: string, arguments: Result<map<string, Value>, string>)

  /** The model's message in the tool-enabled completion. */
  datatype ChatMessage = ChatMessage(content: Option<string>, toolCalls: Option<seq<ToolCall>>)

  /** The triple `process_message` returns. */
  datatype Reply<R> = Reply(text: Option<string>, results: Option<R>, isRecipe: bool)

  function Decline<R>(): Reply<R> {
    Reply(Some(DeclineText), None, false)
  }

  /** `json.loads(message.tool_calls[0].function.arguments)`: the decoded
      arguments of the first tool call, or the message of the exception raised
      on the way. */
  function FirstArguments(msg: ChatMessage): (r: Result<map<string, Value>, string>)
    ensures msg.toolCalls == None ==> r == Failure(NoToolCalls)
    ensures msg.toolCalls == Some([]) ==> r == Failure(EmptyToolCalls)
    ensures msg.toolCalls.Some? && msg.toolCalls.value != [] ==> r == msg.toolCalls.value[0].arguments
  {
    match msg.toolCalls
    case None => Failure(NoToolCalls)
    case Some(calls) => if calls == [] then Failure(EmptyToolCalls) else calls[0].arguments
  }

  /** The recipe branch from the tool-enabled completion on: `completion` is the
      outcome of the chat call, `fetch` the search endpoint. Its failures are
      the messages of the exceptions it raises, the first one raised. */
  function RecipeBranch<R>(assistant: Assistant, completion: Result<ChatMessage, string>,
                           fetch: (string, map<string, Value>) -> Result<R, FetchError>): (r: Result<Reply<R>, string>)
    ensures r.Success? <==>
      && completion.Success?
      && FirstArguments(completion.value).Success?
      && "self" !in FirstArguments(completion.value).value
      && SearchRecipes(assistant, FirstArguments(completion.value).value, fetch).Success?
    ensures r.Success? ==>
      r.value == Reply(completion.value.content,
                       Some(SearchRecipes(assistant, FirstArguments(completion.value).value, fetch).value), true)
    ensures completion.Failure? ==> r == Failure(completion.error)
    ensures completion.Success? && FirstArguments(completion.value).Failure? ==>
      r == Failure(FirstArguments(completion.value).error)
    ensures completion.Success? && FirstArguments(completion.value).Success? ==>
      var args := FirstArguments(completion.value).value;
      && ("self" in args ==> r == Failure(SelfTwice))
      && ("self" !in args && SearchRecipes(assistant, args, fetch).Failure? ==>
            r == Failure(SearchRecipes(assistant, args, fetch).error))
  {
    match completion
    case Failure(e) => Failure(e)
    case Success(msg) =>
      match FirstArguments(msg)
      case Failure(e) => Failure(e)
      case Success(args) =>
        if "self" in args then Failure(SelfTwice)
        else
          match SearchRecipes(assistant, args, fetch)
          case Failure(e) => Failure(e)
          case Success(results) => Success(Reply(msg.content, Some(results), true))
  }

  /** The control flow of `process_message` around the recipe branch, whose
      outcome is `recipe`. */
  function Route<R>(message: string, classifier: Result<string, string>,
                    recipe: Result<Reply<R>, string>): (r: Result<Reply<R>, Raised>)
    ensures Strip(message) == "" ==> r == Failure(ValueError(EmptyMessage))
    ensures Strip(message) != "" && classifier.Failure? ==>
      r == Failure(Exception(ProcessErrorPrefix + (ClassifierErrorPrefix + classifier.error)))
    ensures Strip(message) != "" && classifier.Success? && !IsRecipeReply(classifier.value) ==>
      r == Success(Decline())
    ensures Strip(message) != "" && classifier.Success? && IsRecipeReply(classifier.value) ==>
      && (recipe.Success? ==> r == Success(recipe.value))
      && (recipe.Failure? ==> r == Failure(Exception(ProcessErrorPrefix + recipe.error)))
  {
    if Strip(message) == "" then Failure(ValueError(EmptyMessage))
    else
      match IsRecipeQuery(classifier)
      case Failure(e) => Failure(Exception(ProcessErrorPrefix + e))
      case Success(false) => Success(Decline())
      case Success(true) =>
        match recipe
        case Failure(e) => Failure(Exception(ProcessErrorPrefix + e))
        case Success(reply) => Success(reply)
  }

  /** `process_message` with the tool schema taken as declared.
      `classifier` is the outcome of the classifier's chat call. */
  function ProcessMessage<R>(message: string, assistant: Assistant, classifier: Result<string, string>,
                             completion: Result<ChatMessage, string>,
                             fetch: (string, map<string, Value>) -> Result<R, FetchError>): (r: Result<Reply<R>, Raised>)
    ensures (r.Failure? && r.error.ValueError?) <==> Strip(message) == ""
    ensures r.Failure? && r.error.ValueError? ==> r.error.msg == EmptyMessage
    ensures r.Failure? && r.error.Exception? ==> StartsWith(r.error.msg, ProcessErrorPrefix)
    ensures r.Success? && !r.value.isRecipe ==> r.value == Decline()
    ensures r.Success? ==> classifier.Success? && (r.value.isRecipe <==> IsRecipeReply(classifier.value))
    ensures Strip(message) != "" && classifier.Failure? ==>
      r == Failure(Exception(ProcessErrorPrefix + (ClassifierErrorPrefix + classifier.error)))
    ensures r.Failure? && r.error.Exception? && classifier.Success? ==>
      var branch := RecipeBranch(assistant, completion, fetch);
      branch.Failure? && r.error.msg == ProcessErrorPrefix + branch.error
  {
    Route(message, classifier, RecipeBranch(assistant, completion, fetch))
  }

  /** `process_message` as written: `tools` is not defined in the module, so
      the tool-enabled chat call raises `NameError` before it is sent. */
  function ProcessMessageAsWritten<R>(message: string, classifier: Result<string, string>): (r: Result<Reply<R>, Raised>)
    ensures r.Success? ==> r.value == Decline()
  {
    Route(message, classifier, Failure(UndefinedTools))
  }

  /** A blank message is refused with an unwrapped `ValueError` before the
      classifier, the model or the search endpoint play any part. */
  lemma BlankRejected<R>(message: string, assistant: Assistant,
                         classifier: Result<string, string>, completion: Result<ChatMessage, string>,
                         fetch: (string, map<string, Value>) -> Result<R, FetchError>)
    requires Strip(message) == ""
    ensures ProcessMessage(message, assistant, classifier, completion, fetch) == Failure(ValueError(EmptyMessage))
  {
  }

  /** A message the classifier rejects gets the fixed decline triple, whatever
      the model or the search endpoint would have answered. */
  lemma NonRecipeDeclined<R>(message: string, assistant: Assistant, reply: string,
                             completion: Result<ChatMessage, string>,
                             fetch: (string, map<string, Value>) -> Result<R, FetchError>)
    requires Strip(message) != ""
    requires !IsRecipeReply(reply)
    ensures ProcessMessage(message, assistant, Success(reply), completion, fetch) == Success(Decline())
  {
  }

  /** A recipe message whose first tool call decodes and whose search succeeds
      returns the model's text, the search results for the parameters built
      from that call's arguments, and `True`. */
  lemma RecipeSearched<R>(message: string, assistant: Assistant, reply: string,
                          msg: ChatMessage, fetch: (string, map<string, Value>) -> Result<R, FetchError>)
    requires Strip(message) != "" && IsRecipeReply(reply)
    requires msg.toolCalls.Some? && msg.toolCalls.value != []
    requires msg.toolCalls.value[0].arguments.Success?
    requires "self" !in msg.toolCalls.value[0].arguments.value
    requires fetch(BaseUrl, SearchParams(assistant.spoonacularApiKey, msg.toolCalls.value[0].arguments.value)).Success?
    ensures var args := msg.toolCalls.value[0].arguments.value;
      ProcessMessage(message, assistant, Success(reply), Success(msg), fetch)
      == Success(Reply(msg.content, Some(fetch(BaseUrl, SearchParams(assistant.spoonacularApiKey, args)).value), true))
  {
  }

  /** Decoded arguments that name `self` clash with the method's own first
      parameter: the search is never sent, and the `TypeError` is wrapped. */
  lemma SelfArgumentRejected<R>(message: string, assistant: Assistant, reply: string,
                                msg: ChatMessage, fetch: (string, map<string, Value>) -> Result<R, FetchError>)
    requires Strip(message) != "" && IsRecipeReply(reply)
    requires msg.toolCalls.Some? && msg.toolCalls.value != []
    requires msg.toolCalls.value[0].arguments.Success?
    requires "self" in msg.toolCalls.value[0].arguments.value
    ensures ProcessMessage(message, assistant, Success(reply), Success(msg), fetch)
            == Failure(Exception(ProcessErrorPrefix + SelfTwice))
  {
  }

  /** The flag is `True` exactly when the message is not blank, the classifier
      says "yes" and every later step succeeds. */
  lemma RecipeFlagIff<R>(message: string, assistant: Assistant, classifier: Result<string, string>,
                         completion: Result<ChatMessage, string>,
                         fetch: (string, map<string, Value>) -> Result<R, FetchError>)
    ensures var r := ProcessMessage(message, assistant, classifier, completion, fetch);
      (r.Success? && r.value.isRecipe) <==>
        && Strip(message) != ""
        && classifier.Success? && IsRecipeReply(classifier.value)
        && RecipeBranch(assistant, completion, fetch).Success?
  {
  }

  /** A recipe message whose answer holds an empty tool-call list fails with
      the wrapped indexing error rather than falling back to plain chat. */
  lemma EmptyToolCallsWrapped<R>(message: string, assistant: Assistant, reply: string,
                                 content: Option<string>,
                                 fetch: (string, map<string, Value>) -> Result<R, FetchError>)
    requires Strip(message) != "" && IsRecipeReply(reply)
    ensures ProcessMessage(message, assistant, Success(reply), Success(ChatMessage(content, Some([]))), fetch)
            == Failure(Exception(ProcessErrorPrefix + EmptyToolCalls))
  {
    var msg := ChatMessage(content, Some([]));
    assert FirstArguments(msg) == Failure(EmptyToolCalls);
    assert RecipeBranch(assistant, Success(msg), fetch) == Failure(EmptyToolCalls);
  }

  /** The same when the answer carries no tool-call list at all. */
  lemma NoToolCallsWrapped<R>(message: string, assistant: Assistant, reply: string,
                              content: Option<string>,
                              fetch: (string, map<string, Value>) -> Result<R, FetchError>)
    requires Strip(message) != "" && IsRecipeReply(reply)
    ensures ProcessMessage(message, assistant, Success(reply), Success(ChatMessage(content, None)), fetch)
            == Failure(Exception(ProcessErrorPrefix + NoToolCalls))
  {
    var msg := ChatMessage(content, None);
    assert FirstArguments(msg) == Failure(NoToolCalls);
    assert RecipeBranch(assistant, Success(msg), fetch) == Failure(NoToolCalls);
  }

  /** Only the first tool call is looked at: later calls, and the name of the
      first, make no difference. */
  lemma FirstCallOnly<R>(message: string, assistant: Assistant, classifier: Result<string, string>,
                         content: Option<string>, first: ToolCall, name: string,
                         rest1: seq<ToolCall>, rest2: seq<ToolCall>,
                         fetch: (string, map<string, Value>) -> Result<R, FetchError>)
    ensures ProcessMessage(message, assistant, classifier, Success(ChatMessage(content, Some([first] + rest1))), fetch)
         == ProcessMessage(message, assistant, classifier,
                           Success(ChatMessage(content, Some([ToolCall(name, first.arguments)] + rest2))), fetch)
  {
    var m1 := ChatMessage(content, Some([first] + rest1));
    var m2 := ChatMessage(content, Some([ToolCall(name, first.arguments)] + rest2));
    assert FirstArguments(m1) == first.arguments == FirstArguments(m2);
    assert RecipeBranch(assistant, Success(m1), fetch) == RecipeBranch(assistant, Success(m2), fetch);
  }

  /** As written, no message ever gets a recipe answer: every message the
      classifier accepts fails with the wrapped `NameError`. */
  lemma AsWrittenNeverSearches<R>(message: string, classifier: Result<string, string>)
    ensures var r := ProcessMessageAsWritten<R>(message, classifier);
      !(r.Success? && r.value.isRecipe)
    ensures Strip(message) != "" && classifier.Success? && IsRecipeReply(classifier.value) ==>
      ProcessMessageAsWritten<R>(message, classifier) == Failure(Exception(ProcessErrorPrefix + UndefinedTools))
  {
  }
}
