# Coding agent decision loop, modelled in Dafny

This project models the decision loop of a conversational coding assistant.
The assistant sends the conversation to a pool of language-model providers.
The pool fails over from one provider to the next when a provider raises a
RuntimeError. The model reply may embed a JSON action plan. The plan is run
against three collaborators: files, git and web search. Its transcript, or
else the raw reply, becomes the assistant's turn in the history.

Modules, one per file:

- `Wrappers` (`wrappers.dfy`): `Option` and `Result`.
- `Text` (`text.dfy`): the Python string operations the agent uses, over
  `seq<char>`. These are `find`, `rfind`, slicing with negative bounds,
  `"\n".join`, ASCII `lower()`, and `str` on naturals.
  - `agent.py` never calls `int`. `ParseNat` (and `ParseKey` in `Agent`)
    are inverses added here so that the round trip of a model key can be
    stated.
- `JsonValue` (`json.dfy`): the values `json.loads` produces. It also gives
  `d[k]`, `d.get(k, default)`, what a `for` loop visits, and `str()` inside
  an f-string. `WellFormed` says a dict's key order lists each of its keys
  once; `DecodesWellFormed` says a decoder builds only such dicts.
- `ProviderPool` (`multiprovider.dfy`): the `MultiProvider` class.
  - Its `Chat` method is the failover loop.
  - `Chat` is proved against `Failover`, a closed-form statement indexed by
    attempt number.
  - Lemmas about `Failover` state the failover rules.
- `Plan` (`plan.dfy`): finding the span from the first `{` to the last `}`.
  - It reads the plan's "actions" against the schema in the system prompt.
  - Each action becomes a list of collaborator calls and one transcript line.
  - `ParseAndExecute` specifies `_try_parse_and_execute`.
  - `Collaborators` is a class holding the log of calls made. A call, once
    made, stays in the log.
- `Agent` (`agent.dfy`): the `CodingAgent` class.
  - It covers `ask`, the plan loop, `reset_history`, model keys,
    `get_available_models`, `switch_model` and `get_current_model_info`.
  - It also holds the system prompt, reproduced line by line.

The main results are these lemmas and method contracts:

- `ProviderPool.MultiProvider.Chat` is proved against `Failover`. With
  `ExhaustsAllProviders`, `AttemptsAreDistinct` and `StopsAtOffset` it
  states the failover rules.
- `Plan.FaultMidPlanFallsBack`: an action that raises drops the
  transcript, while every call made so far stays made.
- `Plan.EarlierCallsKept`: calls are never undone.
- `Plan.OneLinePerKnownAction`: a clean run has one line per action of a
  known type.
- `Plan.PerformedPlanStartsWithHeader`: a performed plan's text starts with
  the header.
- `Plan.DictActionsFallBack`: "actions" given as a non-empty dict falls back
  to the reply.
- `Plan.FourActionPlan`: the prompt's four-action example, run end to end.
- `Agent.CodingAgent.ExecuteActions` is proved against `Plan.RunActions`;
  `TryParseAndExecute` and `Ask` are proved against `Plan.ParseAndExecute`.
- `Agent.AvailableModelsExact` and `Agent.CodingAgent.SwitchModel`: the
  model keys.

Some other lemmas spell out one branch of `ParseAndExecute`. Examples are
`UndecodableNoPlan`, `NotIterableNoPlan`, `DecodedPlanRaises` and
`DecodedPlanPerformed`. Others are proof steps for the methods, such as
`PrefixStep`, `ValidStep` and `ExecutorSteps`.

The outside world enters as parameters:

- Provider behaviour during one `chat` call is a `Backend`: the outcome of
  calling the provider at index `i` with a given request.
- Collaborator behaviour is a `World`: the reply to the n-th collaborator call
  ever made, either a returned value or a raise.
- `json.loads` is an abstract `Decoder`: the dict a text decodes to, or
  `None` when it raises or gives something other than a dict.

## Model

| member | source | states |
|---|---|---|
| Text.Find | src/coding_agent/agent.py:100 | `reply.find("{")` is -1 exactly when there is no `{`; otherwise it is the index of the first one |
| Text.RFind | src/coding_agent/agent.py:101 | `reply.rfind("}")` is -1 exactly when there is no `}`; otherwise it is the index of the last one |
| Text.SliceBound | src/coding_agent/agent.py:102 | a slice bound counts from the end when negative; one below `-len` becomes 0 and one above `len` becomes `len` |
| Text.PySlice | src/coding_agent/agent.py:102 | `reply[start:end]` is no longer than the reply; with in-range bounds in order it is exactly that piece; it is empty when both bounds are non-negative, or both negative, and the end is not after the start |
| Text.Join | src/coding_agent/agent.py:120 | `"\n".join(parts)` is empty for no parts; otherwise it starts with the first part and ends with the last |
| Text.NatToStringRoundTrip | src/coding_agent/agent.py:45 | the index written into a model key is a non-empty run of digits that reads back as the index |
| JsonValue.Iterate | src/coding_agent/agent.py:106 | `for` over "actions" visits a list's items; it raises exactly for a number, a bool or None |
| JsonValue.IterateDictKeys | src/coding_agent/agent.py:106 | `for` over a dict visits each of its keys once, as strings, and nothing else |
| JsonValue.Lookup | src/coding_agent/agent.py:107-119 | `d[key]` gives the value bound to `key`; it raises exactly when the key is missing |
| JsonValue.Get | src/coding_agent/agent.py:104-105 | `d.get(key, default)` gives the bound value when the key is present and the default otherwise |
| JsonValue.Subscript | src/coding_agent/agent.py:107-119 | `v[key]` succeeds exactly when `v` is a dict holding `key`, and then gives its value |
| JsonValue.Str | src/coding_agent/agent.py:109 | interpolating a string value gives the string itself |
| ProviderPool.Probe | src/coding_agent/provider/multiprovider.py:20 | the provider tried at each attempt is a valid index |
| ProviderPool.Probes | src/coding_agent/provider/multiprovider.py:15-21 | the first n attempts try providers start, start+1, … modulo the pool size, in order |
| ProviderPool.FirstStop | src/coding_agent/provider/multiprovider.py:15-21 | the loop stops at the first provider that does not raise RuntimeError; every earlier one raised it |
| ProviderPool.Failover | src/coding_agent/provider/multiprovider.py:11-22 | a call makes at most one attempt per provider; it leaves the cursor on a valid index; attempt k calls provider (start+k) mod total |
| ProviderPool.StopsAtOffset | src/coding_agent/provider/multiprovider.py:16-18 | the first provider that does not raise RuntimeError ends the call, with its text or its exception; the cursor stays on it and k+1 calls were made |
| ProviderPool.SucceedsAtOffset | src/coding_agent/provider/multiprovider.py:17 | a provider that answers after k RuntimeErrors returns its text verbatim; the cursor is left at (start+k) mod total |
| ProviderPool.PropagatesOtherFailure | src/coding_agent/provider/multiprovider.py:16-18 | an exception other than RuntimeError propagates at once; the cursor stays on the provider that raised it |
| ProviderPool.ProbeStep | src/coding_agent/provider/multiprovider.py:20 | the next attempt's provider is `(current + 1) % total` |
| ProviderPool.ProbeWrapsAround | src/coding_agent/provider/multiprovider.py:20 | after `total` failovers the cursor is back where it started |
| ProviderPool.ExhaustsAllProviders | src/coding_agent/provider/multiprovider.py:15-22 | when every provider raises RuntimeError, the call raises "All providers failed: " with the last message; it has made exactly one call per provider and the cursor is back at its start |
| ProviderPool.ExhaustedMessage | src/coding_agent/provider/multiprovider.py:22 | the error text is "All providers failed: " followed by the last RuntimeError's message, or by "None" when none was caught |
| ProviderPool.EmptyPoolRaises | src/coding_agent/provider/multiprovider.py:14-22 | an empty pool calls nobody and raises "All providers failed: None" |
| ProviderPool.AttemptsAreDistinct | src/coding_agent/provider/multiprovider.py:15-21 | no provider is called twice in one call |
| ProviderPool.CursorProviderAnsweredFirst | src/coding_agent/provider/multiprovider.py:17 | with the cursor on a provider that answers, that provider alone is called, whatever failed before |
| ProviderPool.MultiProvider.constructor | src/coding_agent/provider/multiprovider.py:7-9 | the pool keeps the providers given, with the cursor at 0 |
| ProviderPool.MultiProvider.Chat | src/coding_agent/provider/multiprovider.py:11-22 | the loop's result, final cursor and providers called are those `Failover` gives; the cursor stays valid |
| ProviderPool.MultiProvider.SetProvider | src/coding_agent/agent.py:62 | pins the cursor to the given valid index; no provider is called |
| Plan.Collaborators.Invoke | src/coding_agent/agent.py:108 | a collaborator call gets the world's reply to the n-th call and is appended to the log |
| Plan.JsonSpan | src/coding_agent/agent.py:100-102 | the span is no longer than the reply, and when not empty it ends with `}` |
| Plan.JsonSpanCases | src/coding_agent/agent.py:100-102 | the span is the text from the first `{` to the last `}` inclusive when they come in that order; it is empty when they come the other way round; with no `{` it is empty or a lone `}` |
| Plan.HeaderShape | src/coding_agent/agent.py:105 | the header starts with "**Agent Plan:** ", shows the explanation right after it, and ends with a newline |
| Plan.ReadLineShape | src/coding_agent/agent.py:109 | a read's line starts with its marker and shows the path |
| Plan.WriteLineShape | src/coding_agent/agent.py:112 | a write's line starts with its marker and shows the path |
| Plan.CommitLineShape | src/coding_agent/agent.py:116 | a commit's line starts with its marker and ends with the message |
| Plan.SearchLineShape | src/coding_agent/agent.py:119 | a search's line starts with its marker, shows the query, and ends with the answer and a newline |
| Plan.ValidateSchema | src/coding_agent/agent.py:107-119 | an action is read as one of the four only if its "type" names it and it has that action's fields; any other "type" is kept and is none of the four; without "type" it is malformed |
| Plan.PerformCalls | src/coding_agent/agent.py:107-119 | an action of a known type makes one or two calls, the i-th answered by the world's reply to call k+i; it raises exactly when its last call raised; an unrecognized one calls nobody and is skipped |
| Plan.StepCalls | src/coding_agent/agent.py:107-119 | an action makes at most two calls; a malformed one raises after at most one, the staging of a git_commit; a skipped one calls nobody |
| Plan.RunPrefix | src/coding_agent/agent.py:106-119 | a run over the first n actions that did not raise has at most n lines |
| Plan.RunActions | src/coding_agent/agent.py:106-119 | a run that did not raise has at most one line per action |
| Plan.ParseAndExecute | src/coding_agent/agent.py:97-122 | a plan that is not performed gives back the reply unchanged |
| Plan.DictActionsFallBack | src/coding_agent/agent.py:104-107 | for a decoder that builds well-formed dicts, "actions" given as a non-empty dict is iterated as its keys; the first key raises at `action["type"]`, so the reply comes back and no call is made |
| Plan.NoOpeningBraceNoPlan | src/coding_agent/agent.py:100-103 | a reply without `{` gives back the reply, unperformed, with no collaborator called |
| Plan.UndecodableNoPlan | src/coding_agent/agent.py:103 | a span that does not decode to a dict gives back the reply, with no call made |
| Plan.NotIterableNoPlan | src/coding_agent/agent.py:104-106 | "actions" that cannot be iterated give back the reply, with no call made |
| Plan.MissingActionsHeaderOnly | src/coding_agent/agent.py:104-105 | a decoded dict without "actions" is performed; its text is the header alone and no call is made |
| Plan.PerformedPlanStartsWithHeader | src/coding_agent/agent.py:105-120 | a performed plan came from a span that decoded and its text starts with "**Agent Plan:** "; an unperformed one gives back the reply |
| Plan.DecodedPlanPerformed | src/coding_agent/agent.py:105-120 | a plan whose actions all ran gives the header and the action lines joined by "\n", performed, with the run's calls |
| Plan.DecodedPlanRaises | src/coding_agent/agent.py:121-122 | a plan whose run raised gives back the reply, unperformed, with every call made so far still in the log |
| Plan.FaultMidPlanFallsBack | src/coding_agent/agent.py:106-122 | an action that raises after cleanly run earlier ones gives back the reply; the earlier actions' calls and its own stay made, and nothing after it runs |
| Plan.RunFaultsAt | src/coding_agent/agent.py:106-119 | the first action that raises ends the loop, keeping the calls made so far and its own |
| Plan.FaultIsFinal | src/coding_agent/agent.py:106-119 | once an action has raised, later actions change nothing |
| Plan.EarlierCallsKept | src/coding_agent/agent.py:106-119 | the calls of a shorter run are a prefix of the calls of a longer one; calls are never undone |
| Plan.UnknownTypeIgnored | src/coding_agent/agent.py:107-119 | an action whose "type" is none of the four calls nobody and adds no line |
| Plan.CommitStagesFirst | src/coding_agent/agent.py:113-116 | a git_commit action stages "." first, before "message" is read; the commit is the only other call |
| Plan.StepLine | src/coding_agent/agent.py:107-119 | an action adds a line only if well formed and of a known type; it is skipped exactly when its type is unknown; a malformed action raises |
| Plan.CleanRunLines | src/coding_agent/agent.py:106-119 | a run with no raise has one line per emitting action and held no action that always raises |
| Plan.OneLinePerKnownAction | src/coding_agent/agent.py:106-119 | a run with no raise has exactly one line per action of a known type, and no malformed action |
| Plan.PrefixStep | src/coding_agent/agent.py:106-119 | one more action after a clean run: a raise ends the run; a line is appended; a skip adds only its calls |
| Plan.FourStepsReturn | src/coding_agent/agent.py:107-119 | with every call returning, each of the four action types makes its calls in order and emits its line |
| Plan.FourActionPlan | src/coding_agent/agent.py:106-119 | the prompt's four-action example, every call returning, yields four lines in plan order and five calls in that order |
| Agent.SystemPrompt | src/coding_agent/agent.py:66-83 | the system prompt names every action type the executor acts on |
| Agent.ConcatMentions | src/coding_agent/agent.py:67-83 | text contained in one literal of the prompt is contained in the whole prompt |
| Agent.PromptLinesNameActionTypes | tests/test_agent.py:26-29 | the prompt's lines contain "read_file", "write_file", "git_commit" and "web_search" |
| Agent.Dialogue | src/coding_agent/agent.py:87-88 | the messages sent are the system prompt, then the history unchanged, then the new user message |
| Agent.TurnKeepsAlternation | src/coding_agent/agent.py:93-94 | appending a user message then an assistant message keeps the history alternating, starting with the user, and of even length |
| Agent.ModelName | src/coding_agent/agent.py:43 | a provider's name is its `model` attribute, or "unknown" when it has none |
| Agent.KindTagPlain | src/coding_agent/agent.py:44-45 | the lower-cased class name in a key holds no `_`, so the key's first `_` is the one before the index |
| Agent.ModelKeyRoundTrip | src/coding_agent/agent.py:45 | a model key splits at its `_` into the lower-cased class name and the index |
| Agent.ModelKeyInjective | src/coding_agent/agent.py:45 | two providers with the same key have the same class and the same index |
| Agent.ModelsUpToBinds | src/coding_agent/agent.py:41-49 | no later provider overwrites an earlier provider's key |
| Agent.ModelsUpToOnly | src/coding_agent/agent.py:41-49 | every key in the dict is the key of some index |
| Agent.ModelsUpToSize | src/coding_agent/agent.py:41-49 | the dict built from n providers has n keys |
| Agent.ModelsUpTo | src/coding_agent/agent.py:41-49 | after n providers the dict has at most n keys |
| Agent.AvailableModels | src/coding_agent/agent.py:38-50 | `get_available_models()` has exactly one key per provider |
| Agent.AvailableModelsExact | src/coding_agent/agent.py:38-50 | there is one key per provider (`"{class}_{i}"` lower-cased); each is bound to that provider's name, class name and instance; there are no other keys |
| Agent.ListedKey | src/coding_agent/agent.py:41-49 | the key of the provider at index i is listed, bound to that provider's entry, and reads back as its class and i |
| Agent.UnlistedKey | src/coding_agent/agent.py:53-64 | a key that is no provider's key is not listed |
| Agent.NotFoundMessage | src/coding_agent/agent.py:64 | the reply to an unknown key starts with "Model " and shows the key right after it |
| Agent.SwitchedMessage | src/coding_agent/agent.py:63 | the reply to a listed key starts with "Switched to ", shows the model name right after it, and ends with the class name in parentheses |
| Agent.CodingAgent.constructor | src/coding_agent/agent.py:14-20 | the agent starts with Groq then Google in the pool, the cursor at 0, an empty history and an empty collaborator log |
| Agent.CodingAgent.GetCurrentModelInfo | src/coding_agent/agent.py:22-36 | `None` exactly when the cursor is out of range. Otherwise it gives the cursor, the name and class of the active provider, and its key. That key is listed by `get_available_models` with the same entry and parses back to the cursor |
| Agent.CodingAgent.SwitchModel | src/coding_agent/agent.py:52-64 | a listed key moves the cursor to the provider whose key it is and answers "Switched to {name} ({provider})"; any other key leaves the cursor alone and answers the not-found message; no provider is called |
| Agent.CodingAgent.ResetHistory | src/coding_agent/agent.py:124-125 | the history becomes empty |
| Agent.CodingAgent.ExecuteAction | src/coding_agent/agent.py:107-119 | one action's collaborator calls and its line are those `StepOf` specifies |
| Agent.CodingAgent.ExecuteActions | src/coding_agent/agent.py:106-119 | the loop's lines and calls are those of `RunActions`; it reports a raise exactly when the run raised |
| Agent.CodingAgent.TryParseAndExecute | src/coding_agent/agent.py:97-122 | the text, the performed flag and the calls made are those `ParseAndExecute` specifies |
| Agent.CodingAgent.Ask | src/coding_agent/agent.py:85-95 | the pool gets the system prompt, the history and the prompt. When the pool raises, the exception propagates with history and log untouched. Otherwise the reply's plan runs; the user sees the transcript if performed, else the reply; history gains exactly that user/assistant pair |

## Left out

- Provider internals: the Groq and Google HTTP clients, API keys and
  `load_dotenv`. A provider is its class and its `model` attribute. Its
  behaviour during one call is the `Backend` parameter.
- The collaborators' internals: file reads and writes, git staging and
  committing, and the Tavily HTTP search. They are seen only through the
  replies of the `World` parameter. The text a returned value shows is part
  of that reply.
- The JSON grammar: decoding is the abstract `Decoder`, as described above.
- JsonValue.Repr: Python's `repr` of strings inside containers is simplified.
  Strings are always quoted with single quotes and nothing is escaped.
  Numbers keep their decoded text, with no float formatting.
- Text.Lower: ASCII only; the class names it is applied to are ASCII.
- `max_tokens` is passed to the providers unchanged and nothing is stated
  about it. Its default of 2048 in `ask` and in `chat` is dropped: `Ask`
  always takes `maxTokens` from its caller.
- Interrupts: `Raised` in `Plan.Reply` stands for an `Exception`. A
  `KeyboardInterrupt` or `SystemExit` raised inside a collaborator escapes
  `except Exception` and `ask`, and is not modelled. Such an interrupt adds no turn to the history,
  and the calls already made stay made; in the model every raise falls back
  to the reply and the turn is recorded.
- ProviderPool.MultiProvider.SetProvider: `agent.py` calls
  `self.llm.set_provider(i)`, but `MultiProvider` in `multiprovider.py`
  defines no such method. As written, that call would raise `AttributeError`.
  It is modelled as the plain assignment `current = i` and nothing more.
- Agent.CodingAgent.GetCurrentModelInfo: the `hasattr` checks on the pool
  are always true here, because the pool always has `current` and
  `providers`.
- Agent.CodingAgent.Ask: the contract requires the pool to hold exactly the
  Groq and the Google provider, as the constructor builds it.
- The terminal UI, the HTTP server, the GUI and the other command handlers
  are outside this model.
- Concurrency. The agent is used from one thread, and nothing here models
  two calls at once.
- `tests/test_agent.py` was written for another version of the agent. Its
  checks for a "Codeius AI Agent Instructions" heading and for a
  `conversation_manager` do not hold for `agent.py`. Only its four
  action-type checks are stated here.

## Behaviour kept as written

`agent.py` does the following, and the model keeps it:

- The transcript header is `**Agent Plan:** {explanation}` followed by a
  newline. Joined with "\n", an empty line then separates it from the first
  action line.
- A decoded dict without "actions" is performed, with the header as its
  only line. It is not treated as conversation.
- The line for a read shows the path but not the content read. The content
  is read and then not used.
- A fault in the middle of a plan drops the transcript. Every collaborator
  call already made stays made.
- "actions" given as a dict is iterated over its keys. Each key is a string,
  and `action["type"]` on a string raises, so a plan whose "actions" is a
  non-empty dict falls back to the reply.
