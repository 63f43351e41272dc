/**
 * The coding agent: it keeps the conversation history, composes the dialogue
 * sent to the provider pool, runs the action plan a reply may carry, and
 * lists and switches the pool's models by key.
 */
module Agent {
  import opened Wrappers
  import opened Text
  import opened JsonValue
  import opened ProviderPool
  import opened Plan

  // ---------------------------------------------------------------------
  // The system prompt

  /** One example element of "actions" in the system prompt: its "type"
      field, then the fields that type needs. */
  function ExampleAction(tag: string, fields: string): string {
    "   {\"type\": \"" + tag + fields
  }

  /** The lines of the system prompt, in order; the prompt is their
      concatenation (adjacent Python string literals). */
  const PromptLines: seq<string> := [
    "You are an advanced AI coding agent with the following tools:\n",
    "- Read and write source files in the workspace\n",
    "- Perform git operations (stage, commit)\n",
    "- Perform real-time web searches via a search API\n",
    "When you need to take action, reply with JSON using this structure:\n",
    "{\n",
    " \"explanation\": \"Describe your plan\",\n",
    " \"actions\": [\n",
    ExampleAction("read_file", "\",  \"path\": \"...\"},\n"),
    ExampleAction("write_file", "\", \"path\": \"...\", \"content\": \"...\"},\n"),
    ExampleAction("git_commit", "\", \"message\": \"...\"},\n"),
    ExampleAction("web_search", "\", \"query\": \"...\"}\n"),
    " ]\n",
    "}\n",
    "If only a conversation or non-code answer is needed, reply conversationally."
  ]

  function Concat(parts: seq<string>): string {
    if |parts| == 0 then [] else parts[0] + Concat(parts[1..])
  }

  /** The system prompt: the lines above, in order. It shows every action
      type the executor acts on. */
  function SystemPrompt(): (r: string)
    ensures forall t :: t in ActionTypes ==> Mentions(r, t)
  {
    PromptLinesNameActionTypes();
    Concat(PromptLines)
  }

  /** What one of the parts mentions, their concatenation mentions. */
  lemma {:induction false} ConcatMentions(parts: seq<string>, i: nat, t: string)
    requires i < |parts|
    requires Mentions(parts[i], t)
    ensures Mentions(Concat(parts), t)
    decreases i
  {
    var rest := Concat(parts[1..]);
    if i == 0 {
      MentionsInMiddle([], parts[0], rest, t);
      assert [] + parts[0] + rest == Concat(parts);
    } else {
      assert parts[1..][i - 1] == parts[i];
      ConcatMentions(parts[1..], i - 1, t);
      MentionsInMiddle(parts[0], rest, [], t);
      assert parts[0] + rest + [] == Concat(parts);
    }
  }

  /** A line of the form `before + t + after` mentions `t`. */
  lemma MentionsPiece(before: string, t: string, after: string)
    ensures Mentions(before + t + after, t)
  {
    assert OccursAt(t, t, 0);
    MentionsInMiddle(before, t, after, t);
  }

  function PromptTag(i: nat): string
    requires 8 <= i < 12
  {
    ActionTypes[i - 8]
  }

  /** The prompt's lines name every action type the executor acts on. */
  lemma PromptLinesNameActionTypes()
    ensures forall t :: t in ActionTypes ==> Mentions(Concat(PromptLines), t)
  {
    var lead := "   {\"type\": \"";
    forall i | 8 <= i < 12 ensures Mentions(Concat(PromptLines), PromptTag(i)) {
      var t := PromptTag(i);
      var rest := PromptLines[i][|lead| + |t|..];
      assert PromptLines[i] == lead + t + rest;
      MentionsPiece(lead, t, rest);
      ConcatMentions(PromptLines, i, t);
    }
    forall t | t in ActionTypes ensures Mentions(Concat(PromptLines), t) {
      var i :| 0 <= i < 4 && ActionTypes[i] == t;
      assert PromptTag(i + 8) == t;
    }
  }

  // ---------------------------------------------------------------------
  // The dialogue

  /** The messages sent for a new prompt: the system prompt, the history, then
      the new user turn. */
  function Dialogue(history: seq<Message>, prompt: string): (r: seq<Message>)
    ensures |r| == |history| + 2
    ensures r[0] == Message(System, SystemPrompt())
    ensures r[1..|r| - 1] == history
    ensures r[|r| - 1] == Message(User, prompt)
  {
    [Message(System, SystemPrompt())] + history + [Message(User, prompt)]
  }

  /** A history of completed turns: user and assistant messages alternating,
      starting with the user. */
  predicate Alternating(history: seq<Message>) {
    && |history| % 2 == 0
    && forall i :: 0 <= i < |history| ==> history[i].role == (if i % 2 == 0 then User else Assistant)
  }

  /** One more turn keeps the history alternating. */
  lemma TurnKeepsAlternation(history: seq<Message>, prompt: string, answer: string)
    requires Alternating(history)
    ensures Alternating(history + [Message(User, prompt), Message(Assistant, answer)])
  {
    var h := history + [Message(User, prompt), Message(Assistant, answer)];
    forall i | 0 <= i < |h| ensures h[i].role == (if i % 2 == 0 then User else Assistant) {
      if i < |history| {
        assert h[i] == history[i];
      } else if i == |history| {
        assert i % 2 == 0;
      } else {
        assert i == |history| + 1 && i % 2 == 1;
      }
    }
  }

  // ---------------------------------------------------------------------
  // Model keys

  /** `type(provider).__name__.replace('Provider', '')`. */
  function KindName(kind: ProviderKind): string {
    match kind
    case Groq => "Groq"
    case Google => "Google"
  }

  /** `getattr(provider, 'model', 'unknown')`. */
  function ModelName(p: ProviderInfo): (r: string)
    ensures p.model.Some? ==> r == p.model.value
    ensures p.model.None? ==> r == "unknown"
  {
    p.model.GetOr("unknown")
  }

  /** `f"{provider_name.lower()}_{i}"`. */
  function ModelKey(kind: ProviderKind, i: nat): (r: string)
  {
    Lower(KindName(kind)) + "_" + NatToString(i)
  }

  /** The inverse of `ModelKey`: the text before the first `_` and the number after it. */
  function ParseKey(key: string): Option<(string, nat)> {
    var u := Find(key, '_');
    if u < 0 then None
    else
      var digits := key[u + 1..];
      if |digits| > 0 && AllDigits(digits) then Some((key[..u], ParseNat(digits))) else None
  }

  /** The lower-cased class name of a provider has no `_` in it. */
  lemma KindTagPlain(kind: ProviderKind)
    ensures '_' !in Lower(KindName(kind))
  {
    match kind
    case Groq => assert Lower("Groq") == "groq";
    case Google => assert Lower("Google") == "google";
  }

  /** A model key reads back as its provider's lower-cased class name and its index. */
  lemma ModelKeyRoundTrip(kind: ProviderKind, i: nat)
    ensures ParseKey(ModelKey(kind, i)) == Some((Lower(KindName(kind)), i))
  {
    var tag, digits := Lower(KindName(kind)), NatToString(i);
    var key := ModelKey(kind, i);
    KindTagPlain(kind);
    FindAfterPrefix(tag, '_', digits);
    assert key == tag + ['_'] + digits;
    assert key[|tag| + 1..] == digits;
    assert key[..|tag|] == tag;
    NatToStringRoundTrip(i);
  }

  /** Different provider indices, or different classes, have different keys. */
  lemma ModelKeyInjective(k1: ProviderKind, i: nat, k2: ProviderKind, j: nat)
    requires ModelKey(k1, i) == ModelKey(k2, j)
    ensures i == j && k1 == k2
  {
    ModelKeyRoundTrip(k1, i);
    ModelKeyRoundTrip(k2, j);
    assert |Lower(KindName(Groq))| != |Lower(KindName(Google))|;
  }

  /** One entry of `get_available_models()`. */
  datatype ModelEntry = ModelEntry(name: string, provider: string, instance: ProviderInfo)

  function Entry(p: ProviderInfo): ModelEntry {
    ModelEntry(ModelName(p), KindName(p.kind), p)
  }

  /** The dict built by the loop of `get_available_models` after its first `n` providers. */
  function ModelsUpTo(ps: seq<ProviderInfo>, n: nat): (r: map<string, ModelEntry>)
    requires n <= |ps|
    ensures |r| <= n
  {
    if n == 0 then map[]
    else ModelsUpTo(ps, n - 1)[ModelKey(ps[n - 1].kind, n - 1) := Entry(ps[n - 1])]
  }

  /** `get_available_models()`. */
  function AvailableModels(ps: seq<ProviderInfo>): (r: map<string, ModelEntry>)
    ensures |r| == |ps|
  {
    ModelsUpToSize(ps, |ps|);
    ModelsUpTo(ps, |ps|)
  }

  /** After `n` providers, the key of each index below `n` is bound to that
      provider's entry: no later provider overwrites it. */
  lemma {:induction false} ModelsUpToBinds(ps: seq<ProviderInfo>, n: nat, i: nat)
    requires i < n <= |ps|
    ensures ModelKey(ps[i].kind, i) in ModelsUpTo(ps, n)
    ensures ModelsUpTo(ps, n)[ModelKey(ps[i].kind, i)] == Entry(ps[i])
    decreases n
  {
    if i < n - 1 {
      ModelsUpToBinds(ps, n - 1, i);
      if ModelKey(ps[n - 1].kind, n - 1) == ModelKey(ps[i].kind, i) {
        ModelKeyInjective(ps[n - 1].kind, n - 1, ps[i].kind, i);
      }
    }
  }

  /** After `n` providers, every key is the key of some index below `n`. */
  lemma {:induction false} ModelsUpToOnly(ps: seq<ProviderInfo>, n: nat, key: string)
    requires n <= |ps|
    ensures key in ModelsUpTo(ps, n) ==> exists i :: 0 <= i < n && key == ModelKey(ps[i].kind, i)
    decreases n
  {
    if n > 0 && key != ModelKey(ps[n - 1].kind, n - 1) {
      ModelsUpToOnly(ps, n - 1, key);
    }
  }

  /** After `n` providers the dict has `n` keys: no two providers share one. */
  lemma {:induction false} ModelsUpToSize(ps: seq<ProviderInfo>, n: nat)
    requires n <= |ps|
    ensures |ModelsUpTo(ps, n)| == n
    decreases n
  {
    if n > 0 {
      ModelsUpToSize(ps, n - 1);
      var key := ModelKey(ps[n - 1].kind, n - 1);
      ModelsUpToOnly(ps, n - 1, key);
      var before := ModelsUpTo(ps, n - 1);
      if key in before {
        var i :| 0 <= i < n - 1 && key == ModelKey(ps[i].kind, i);
        ModelKeyInjective(ps[n - 1].kind, n - 1, ps[i].kind, i);
      }
      assert ModelsUpTo(ps, n) == before[key := Entry(ps[n - 1])];
    }
  }

  /** `get_available_models()` has one key per provider, `"{kind}_{i}"` for
      the provider at index `i`, bound to that provider's name, class name
      and instance, and no other key. */
  lemma AvailableModelsExact(ps: seq<ProviderInfo>)
    ensures var m := AvailableModels(ps);
      && (forall i :: 0 <= i < |ps| ==> ModelKey(ps[i].kind, i) in m && m[ModelKey(ps[i].kind, i)] == Entry(ps[i]))
      && (forall key :: key in m ==> exists i :: 0 <= i < |ps| && key == ModelKey(ps[i].kind, i))
      && |m| == |ps|
  {
    forall i | 0 <= i < |ps|
      ensures ModelKey(ps[i].kind, i) in AvailableModels(ps)
      ensures AvailableModels(ps)[ModelKey(ps[i].kind, i)] == Entry(ps[i])
    {
      ModelsUpToBinds(ps, |ps|, i);
    }
    forall key | key in AvailableModels(ps)
      ensures exists i :: 0 <= i < |ps| && key == ModelKey(ps[i].kind, i)
    {
      ModelsUpToOnly(ps, |ps|, key);
    }
    ModelsUpToSize(ps, |ps|);
  }

  /** The key of the provider at index `i` is listed, bound to that provider's
      entry, and reads back as its lower-cased class name and `i`. */
  lemma ListedKey(ps: seq<ProviderInfo>, i: nat)
    requires i < |ps|
    ensures var key, m := ModelKey(ps[i].kind, i), AvailableModels(ps);
      && key in m && m[key] == Entry(ps[i])
      && ParseKey(key) == Some((Lower(KindName(ps[i].kind)), i))
  {
    ModelKeyRoundTrip(ps[i].kind, i);
    ModelsUpToBinds(ps, |ps|, i);
  }

  /** A key that is no provider's key is not listed. */
  lemma UnlistedKey(ps: seq<ProviderInfo>, key: string)
    requires forall j :: 0 <= j < |ps| ==> ModelKey(ps[j].kind, j) != key
    ensures key !in AvailableModels(ps)
  {
    ModelsUpToOnly(ps, |ps|, key);
  }

  /** What `get_current_model_info()` returns when the cursor is in range. */
  datatype ModelInfo = ModelInfo(index: nat, name: string, provider: string, key: string)

  /** The reply of `switch_model` to a key that names no provider. */
  function NotFoundMessage(key: string): (r: string)
    ensures StartsWith(r, "Model ") && OccursAt(r, key, 6)
  {
    "Model " + key + " not found. Use /models to see available models."
  }

  /** The reply of `switch_model` to a listed key: the model's name, then its
      provider's class name in parentheses. */
  function SwitchedMessage(e: ModelEntry): (r: string)
    ensures StartsWith(r, "Switched to ") && OccursAt(r, e.name, 12)
    ensures EndsWith(r, "(" + e.provider + ")")
  {
    "Switched to " + e.name + " (" + e.provider + ")"
  }

  // ---------------------------------------------------------------------
  // The agent

  /** `CodingAgent`: the provider pool, the collaborators, the decoder used for
      plans (`json.loads`) and the conversation history. */
  class CodingAgent {
    const llm: MultiProvider
    const tools: Collaborators
    const decode: Decoder
    var history: seq<Message>

    /** The pool holds the Groq provider then the Google one, its cursor in
        range, and the history is a sequence of completed turns. */
    ghost predicate Valid()
      reads this, llm
    {
      && llm.Valid()
      && |llm.providers| == 2
      && llm.providers[0].kind == Groq
      && llm.providers[1].kind == Google
      && Alternating(history)
    }

    constructor (groqModel: Option<string>, googleModel: Option<string>, respond: World, decode: Decoder)
      ensures Valid()
      ensures llm.providers == [ProviderInfo(Groq, groqModel), ProviderInfo(Google, googleModel)]
      ensures llm.current == 0 && llm.calls == []
      ensures tools.respond == respond && tools.log == []
      ensures this.decode == decode && history == []
      ensures fresh(llm) && fresh(tools)
    {
      llm := new MultiProvider([ProviderInfo(Groq, groqModel), ProviderInfo(Google, googleModel)]);
      tools := new Collaborators(respond);
      this.decode := decode;
      history := [];
    }

    /** `get_current_model_info()`: the active provider's index, name, class
        name and key, `None` when the cursor is out of range. The key is the
        one `get_available_models()` lists for it, and reads back as the
        cursor. */
    function GetCurrentModelInfo(): (r: Option<ModelInfo>)
      reads this, llm
      ensures r.Some? <==> llm.current < |llm.providers|
      ensures Valid() ==> r.Some?
      ensures r.Some? ==>
        && r.value.index == llm.current
        && r.value.key in AvailableModels(llm.providers)
        && AvailableModels(llm.providers)[r.value.key]
           == ModelEntry(r.value.name, r.value.provider, llm.providers[llm.current])
        && ParseKey(r.value.key) == Some((Lower(r.value.provider), llm.current))
    {
      if llm.current < |llm.providers| then
        var i := llm.current;
        var p := llm.providers[i];
        AvailableModelsExact(llm.providers);
        ModelKeyRoundTrip(p.kind, i);
        Some(ModelInfo(i, ModelName(p), KindName(p.kind), ModelKey(p.kind, i)))
      else
        None
    }

    /** `switch_model(model_key)`: a listed key moves the cursor to its
        provider and names it; any other key leaves the cursor where it was. */
    method SwitchModel(key: string) returns (msg: string)
      requires Valid()
      modifies llm
      ensures Valid()
      ensures llm.calls == old(llm.calls)
      ensures var m := AvailableModels(llm.providers);
        && (key in m ==> llm.current < |llm.providers| && ModelKey(llm.providers[llm.current].kind, llm.current) == key
                         && ParseKey(key) == Some((Lower(m[key].provider), llm.current))
                         && msg == SwitchedMessage(m[key]))
        && (key !in m ==> llm.current == old(llm.current) && msg == NotFoundMessage(key))
    {
      var ps := llm.providers;
      var models := AvailableModels(ps);
      if key in models {
        var i := 0;
        while i < |ps|
          invariant 0 <= i <= |ps|
          invariant forall j :: 0 <= j < i ==> ModelKey(ps[j].kind, j) != key
        {
          var currentKey := ModelKey(ps[i].kind, i);
          if currentKey == key {
            ListedKey(ps, i);
            llm.SetProvider(i);
            return SwitchedMessage(models[key]);
          }
          i := i + 1;
        }
        UnlistedKey(ps, key);
      }
      return NotFoundMessage(key);
    }

    /** `reset_history()`. */
    method ResetHistory()
      requires Valid()
      modifies this
      ensures Valid()
      ensures history == []
    {
      history := [];
    }

    /** One element of "actions" as the `for` body handles it, calling the
        collaborators in the order the source does; `Fault` is an exception. */
    method ExecuteAction(item: Json, ghost step: Stepper) returns (line: Line)
      requires Executes(step, tools.respond)
      modifies tools
      ensures var st := step(item, |old(tools.log)|);
        line == st.line && tools.log == old(tools.log) + st.events
    {
      ghost var k := |tools.log|;
      assert step(item, k) == StepOf(item, tools.respond, k);
      var tag := Subscript(item, "type");
      if tag.None? {
        assert Validate(item).None?;
        return Fault;
      }
      if tag.value == JString("read_file") {
        var path := Subscript(item, "path");
        if path.None? {
          assert Validate(item).None?;
          return Fault;
        }
        assert Validate(item) == Some(ReadFileAction(path.value));
        var reply := tools.Invoke(ReadFile(path.value));
        if reply.Raised? {
          return Fault;
        }
        return Emit(ReadLine(path.value));
      } else if tag.value == JString("write_file") {
        var path := Subscript(item, "path");
        var content := Subscript(item, "content");
        if path.None? || content.None? {
          assert Validate(item).None?;
          return Fault;
        }
        assert Validate(item) == Some(WriteFileAction(path.value, content.value));
        var reply := tools.Invoke(WriteFile(path.value, content.value));
        if reply.Raised? {
          return Fault;
        }
        return Emit(WriteLine(path.value));
      } else if tag.value == JString("git_commit") {
        var staged := tools.Invoke(StageFiles("."));
        if staged.Raised? {
          return Fault;
        }
        var message := Subscript(item, "message");
        assert message.None? ==> Validate(item).None?;
        assert message.Some? ==> Validate(item) == Some(GitCommitAction(message.value));
        if message.None? {
          return Fault;
        }
        var committed := tools.Invoke(Commit(message.value));
        if committed.Raised? {
          return Fault;
        }
        return Emit(CommitLine(message.value));
      } else if tag.value == JString("web_search") {
        var query := Subscript(item, "query");
        if query.None? {
          assert Validate(item).None?;
          return Fault;
        }
        assert Validate(item) == Some(WebSearchAction(query.value));
        var answer := tools.Invoke(Search(query.value));
        if answer.Raised? {
          return Fault;
        }
        return Emit(SearchLine(query.value, answer.value));
      }
      assert Validate(item) == Some(Unrecognized(tag.value));
      return Skip;
    }

    /** The `for` loop over the actions: the lines the actions add and
        `true` when every action ran, `false` once one raised; the calls made
        stay in the log either way. */
    method ExecuteActions(items: seq<Json>, ghost step: Stepper) returns (lines: seq<string>, ok: bool)
      requires Executes(step, tools.respond)
      modifies tools
      ensures var run := RunActions(items, step, |old(tools.log)|);
        && tools.log == old(tools.log) + run.events
        && (ok <==> run.lines.Some?)
        && (ok ==> run.lines == Some(lines))
    {
      ghost var k := |tools.log|;
      lines := [];
      var i := 0;
      while i < |items|
        invariant 0 <= i <= |items|
        invariant tools.log == old(tools.log) + RunPrefix(items, i, step, k).events
        invariant RunPrefix(items, i, step, k).lines == Some(lines)
      {
        ghost var pre := RunPrefix(items, i, step, k);
        ghost var at := |tools.log|;
        ghost var st := step(items[i], at);
        PrefixStep(items, i, step, k, pre, at, st);
        LogAppend(old(tools.log), pre.events, st.events);
        var line := ExecuteAction(items[i], step);
        if line.Fault? {
          return lines, false;
        }
        if line.Emit? {
          lines := lines + [line.text];
        }
        i := i + 1;
      }
      ok := true;
    }

    /** `_try_parse_and_execute(reply)`: the transcript and `True` for a plan
        that ran through, the reply and `False` otherwise; the collaborator
        calls made stay in the log either way. */
    method TryParseAndExecute(reply: string) returns (text: string, performed: bool)
      modifies tools
      ensures var a := ParseAndExecute(reply, decode, Executor(tools.respond), |old(tools.log)|);
        text == a.text && performed == a.performed && tools.log == old(tools.log) + a.events
    {
      ghost var k := |tools.log|;
      ghost var step := Executor(tools.respond);
      var start := Find(reply, '{');
      var end := RFind(reply, '}') + 1;
      var decoded := decode(PySlice(reply, start, end));
      if decoded.None? {
        UndecodableNoPlan(reply, decode, step, k);
        return reply, false;
      }
      var out := decoded.value;
      var actions := Get(out, "actions", JArray([]));
      var results := [Header(Get(out, "explanation", JString("")))];
      var iterated := Iterate(actions);
      if iterated.None? {
        NotIterableNoPlan(reply, decode, step, k, out);
        return reply, false;
      }
      var items := iterated.value;
      ExecutorExecutes(tools.respond);
      var lines, ok := ExecuteActions(items, step);
      var run := RunActions(items, step, k);
      if !ok {
        DecodedPlanRaises(reply, decode, step, k, out, items, run.events);
        return reply, false;
      }
      DecodedPlanPerformed(reply, decode, step, k, out, items, run.events, lines);
      results := results + lines;
      return Join("\n", results), true;
    }

    /** `ask(prompt, max_tokens)`: sends the system prompt, the history and the
        prompt to the pool; on a reply, runs its plan and records the turn with
        what the user is shown; when the pool raises, nothing else happens. */
    method Ask(prompt: string, maxTokens: int, backend: Backend) returns (r: Result<string, Failure>)
      requires Valid()
      modifies this, llm, tools
      ensures Valid()
      ensures var c := Failover(backend, Request(Dialogue(old(history), prompt), maxTokens),
                                old(llm.current), |llm.providers|);
        && llm.current == c.cursor
        && llm.calls == old(llm.calls) + c.attempts
        && (c.result.Err? ==>
              r == Err(c.result.error) && history == old(history) && tools.log == old(tools.log))
        && (c.result.Ok? ==>
              var a := ParseAndExecute(c.result.value, decode, Executor(tools.respond), |old(tools.log)|);
              && r == Ok(if a.performed then a.text else c.result.value)
              && history == old(history) + [Message(User, prompt), Message(Assistant, r.value)]
              && tools.log == old(tools.log) + a.events)
    {
      var messages := Dialogue(history, prompt);
      var reply := llm.Chat(Request(messages, maxTokens), backend);
      if reply.Err? {
        return Err(reply.error);
      }
      var result, performed := TryParseAndExecute(reply.value);
      var shown := if performed then result else reply.value;
      TurnKeepsAlternation(history, prompt, shown);
      history := history + [Message(User, prompt), Message(Assistant, shown)];
      return Ok(shown);
    }
  }
}
