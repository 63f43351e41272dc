/**
 * The action plan a model reply may carry, and what executing it does.
 *
 * A reply is searched for the text from its first `{` to its last `}`; that
 * text is decoded, and its "actions" are run one after another against three
 * collaborators (files, git, web search). The collaborators are seen only
 * through the calls made to them and what each call returned or raised.
 */
module Plan {
  import opened Wrappers
  import opened Text
  import opened JsonValue

  /** A call into a collaborator, with the (undecoded) arguments it was given. */
  datatype Call =
    | ReadFile(path: Json)
    | WriteFile(path: Json, content: Json)
    | StageFiles(paths: string)
    | Commit(message: Json)
    | Search(query: Json)

  /** What a collaborator call did: returned a value (shown as text), or raised.
      `Raised` stands for an `Exception`: a `KeyboardInterrupt` or `SystemExit`
      raised inside a collaborator escapes `except Exception` and `ask`, and is
      not modelled. */
  datatype Reply = Returned(value: string) | Raised

  /** One entry of the effect trace: a call made and its reply. */
  datatype Event = Event(call: Call, reply: Reply)

  /** The outside world: the reply to the n-th collaborator call. */
  type World = nat -> Reply

  /** The collaborators `file_ops`, `git_ops` and `web_search`, seen as one
      effect log. A call, once made, stays in the log whatever happens next. */
  class Collaborators {
    const respond: World
    var log: seq<Event>

    constructor (respond: World)
      ensures this.respond == respond && log == []
    {
      this.respond := respond;
      log := [];
    }

    method Invoke(call: Call) returns (reply: Reply)
      modifies this
      ensures reply == respond(|old(log)|)
      ensures log == old(log) + [Event(call, reply)]
    {
      reply := respond(|log|);
      log := log + [Event(call, reply)];
    }
  }

  /** `reply[reply.find("{"):reply.rfind("}") + 1]`. */
  function JsonSpan(reply: string): (r: string)
    ensures |r| <= |reply|
    ensures r != [] ==> r[|r| - 1] == '}'
  {
    PySlice(reply, Find(reply, '{'), RFind(reply, '}') + 1)
  }

  /** The span is exactly the text from the first `{` to the last `}`
      inclusive when the last `}` follows the first `{`; it is empty when the
      braces come the other way round; and without any `{` it is empty or a
      lone `}` (Python reads `reply[-1:...]` from the last character). */
  lemma JsonSpanCases(reply: string)
    ensures var i, j := Find(reply, '{'), RFind(reply, '}');
      && (0 <= i < j ==> JsonSpan(reply) == reply[i..j + 1])
      && (0 <= i < j ==> JsonSpan(reply)[0] == '{' && JsonSpan(reply)[|JsonSpan(reply)| - 1] == '}')
      && (0 <= i && j < i ==> JsonSpan(reply) == [])
      && (i < 0 ==> JsonSpan(reply) == [] || JsonSpan(reply) == "}")
  {
    var i, j := Find(reply, '{'), RFind(reply, '}');
    if 0 <= i < j {
      BracedSpan(reply);
    } else if i < 0 {
      UnopenedSpan(reply);
    }
  }

  lemma BracedSpan(reply: string)
    requires 0 <= Find(reply, '{') < RFind(reply, '}')
    ensures JsonSpan(reply) == reply[Find(reply, '{')..RFind(reply, '}') + 1]
    ensures JsonSpan(reply)[0] == '{' && JsonSpan(reply)[|JsonSpan(reply)| - 1] == '}'
  {
  }

  lemma UnopenedSpan(reply: string)
    requires Find(reply, '{') < 0
    ensures JsonSpan(reply) == [] || JsonSpan(reply) == "}"
  {
    if |reply| > 0 && RFind(reply, '}') == |reply| - 1 {
      assert JsonSpan(reply) == reply[|reply| - 1..|reply|];
      assert JsonSpan(reply) == [reply[|reply| - 1]];
    }
  }

  /** The transcript's first line. */
  function Header(explanation: Json): string {
    "**Agent Plan:** " + Str(explanation) + "\n"
  }

  /** The header line starts with "**Agent Plan:** ", shows the explanation
      right after it, and ends the line. */
  lemma HeaderShape(explanation: Json)
    ensures var h := Header(explanation);
      StartsWith(h, "**Agent Plan:** ") && OccursAt(h, Str(explanation), 16) && h[|h| - 1] == '\n'
  {
  }

  /** The line for a read. Only the path is shown: the content read is not. */
  function ReadLine(path: Json): string {
    "\U{1F539} Read `" + Str(path) + "`:\n``````"
  }

  /** The line for a write: the path written, not the content. */
  function WriteLine(path: Json): string {
    "\U{2705} Wrote `" + Str(path) + "`."
  }

  /** The line for a commit: the message. */
  function CommitLine(message: Json): string {
    "\U{2705} Git commit: " + Str(message)
  }

  /** The line for a search: the query, then the answer on the lines after it. */
  function SearchLine(query: Json, answer: string): string {
    "\U{1F310} Web search for '" + Str(query) + "':\n" + answer + "\n"
  }

  /** The line for a read starts with its marker and shows the path. */
  lemma ReadLineShape(path: Json)
    ensures var l := ReadLine(path); StartsWith(l, "\U{1F539} Read `") && OccursAt(l, Str(path), 8)
  {
  }

  /** The line for a write starts with its marker and shows the path. */
  lemma WriteLineShape(path: Json)
    ensures var l := WriteLine(path); StartsWith(l, "\U{2705} Wrote `") && OccursAt(l, Str(path), 9)
  {
  }

  /** The line for a commit starts with its marker and ends with the message. */
  lemma CommitLineShape(message: Json)
    ensures var l := CommitLine(message); StartsWith(l, "\U{2705} Git commit: ") && EndsWith(l, Str(message))
  {
  }

  /** The line for a search starts with its marker, shows the query, and ends
      with the answer on a line of its own. */
  lemma SearchLineShape(query: Json, answer: string)
    ensures var l := SearchLine(query, answer);
      && StartsWith(l, "\U{1F310} Web search for '") && OccursAt(l, Str(query), 18)
      && EndsWith(l, answer + "\n")
  {
  }

  /** The action types the executor acts on; any other is ignored. */
  const ActionTypes: seq<string> := ["read_file", "write_file", "git_commit", "web_search"]

  /** One element of "actions", read against the schema the system prompt gives. */
  datatype Action =
    | ReadFileAction(path: Json)
    | WriteFileAction(path: Json, content: Json)
    | GitCommitAction(message: Json)
    | WebSearchAction(query: Json)
    | Unrecognized(tag: Json)

  /** The schema reading of one element: `None` when the element is not a dict,
      lacks "type", or lacks a field its type needs. */
  function Validate(item: Json): Option<Action> {
    var tag := Subscript(item, "type");
    var path, content := Subscript(item, "path"), Subscript(item, "content");
    var message, query := Subscript(item, "message"), Subscript(item, "query");
    if tag.None? then None
    else if tag.value == JString("read_file") then
      (if path.None? then None else Some(ReadFileAction(path.value)))
    else if tag.value == JString("write_file") then
      (if path.None? || content.None? then None else Some(WriteFileAction(path.value, content.value)))
    else if tag.value == JString("git_commit") then
      (if message.None? then None else Some(GitCommitAction(message.value)))
    else if tag.value == JString("web_search") then
      (if query.None? then None else Some(WebSearchAction(query.value)))
    else Some(Unrecognized(tag.value))
  }

  /** The schema reading of an element: it is read as an action only if it
      has a "type", and as one of the four actions only if its "type" names
      that action and it has the fields that action needs; any other "type"
      is kept as it is, and is none of the four. */
  lemma ValidateSchema(item: Json)
    ensures var r, tag := Validate(item), Subscript(item, "type");
      && (tag.None? ==> r.None?)
      && (r.Some? && r.value.ReadFileAction? ==>
            tag == Some(JString("read_file")) && Subscript(item, "path") == Some(r.value.path))
      && (r.Some? && r.value.WriteFileAction? ==>
            && tag == Some(JString("write_file"))
            && Subscript(item, "path") == Some(r.value.path) && Subscript(item, "content") == Some(r.value.content))
      && (r.Some? && r.value.GitCommitAction? ==>
            tag == Some(JString("git_commit")) && Subscript(item, "message") == Some(r.value.message))
      && (r.Some? && r.value.WebSearchAction? ==>
            tag == Some(JString("web_search")) && Subscript(item, "query") == Some(r.value.query))
      && (r.Some? && r.value.Unrecognized? ==>
            tag == Some(r.value.tag) && forall t :: t in ActionTypes ==> r.value.tag != JString(t))
  {
  }

  /** What one action adds to the transcript. */
  datatype Line = Emit(text: string) | Skip | Fault

  /** One action's collaborator calls, in order, and its transcript line. */
  datatype Step = Step(events: seq<Event>, line: Line)

  /** Carrying out a well-formed action, the k-th collaborator call so far
      being answered by `world(k)`. A commit stages "." first and commits only
      if staging returned. */
  function Perform(a: Action, world: World, k: nat): Step {
    match a
    case ReadFileAction(p) =>
      var e := Event(ReadFile(p), world(k));
      Step([e], if e.reply.Raised? then Fault else Emit(ReadLine(p)))
    case WriteFileAction(p, c) =>
      var e := Event(WriteFile(p, c), world(k));
      Step([e], if e.reply.Raised? then Fault else Emit(WriteLine(p)))
    case GitCommitAction(m) =>
      var s := Event(StageFiles("."), world(k));
      if s.reply.Raised? then Step([s], Fault)
      else
        var c := Event(Commit(m), world(k + 1));
        Step([s, c], if c.reply.Raised? then Fault else Emit(CommitLine(m)))
    case WebSearchAction(q) =>
      var e := Event(Search(q), world(k));
      Step([e], if e.reply.Raised? then Fault else Emit(SearchLine(q, e.reply.value)))
    case Unrecognized(_) => Step([], Skip)
  }

  /** An action of a known type makes one or two calls, the i-th answered by
      `world(k + i)`, and fails exactly when its last call raised; an
      unrecognized one makes none and is skipped. */
  lemma PerformCalls(a: Action, world: World, k: nat)
    ensures var r := Perform(a, world, k);
      && (a.Unrecognized? <==> r.line.Skip?)
      && (a.Unrecognized? ==> r.events == [])
      && (!a.Unrecognized? ==> 1 <= |r.events| <= 2 && (r.line.Fault? <==> r.events[|r.events| - 1].reply.Raised?))
      && (forall i :: 0 <= i < |r.events| ==> r.events[i].reply == world(k + i))
  {
  }

  /** The calls a malformed element still makes before it raises: a git_commit
      element stages "." before its "message" is looked up. */
  function MalformedEvents(item: Json, world: World, k: nat): seq<Event> {
    if Subscript(item, "type") == Some(JString("git_commit")) then [Event(StageFiles("."), world(k))] else []
  }

  /** One element of "actions" as the executor handles it. */
  function StepOf(item: Json, world: World, k: nat): Step {
    match Validate(item)
    case Some(a) => Perform(a, world, k)
    case None => Step(MalformedEvents(item, world, k), Fault)
  }

  /** An element makes at most two calls, the i-th answered by `world(k + i)`;
      a malformed one raises after at most one, the staging of a git_commit
      element; a skipped one makes none. */
  lemma StepCalls(item: Json, world: World, k: nat)
    ensures var r, bad := StepOf(item, world, k), MalformedEvents(item, world, k);
      && |r.events| <= 2
      && (Validate(item).None? ==> r.line.Fault? && r.events == bad)
      && |bad| <= 1
      && (bad != [] ==> bad[0] == Event(StageFiles("."), world(k)))
      && (Subscript(item, "type") != Some(JString("git_commit")) ==> bad == [])
      && (r.line.Skip? ==> r.events == [])
      && (forall i :: 0 <= i < |r.events| ==> r.events[i].reply == world(k + i))
  {
    if Validate(item).Some? {
      PerformCalls(Validate(item).value, world, k);
    }
  }

  /** The calls made and, unless some element raised, the lines collected. */
  datatype Run = Run(events: seq<Event>, lines: Option<seq<string>>)

  /** A run followed by one more element's step. Once an element has raised,
      nothing more runs. */
  function Extend(pre: Run, st: Step): Run {
    if pre.lines.None? then pre
    else match st.line
      case Fault => Run(pre.events + st.events, None)
      case Skip => Run(pre.events + st.events, pre.lines)
      case Emit(t) => Run(pre.events + st.events, Some(pre.lines.value + [t]))
  }

  /** How each element is handled, given the number of calls made before it. */
  type Stepper = (Json, nat) -> Step

  /** The executor's handling of elements in the world `world`. */
  function Executor(world: World): Stepper {
    (item: Json, n: nat) => StepOf(item, world, n)
  }

  /** The loop over the first `n` elements of "actions": elements are handled
      in order; the first one that raises ends the loop, its calls and the
      earlier ones' staying made. */
  function RunPrefix(items: seq<Json>, n: nat, step: Stepper, k: nat): (r: Run)
    requires n <= |items|
    ensures r.lines.Some? ==> |r.lines.value| <= n
  {
    if n == 0 then Run([], Some([]))
    else
      var pre := RunPrefix(items, n - 1, step, k);
      Extend(pre, step(items[n - 1], k + |pre.events|))
  }

  /** The loop over all of "actions". */
  function RunActions(items: seq<Json>, step: Stepper, k: nat): (r: Run)
    ensures r.lines.Some? ==> |r.lines.value| <= |items|
  {
    RunPrefix(items, |items|, step, k)
  }

  /** The result of `_try_parse_and_execute(reply)` and the calls it made. */
  datatype Attempt = Attempt(text: string, performed: bool, events: seq<Event>)

  /** `_try_parse_and_execute`, each element being handled by `step` (the
      agent's is `Executor` of its collaborators' world): a decoded plan gives
      the "\n"-joined header and action lines and `performed`; anything that
      raises gives back the reply. */
  function ParseAndExecute(reply: string, decode: Decoder, step: Stepper, k: nat): (r: Attempt)
    ensures !r.performed ==> r.text == reply
  {
    match decode(JsonSpan(reply))
    case None => Attempt(reply, false, [])
    case Some(out) =>
      var header := Header(Get(out, "explanation", JString("")));
      match Iterate(Get(out, "actions", JArray([])))
      case None => Attempt(reply, false, [])
      case Some(items) =>
        var run := RunActions(items, step, k);
        if run.lines.None? then Attempt(reply, false, run.events)
        else Attempt(Join("\n", [header] + run.lines.value), true, run.events)
  }

  // ---------------------------------------------------------------------
  // Properties of the parser

  /** A reply without `{` carries no plan: the reply comes back unchanged and no
      collaborator is called. */
  lemma NoOpeningBraceNoPlan(reply: string, decode: Decoder, step: Stepper, k: nat)
    requires '{' !in reply
    requires BraceBound(decode)
    ensures ParseAndExecute(reply, decode, step, k) == Attempt(reply, false, [])
  {
    JsonSpanCases(reply);
    var span := JsonSpan(reply);
    assert '{' !in span;
  }

  /** A span that does not decode to a dict carries no plan. */
  lemma UndecodableNoPlan(reply: string, decode: Decoder, step: Stepper, k: nat)
    requires decode(JsonSpan(reply)).None?
    ensures ParseAndExecute(reply, decode, step, k) == Attempt(reply, false, [])
  {
  }

  /** The first part of a join is a prefix of it. */
  lemma {:induction false} JoinStartsWithFirst(sep: string, parts: seq<string>)
    requires |parts| > 0
    ensures StartsWith(Join(sep, parts), parts[0])
  {
    if |parts| > 1 {
      assert Join(sep, parts) == parts[0] + (sep + Join(sep, parts[1..]));
    }
  }

  /** A performed plan's text starts with the "**Agent Plan:** " header (the
      CLI tells plans from conversation by this prefix), and came from a
      span that decoded; a plan not performed gives back the reply itself. */
  lemma PerformedPlanStartsWithHeader(reply: string, decode: Decoder, step: Stepper, k: nat)
    ensures var a := ParseAndExecute(reply, decode, step, k);
      && (a.performed ==> decode(JsonSpan(reply)).Some? && StartsWith(a.text, "**Agent Plan:** "))
      && (!a.performed ==> a.text == reply)
  {
    var a := ParseAndExecute(reply, decode, step, k);
    if a.performed {
      var out := decode(JsonSpan(reply)).value;
      var header := Header(Get(out, "explanation", JString("")));
      var items := Iterate(Get(out, "actions", JArray([]))).value;
      var parts := [header] + RunActions(items, step, k).lines.value;
      JoinStartsWithFirst("\n", parts);
      assert StartsWith(header, "**Agent Plan:** ");
      assert a.text[..|header|] == header;
    }
  }

  /** A decoded dict without "actions" gives the header line alone, performed,
      with no collaborator called. */
  lemma MissingActionsHeaderOnly(reply: string, decode: Decoder, step: Stepper, k: nat, out: Object)
    requires decode(JsonSpan(reply)) == Some(out)
    requires Lookup(out, "actions").None?
    ensures ParseAndExecute(reply, decode, step, k)
         == Attempt(Header(Get(out, "explanation", JString(""))), true, [])
  {
    assert Iterate(JArray([])) == Some([]);
  }

  // ---------------------------------------------------------------------
  // Properties of the executor

  /** An element whose "type" is none of the four action types calls no
      collaborator and adds no line: the run is as if it were not there. */
  lemma UnknownTypeIgnored(items: seq<Json>, p: nat, world: World, k: nat)
    requires p < |items|
    requires Subscript(items[p], "type").Some?
    requires forall t :: t in ActionTypes ==> Subscript(items[p], "type").value != JString(t)
    ensures StepOf(items[p], world, k) == Step([], Skip)
    ensures RunPrefix(items, p + 1, Executor(world), k) == RunPrefix(items, p, Executor(world), k)
  {
    var item := items[p];
    assert "read_file" in ActionTypes && "write_file" in ActionTypes;
    assert "git_commit" in ActionTypes && "web_search" in ActionTypes;
    assert Validate(item) == Some(Unrecognized(Subscript(item, "type").value));
    var pre := RunPrefix(items, p, Executor(world), k);
    ExecutorSteps(world, item, k + |pre.events|);
  }

  /** A git_commit element always stages "." first, before anything else can
      raise; the commit, if any, is the only other call. */
  lemma CommitStagesFirst(item: Json, world: World, k: nat)
    requires Subscript(item, "type") == Some(JString("git_commit"))
    ensures var st := StepOf(item, world, k);
      && 1 <= |st.events| <= 2
      && st.events[0] == Event(StageFiles("."), world(k))
      && (|st.events| == 2 ==> st.events[1] == Event(Commit(Subscript(item, "message").value), world(k + 1)))
  {
  }

  /** The executor handles each element as `StepOf` says. */
  lemma ExecutorSteps(world: World, item: Json, n: nat)
    ensures Executor(world)(item, n) == StepOf(item, world, n)
  {
  }

  /** `step` handles every element as the executor does in `world`. */
  ghost predicate Executes(step: Stepper, world: World) {
    forall item: Json, n: nat {:trigger StepOf(item, world, n)} :: step(item, n) == StepOf(item, world, n)
  }

  /** The executor of a world executes in it. */
  lemma ExecutorExecutes(world: World)
    ensures Executes(Executor(world), world)
  {
    forall item: Json, n: nat ensures Executor(world)(item, n) == StepOf(item, world, n) {
      ExecutorSteps(world, item, n);
    }
  }

  /** Once an element has raised, later elements change nothing. */
  lemma {:induction false} FaultIsFinal(items: seq<Json>, i: nat, j: nat, step: Stepper, k: nat)
    requires i <= j <= |items|
    requires RunPrefix(items, i, step, k).lines.None?
    ensures RunPrefix(items, j, step, k) == RunPrefix(items, i, step, k)
    decreases j
  {
    if i < j {
      FaultIsFinal(items, i, j - 1, step, k);
    }
  }

  /** Calls are never undone: the calls of a shorter run are a prefix of the
      calls of a longer one. */
  lemma {:induction false} EarlierCallsKept(items: seq<Json>, i: nat, j: nat, step: Stepper, k: nat)
    requires i <= j <= |items|
    ensures var small, big := RunPrefix(items, i, step, k).events, RunPrefix(items, j, step, k).events;
      |small| <= |big| && big[..|small|] == small
    decreases j
  {
    if i < j {
      EarlierCallsKept(items, i, j - 1, step, k);
      var mid := RunPrefix(items, j - 1, step, k).events;
      var small := RunPrefix(items, i, step, k).events;
      var big := RunPrefix(items, j, step, k).events;
      assert big[..|mid|] == mid;
      assert big[..|small|] == mid[..|small|];
    }
  }

  /** An element that raises after a clean run ends the run, keeping the
      calls made so far and its own; nothing after it runs. */
  lemma RunFaultsAt(items: seq<Json>, p: nat, step: Stepper, k: nat)
    requires p < |items|
    requires RunPrefix(items, p, step, k).lines.Some?
    requires step(items[p], k + |RunPrefix(items, p, step, k).events|).line.Fault?
    ensures RunActions(items, step, k)
         == Run(RunPrefix(items, p, step, k).events
                + step(items[p], k + |RunPrefix(items, p, step, k).events|).events, None)
  {
    FaultIsFinal(items, p + 1, |items|, step, k);
  }

  /** A decoded plan whose run raised gives back the reply, with the run's calls. */
  lemma DecodedPlanRaises(reply: string, decode: Decoder, step: Stepper, k: nat,
                          out: Object, items: seq<Json>, events: seq<Event>)
    requires decode(JsonSpan(reply)) == Some(out)
    requires Iterate(Get(out, "actions", JArray([]))) == Some(items)
    requires RunActions(items, step, k) == Run(events, None)
    ensures ParseAndExecute(reply, decode, step, k) == Attempt(reply, false, events)
  {
  }

  /** A decoded plan whose "actions" cannot be iterated gives back the reply,
      no collaborator called. */
  lemma NotIterableNoPlan(reply: string, decode: Decoder, step: Stepper, k: nat, out: Object)
    requires decode(JsonSpan(reply)) == Some(out)
    requires Iterate(Get(out, "actions", JArray([]))).None?
    ensures ParseAndExecute(reply, decode, step, k) == Attempt(reply, false, [])
  {
  }

  /** A decoded plan whose run raised nowhere is performed: its text is the
      header and the run's lines, joined by newlines. */
  lemma DecodedPlanPerformed(reply: string, decode: Decoder, step: Stepper, k: nat,
                             out: Object, items: seq<Json>, events: seq<Event>, lines: seq<string>)
    requires decode(JsonSpan(reply)) == Some(out)
    requires Iterate(Get(out, "actions", JArray([]))) == Some(items)
    requires RunActions(items, step, k) == Run(events, Some(lines))
    ensures ParseAndExecute(reply, decode, step, k)
         == Attempt(Join("\n", [Header(Get(out, "explanation", JString("")))] + lines), true, events)
  {
  }

  /** When an element raises after earlier elements ran cleanly, the whole
      transcript is dropped and the reply comes back, while the earlier
      elements' calls and the failing element's own calls stay made. */
  lemma FaultMidPlanFallsBack(reply: string, decode: Decoder, step: Stepper, k: nat,
                              out: Object, items: seq<Json>, p: nat)
    requires decode(JsonSpan(reply)) == Some(out)
    requires Iterate(Get(out, "actions", JArray([]))) == Some(items)
    requires p < |items|
    requires RunPrefix(items, p, step, k).lines.Some?
    requires step(items[p], k + |RunPrefix(items, p, step, k).events|).line.Fault?
    ensures ParseAndExecute(reply, decode, step, k)
         == Attempt(reply, false, RunPrefix(items, p, step, k).events
                                  + step(items[p], k + |RunPrefix(items, p, step, k).events|).events)
  {
    var pre := RunPrefix(items, p, step, k);
    var st := step(items[p], k + |pre.events|);
    RunFaultsAt(items, p, step, k);
    DecodedPlanRaises(reply, decode, step, k, out, items, pre.events + st.events);
  }

  /** "actions" given as a non-empty dict is iterated as its keys, strings
      that cannot be subscripted by "type": the first one raises before any
      call, and the reply comes back with no collaborator called. */
  lemma DictActionsFallBack(reply: string, decode: Decoder, world: World, k: nat, out: Object, d: Object)
    requires DecodesWellFormed(decode)
    requires decode(JsonSpan(reply)) == Some(out)
    requires Get(out, "actions", JArray([])) == JObject(d)
    requires d.members != map[]
    ensures ParseAndExecute(reply, decode, Executor(world), k) == Attempt(reply, false, [])
  {
    var step := Executor(world);
    assert WellFormedValue(JObject(out));
    assert "actions" in out.members;
    assert WellFormedValue(JObject(d));
    IterateDictKeys(d);
    var items := Iterate(JObject(d)).value;
    var key :| key in d.members;
    assert JString(key) in items;
    assert items[0].JString?;
    ExecutorSteps(world, items[0], k);
    assert step(items[0], k) == Step([], Fault);
    RunFaultsAt(items, 0, step, k);
    DecodedPlanRaises(reply, decode, step, k, out, items, []);
  }

  /** An element adds a line only if it is a well-formed action of a known
      type, and is skipped only if its type is not one of them; a malformed
      element raises. */
  lemma StepLine(item: Json, world: World, n: nat)
    ensures var st, a := StepOf(item, world, n), Validate(item);
      && (st.line.Skip? <==> a.Some? && a.value.Unrecognized?)
      && (st.line.Emit? ==> a.Some? && !a.value.Unrecognized?)
      && (a.None? ==> st.line.Fault?)
  {
  }

  /** An element of a known action type, well formed. */
  predicate Known(item: Json) {
    var a := Validate(item);
    a.Some? && !a.value.Unrecognized?
  }

  /** An element that names no action type or lacks a field its type needs. */
  predicate Malformed(item: Json) {
    Validate(item).None?
  }

  /** The number of the first `n` elements satisfying `p`. */
  function Count(items: seq<Json>, n: nat, p: Json -> bool): nat
    requires n <= |items|
    ensures Count(items, n, p) <= n
  {
    if n == 0 then 0
    else Count(items, n - 1, p) + if p(items[n - 1]) then 1 else 0
  }

  /** A run in which nothing raised has one line per element whose step
      emits, and holds no element whose step always raises. */
  lemma {:induction false} CleanRunLines(items: seq<Json>, n: nat, step: Stepper, k: nat,
                                         emits: Json -> bool, raises: Json -> bool)
    requires n <= |items|
    requires forall item: Json, m: nat ::
      && (step(item, m).line.Emit? ==> emits(item))
      && (step(item, m).line.Skip? ==> !emits(item))
      && (raises(item) ==> step(item, m).line.Fault?)
    requires RunPrefix(items, n, step, k).lines.Some?
    ensures |RunPrefix(items, n, step, k).lines.value| == Count(items, n, emits)
    ensures forall i :: 0 <= i < n ==> !raises(items[i])
    decreases n
  {
    if n > 0 {
      CleanRunLines(items, n - 1, step, k, emits, raises);
    }
  }

  /** A run that raised nowhere read every element as well formed and has one
      line per element of a known type. */
  lemma OneLinePerKnownAction(items: seq<Json>, world: World, k: nat)
    requires RunActions(items, Executor(world), k).lines.Some?
    ensures |RunActions(items, Executor(world), k).lines.value| == Count(items, |items|, Known)
    ensures forall i :: 0 <= i < |items| ==> !Malformed(items[i])
  {
    var step := Executor(world);
    forall item: Json, m: nat
      ensures && (step(item, m).line.Emit? ==> Known(item))
              && (step(item, m).line.Skip? ==> !Known(item))
              && (Malformed(item) ==> step(item, m).line.Fault?)
    {
      ExecutorSteps(world, item, m);
      StepLine(item, world, m);
    }
    CleanRunLines(items, |items|, step, k, Known, Malformed);
  }

  /** A clean run extended by a step that emits gains its calls and its line. */
  lemma ExtendEmit(pre: Run, st: Step, events: seq<Event>, lines: seq<string>, more: seq<Event>, line: string)
    requires pre == Run(events, Some(lines))
    requires st == Step(more, Emit(line))
    ensures Extend(pre, st) == Run(events + more, Some(lines + [line]))
  {
  }

  /** A clean run followed by an element that emits a line. */
  lemma PrefixEmit(items: seq<Json>, n: nat, step: Stepper, k: nat,
                   events: seq<Event>, lines: seq<string>, more: seq<Event>, line: string)
    requires n < |items|
    requires RunPrefix(items, n, step, k) == Run(events, Some(lines))
    requires step(items[n], k + |events|) == Step(more, Emit(line))
    ensures RunPrefix(items, n + 1, step, k) == Run(events + more, Some(lines + [line]))
  {
    ExtendEmit(RunPrefix(items, n, step, k), step(items[n], k + |events|), events, lines, more, line);
  }

  /** Appending to the log in two steps or in one gives the same log. */
  lemma LogAppend(log: seq<Event>, first: seq<Event>, second: seq<Event>)
    ensures log + first + second == log + (first + second)
  {
  }

  /** One more element after a clean run: an element that raises ends the
      run with its calls; one that emits adds its calls and its line; one
      that is skipped adds its calls only. */
  lemma PrefixStep(items: seq<Json>, n: nat, step: Stepper, k: nat, pre: Run, at: nat, st: Step)
    requires n < |items|
    requires RunPrefix(items, n, step, k) == pre && pre.lines.Some?
    requires at == k + |pre.events| && step(items[n], at) == st
    ensures st.line.Fault? ==> RunActions(items, step, k) == Run(pre.events + st.events, None)
    ensures st.line.Emit? ==>
      RunPrefix(items, n + 1, step, k) == Run(pre.events + st.events, Some(pre.lines.value + [st.line.text]))
    ensures st.line.Skip? ==> RunPrefix(items, n + 1, step, k) == Run(pre.events + st.events, pre.lines)
  {
    if st.line.Fault? {
      RunFaultsAt(items, n, step, k);
    }
  }

  /** Four elements that each emit a line, the third after two calls and the
      others after one, run to the four lines and the five calls, in order. */
  lemma RunOfFourEmits(items: seq<Json>, step: Stepper, k: nat,
                       e0: Event, e1: Event, e2: Event, e3: Event, e4: Event,
                       l0: string, l1: string, l2: string, l3: string)
    requires |items| == 4
    requires step(items[0], k) == Step([e0], Emit(l0))
    requires step(items[1], k + 1) == Step([e1], Emit(l1))
    requires step(items[2], k + 2) == Step([e2, e3], Emit(l2))
    requires step(items[3], k + 4) == Step([e4], Emit(l3))
    ensures RunActions(items, step, k) == Run([e0, e1, e2, e3, e4], Some([l0, l1, l2, l3]))
  {
    PrefixEmit(items, 0, step, k, [], [], [e0], l0);
    assert [] + [e0] == [e0] && [] + [l0] == [l0];
    PrefixEmit(items, 1, step, k, [e0], [l0], [e1], l1);
    assert [e0] + [e1] == [e0, e1] && [l0] + [l1] == [l0, l1];
    PrefixEmit(items, 2, step, k, [e0, e1], [l0, l1], [e2, e3], l2);
    assert [e0, e1] + [e2, e3] == [e0, e1, e2, e3] && [l0, l1] + [l2] == [l0, l1, l2];
    PrefixEmit(items, 3, step, k, [e0, e1, e2, e3], [l0, l1, l2], [e4], l3);
    assert [e0, e1, e2, e3] + [e4] == [e0, e1, e2, e3, e4] && [l0, l1, l2] + [l3] == [l0, l1, l2, l3];
  }

  /** The four-action plan of the system prompt, every call returning: one
      header and four lines, in plan order, and five calls in that order. */
  lemma FourActionPlan(world: World, k: nat, r: Json, w: Json, c: Json, s: Json,
                       path: Json, target: Json, content: Json, message: Json, query: Json)
    requires Validate(r) == Some(ReadFileAction(path))
    requires Validate(w) == Some(WriteFileAction(target, content))
    requires Validate(c) == Some(GitCommitAction(message))
    requires Validate(s) == Some(WebSearchAction(query))
    requires forall n :: k <= n < k + 5 ==> world(n).Returned?
    ensures RunActions([r, w, c, s], Executor(world), k)
         == Run([Event(ReadFile(path), world(k)), Event(WriteFile(target, content), world(k + 1)),
                 Event(StageFiles("."), world(k + 2)), Event(Commit(message), world(k + 3)),
                 Event(Search(query), world(k + 4))],
                Some([ReadLine(path), WriteLine(target), CommitLine(message),
                      SearchLine(query, world(k + 4).value)]))
  {
    var items := [r, w, c, s];
    FourStepsReturn(world, k, r, w, c, s, path, target, content, message, query);
    assert items[0] == r && items[1] == w && items[2] == c && items[3] == s;
    RunOfFourEmits(items, Executor(world), k,
                   Event(ReadFile(path), world(k)), Event(WriteFile(target, content), world(k + 1)),
                   Event(StageFiles("."), world(k + 2)), Event(Commit(message), world(k + 3)),
                   Event(Search(query), world(k + 4)),
                   ReadLine(path), WriteLine(target), CommitLine(message), SearchLine(query, world(k + 4).value));
  }

  /** The four actions' steps when every call returns. */
  lemma FourStepsReturn(world: World, k: nat, r: Json, w: Json, c: Json, s: Json,
                        path: Json, target: Json, content: Json, message: Json, query: Json)
    requires Validate(r) == Some(ReadFileAction(path))
    requires Validate(w) == Some(WriteFileAction(target, content))
    requires Validate(c) == Some(GitCommitAction(message))
    requires Validate(s) == Some(WebSearchAction(query))
    requires forall n :: k <= n < k + 5 ==> world(n).Returned?
    ensures Executor(world)(r, k) == Step([Event(ReadFile(path), world(k))], Emit(ReadLine(path)))
    ensures Executor(world)(w, k + 1) == Step([Event(WriteFile(target, content), world(k + 1))], Emit(WriteLine(target)))
    ensures Executor(world)(c, k + 2)
         == Step([Event(StageFiles("."), world(k + 2)), Event(Commit(message), world(k + 3))], Emit(CommitLine(message)))
    ensures Executor(world)(s, k + 4)
         == Step([Event(Search(query), world(k + 4))], Emit(SearchLine(query, world(k + 4).value)))
  {
    assert world(k).Returned? && world(k + 1).Returned? && world(k + 2).Returned?;
    assert world(k + 3).Returned? && world(k + 4).Returned?;
    ValidStep(r, world, k, ReadFileAction(path));
    ValidStep(w, world, k + 1, WriteFileAction(target, content));
    ValidStep(c, world, k + 2, GitCommitAction(message));
    ValidStep(s, world, k + 4, WebSearchAction(query));
  }

  /** A well-formed element is carried out as its action says. */
  lemma ValidStep(item: Json, world: World, n: nat, a: Action)
    requires Validate(item) == Some(a)
    ensures Executor(world)(item, n) == Perform(a, world, n)
  {
  }
}
