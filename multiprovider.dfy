/**
 * The provider pool: an ordered list of language-model providers and a cursor
 * that selects the active one. `Chat` calls the active provider and, when it
 * raises a RuntimeError (quota, rate limit, unavailability), moves the cursor
 * to the next provider (modulo the pool size) and retries, trying each
 * provider at most once per call.
 */
module ProviderPool {
  import opened Wrappers

  datatype Role = System | User | Assistant

  /** One chat message `{"role": ..., "content": ...}`. */
  datatype Message = Message(role: Role, content: string)

  /** The arguments of `provider.chat(messages, max_tokens)`. */
  datatype Request = Request(messages: seq<Message>, maxTokens: int)

  /** An exception: a RuntimeError (recoverable by failover) or any other kind.
      `message` is what `str()` of the exception gives. */
  datatype Failure = RuntimeError(message: string) | OtherError(message: string)

  /** What one provider call does: returns text, or raises. */
  datatype Outcome = Answer(text: string) | Raise(failure: Failure)

  /** The providers' behaviour during one `chat` call: what the provider at a
      given index does when called with a given request. */
  type Backend = (nat, Request) -> Outcome

  /** The provider's class, in place of `type(provider).__name__`. */
  datatype ProviderKind = Groq | Google

  /** A provider as the agent sees it: its class and its `model` attribute, if any. */
  datatype ProviderInfo = ProviderInfo(kind: ProviderKind, model: Option<string>)

  predicate Recoverable(o: Outcome) {
    o.Raise? && o.failure.RuntimeError?
  }

  /** The provider tried at attempt `k` of a call that started at `start`. */
  function Probe(start: nat, total: nat, k: nat): (i: nat)
    requires total > 0
    ensures i < total
  {
    (start + k) % total
  }

  /** The providers tried by the first `n` attempts, in order. */
  function Probes(start: nat, total: nat, n: nat): (s: seq<nat>)
    requires total > 0
    ensures |s| == n
    ensures forall k :: 0 <= k < n ==> s[k] == Probe(start, total, k)
  {
    if n == 0 then [] else Probes(start, total, n - 1) + [Probe(start, total, n - 1)]
  }

  /** The first attempt, at or after `from`, whose provider does not raise a
      RuntimeError; `total` when every remaining attempt does. */
  function FirstStop(backend: Backend, req: Request, start: nat, total: nat, from: nat): (k: nat)
    requires total > 0 && from <= total
    ensures from <= k <= total
    ensures forall j :: from <= j < k ==> Recoverable(backend(Probe(start, total, j), req))
    ensures k < total ==> !Recoverable(backend(Probe(start, total, k), req))
    decreases total - from
  {
    if from == total then total
    else if Recoverable(backend(Probe(start, total, from), req)) then FirstStop(backend, req, start, total, from + 1)
    else from
  }

  /** The text of the error `chat` raises once every provider has failed. */
  function ExhaustedMessage(last: Option<string>): (r: string)
    ensures |r| >= 22 && r[..22] == "All providers failed: "
    ensures last.Some? ==> r[22..] == last.value
    ensures last.None? ==> r[22..] == "None"
  {
    "All providers failed: " + match last case None => "None" case Some(m) => m
  }

  /** What one `chat` call does: its result, where it leaves the cursor and
      which providers it called, in order. */
  datatype ChatOutcome = ChatOutcome(result: Result<string, Failure>, cursor: nat, attempts: seq<nat>)

  /** The outcome a stopping provider's result gives the caller. */
  function StopResult(o: Outcome): Result<string, Failure> {
    if o.Answer? then Ok(o.text) else Err(o.failure)
  }

  /** The failover rule, stated by attempt number: attempt k calls the provider
      `(start + k) % total`; the call stops at the first attempt that does not
      raise a RuntimeError, and after `total` attempts at the latest. */
  function Failover(backend: Backend, req: Request, start: nat, total: nat): (c: ChatOutcome)
    requires total == 0 || start < total
    ensures |c.attempts| <= total
    ensures total == 0 ==> c.cursor == start
    ensures total > 0 ==> c.cursor < total
    ensures total > 0 ==> forall k :: 0 <= k < |c.attempts| ==> c.attempts[k] == Probe(start, total, k)
  {
    if total == 0 then ChatOutcome(Err(RuntimeError(ExhaustedMessage(None))), start, [])
    else
      var k := FirstStop(backend, req, start, total, 0);
      if k == total then
        var last := backend(Probe(start, total, total - 1), req).failure.message;
        ChatOutcome(Err(RuntimeError(ExhaustedMessage(Some(last)))), Probe(start, total, k), Probes(start, total, total))
      else
        var o := backend(Probe(start, total, k), req);
        ChatOutcome(StopResult(o), Probe(start, total, k), Probes(start, total, k + 1))
  }

  /** When the providers at offsets 0..k-1 raise RuntimeError and the one at
      offset k does not, the call stops there: it returns (or re-raises) what
      that provider did, leaves the cursor on it and has made k + 1 calls. */
  lemma StopsAtOffset(backend: Backend, req: Request, start: nat, total: nat, k: nat)
    requires start < total && k < total
    requires forall j :: 0 <= j < k ==> Recoverable(backend(Probe(start, total, j), req))
    requires !Recoverable(backend(Probe(start, total, k), req))
    ensures Failover(backend, req, start, total)
         == ChatOutcome(StopResult(backend(Probe(start, total, k), req)), Probe(start, total, k), Probes(start, total, k + 1))
  {
    var f := FirstStop(backend, req, start, total, 0);
    assert f == k;
  }

  /** Failover as the agent's callers see it: when the providers at offsets
      0..k-1 raise RuntimeError and the one at offset k answers, the call
      returns that text verbatim and leaves the cursor on that provider. */
  lemma SucceedsAtOffset(backend: Backend, req: Request, start: nat, total: nat, k: nat, text: string)
    requires start < total && k < total
    requires forall j :: 0 <= j < k ==> Recoverable(backend(Probe(start, total, j), req))
    requires backend(Probe(start, total, k), req) == Answer(text)
    ensures var c := Failover(backend, req, start, total);
      c.result == Ok(text) && c.cursor == (start + k) % total && |c.attempts| == k + 1
  {
    StopsAtOffset(backend, req, start, total, k);
  }

  /** A failure other than RuntimeError ends the call at once: it propagates,
      and the cursor stays on the provider that raised it. */
  lemma PropagatesOtherFailure(backend: Backend, req: Request, start: nat, total: nat, k: nat, msg: string)
    requires start < total && k < total
    requires forall j :: 0 <= j < k ==> Recoverable(backend(Probe(start, total, j), req))
    requires backend(Probe(start, total, k), req) == Raise(OtherError(msg))
    ensures var c := Failover(backend, req, start, total);
      c.result == Err(OtherError(msg)) && c.cursor == (start + k) % total && |c.attempts| == k + 1
  {
    StopsAtOffset(backend, req, start, total, k);
  }

  lemma ModBelow(x: nat, total: nat)
    requires x < total
    ensures x % total == x
  {
  }

  lemma ModOnce(x: nat, total: nat)
    requires total <= x < 2 * total
    ensures x % total == x - total
  {
  }

  /** The next attempt's provider is the current one's successor modulo the
      pool size, as `(current + 1) % total` computes it. */
  lemma ProbeStep(start: nat, total: nat, k: nat)
    requires start < total && k < total
    ensures Probe(start, total, k + 1) == (Probe(start, total, k) + 1) % total
  {
    var x := start + k;
    if x + 1 < total {
      ModBelow(x, total);
      ModBelow(x + 1, total);
    } else if x + 1 == total {
      ModBelow(x, total);
      ModOnce(x + 1, total);
    } else {
      ModOnce(x, total);
      ModOnce(x + 1, total);
      ModBelow(x + 1 - total, total);
    }
  }

  /** `(start + total) % total == start` for a valid cursor. */
  lemma ProbeWrapsAround(start: nat, total: nat)
    requires start < total
    ensures Probe(start, total, total) == start
  {
    ModOnce(start + total, total);
  }

  /** When every provider raises RuntimeError, the call raises "All providers
      failed: <last message>" after exactly `total` calls, one per provider,
      and the cursor is back where it started. */
  lemma ExhaustsAllProviders(backend: Backend, req: Request, start: nat, total: nat)
    requires start < total
    requires forall j :: 0 <= j < total ==> Recoverable(backend(Probe(start, total, j), req))
    ensures var c := Failover(backend, req, start, total);
      && c.result == Err(RuntimeError(ExhaustedMessage(Some(backend((start + total - 1) % total, req).failure.message))))
      && c.cursor == start
      && |c.attempts| == total
  {
    var f := FirstStop(backend, req, start, total, 0);
    assert f == total;
    ProbeWrapsAround(start, total);
  }

  /** An empty pool calls no provider and raises with last exception `None`. */
  lemma EmptyPoolRaises(backend: Backend, req: Request)
    ensures Failover(backend, req, 0, 0) == ChatOutcome(Err(RuntimeError("All providers failed: None")), 0, [])
  {
    assert "All providers failed: " + "None" == "All providers failed: None";
  }

  /** Distinct attempts below `total` reach distinct providers. */
  lemma ProbeInjective(start: nat, total: nat, a: nat, b: nat)
    requires start < total && a < b < total
    ensures Probe(start, total, a) != Probe(start, total, b)
  {
    if start + a < total { ModBelow(start + a, total); } else { ModOnce(start + a, total); }
    if start + b < total { ModBelow(start + b, total); } else { ModOnce(start + b, total); }
  }

  /** No provider is called twice within one `chat` call. */
  lemma AttemptsAreDistinct(backend: Backend, req: Request, start: nat, total: nat)
    requires start < total
    ensures var c := Failover(backend, req, start, total);
      forall a, b :: 0 <= a < b < |c.attempts| ==> c.attempts[a] != c.attempts[b]
  {
    var c := Failover(backend, req, start, total);
    forall a, b | 0 <= a < b < |c.attempts|
      ensures c.attempts[a] != c.attempts[b]
    {
      ProbeInjective(start, total, a, b);
    }
  }

  /** A provider that failed before is not remembered: a call whose cursor is on
      a provider that answers (after `set_provider`, or after an exhausted call
      that put the cursor back) calls that provider alone and returns its text. */
  lemma CursorProviderAnsweredFirst(backend: Backend, req: Request, start: nat, total: nat, text: string)
    requires start < total
    requires backend(start, req) == Answer(text)
    ensures Failover(backend, req, start, total) == ChatOutcome(Ok(text), start, [start])
  {
    assert Probe(start, total, 0) == start;
    StopsAtOffset(backend, req, start, total, 0);
  }

  /** The pool of `multiprovider.py`. `calls` records, for the proofs only, the
      index of every provider called, in order. */
  class MultiProvider {
    const providers: seq<ProviderInfo>
    var current: nat
    ghost var calls: seq<nat>

    /** The cursor is a valid index (or 0 for an empty pool). */
    ghost predicate Valid()
      reads this
    {
      if |providers| == 0 then current == 0 else current < |providers|
    }

    constructor (providers: seq<ProviderInfo>)
      ensures Valid()
      ensures this.providers == providers && current == 0 && calls == []
    {
      this.providers := providers;
      current := 0;
      calls := [];
    }

    /** `chat(messages, max_tokens)`: the failover loop. */
    method Chat(req: Request, backend: Backend) returns (r: Result<string, Failure>)
      requires Valid()
      modifies this
      ensures Valid()
      ensures var c := Failover(backend, req, old(current), |providers|);
        r == c.result && current == c.cursor && calls == old(calls) + c.attempts
    {
      ghost var start := current;
      var tried: nat := 0;
      var last: Option<string> := None;
      var total := |providers|;
      while tried < total
        invariant tried <= total
        invariant Valid()
        invariant total > 0 ==> current == Probe(start, total, tried)
        invariant total == 0 ==> calls == old(calls)
        invariant total > 0 ==> calls == old(calls) + Probes(start, total, tried)
        invariant total > 0 ==> forall j :: 0 <= j < tried ==> Recoverable(backend(Probe(start, total, j), req))
        invariant tried == 0 ==> last == None
        invariant tried > 0 ==> last == Some(backend(Probe(start, total, tried - 1), req).failure.message)
        decreases total - tried
      {
        var outcome := backend(current, req);
        calls := calls + [current];
        if !Recoverable(outcome) {
          StopsAtOffset(backend, req, start, total, tried);
          r := StopResult(outcome);
          return;
        }
        last := Some(outcome.failure.message);
        ProbeStep(start, total, tried);
        current := (current + 1) % total;
        tried := tried + 1;
      }
      if total > 0 {
        assert FirstStop(backend, req, start, total, 0) == total;
        assert last == Some(backend(Probe(start, total, total - 1), req).failure.message);
      }
      r := Err(RuntimeError(ExhaustedMessage(last)));
    }

    /** Pins the cursor to provider `i`. The pool in `multiprovider.py` does not
        define `set_provider`, although `agent.py` calls it; this is the minimal
        reading of that call. */
    method SetProvider(i: nat)
      requires i < |providers|
      modifies this
      ensures Valid()
      ensures current == i && calls == old(calls)
    {
      current := i;
    }
  }
}
