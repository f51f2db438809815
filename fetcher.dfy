/** The section fetcher `fetchSection`: a bounded retry loop around one
    provider call per attempt. The provider is an oracle that gives the
    outcome of the n-th call made during a request; what the fetcher does
    is recorded as a trace of calls (with the request content and the
    outcome) and of waits (with their length in milliseconds), in the
    order they happen. */
module Fetcher {
  import opened JsonValues
  import opened Validation

  /** The result of one provider call: a completion whose message content
      may be null, a 429 answer, or any other failure (another HTTP status,
      no response, or a reply without a first choice). */
  datatype ProviderOutcome = Reply(content: Option<string>) | RateLimited | Failed

  /** Outcome of the n-th provider call of a request. */
  type Provider = nat -> ProviderOutcome

  /** The one user message of a provider request, by its parts: the
      section prompt, the error clause and the section name. */
  datatype Request = Request(sectionPrompt: string, errorMessage: string, sectionName: string) {
    /** The text the message carries. */
    function Content(): string {
      sectionPrompt + Instruction(errorMessage, sectionName)
    }
  }

  /** What follows the section prompt in a request: the error clause and
      the instruction to return only the section's object. */
  function Instruction(errorMessage: string, sectionName: string): string {
    errorMessage + " Return only the JSON object for the " + sectionName
      + ", starting with open curly brace and closing with closing curly brace. Do not include the key \""
      + sectionName + "\" in the response. just the object"
  }

  datatype Event = Call(request: Request, answer: ProviderOutcome) | Wait(ms: int)

  /** What `fetchSection` produces: a value, or the error it throws. */
  datatype FetchResult = Fetched(value: Json) | Thrown(message: string)

  /** A result together with the trace that produced it. */
  datatype Outcome = Outcome(result: FetchResult, trace: seq<Event>)

  const DefaultRetries: int := 3
  const DefaultBackoffDelay: int := 1000

  const CorrectiveClause: string :=
    " The previous response was invalid. Please ensure the response adheres to the specified structure."

  const FetchErrorMessage: string := "Error communicating with OpenAI API"

  /** The text that is validated: the content, or "" when it is null. */
  function RawText(answer: ProviderOutcome): string
    requires answer.Reply?
  {
    answer.content.GetOr("")
  }

  /** Text that parses to a value conforming to the schema: by the
      contract of `ValidateResponse`, exactly the text it accepts. */
  predicate ConformingText(codec: JsonCodec, text: string, schema: Schema) {
    codec.parse(text).Some? && Conforms(codec.parse(text).value, schema)
  }

  /** A reply whose text passes validation against the schema. */
  predicate Accepted(codec: JsonCodec, schema: Schema, answer: ProviderOutcome) {
    answer.Reply? && ConformingText(codec, RawText(answer), schema)
  }

  /** A reply whose text fails validation (it does not parse, or the value
      does not conform). */
  predicate Rejected(codec: JsonCodec, schema: Schema, answer: ProviderOutcome) {
    answer.Reply? && !ConformingText(codec, RawText(answer), schema)
  }

  /** A call after which no further call is made: a fatal failure or an
      accepted reply. */
  predicate Final(codec: JsonCodec, schema: Schema, answer: ProviderOutcome) {
    answer.Failed? || Accepted(codec, schema, answer)
  }

  /** The wait after a 429, when another attempt follows. */
  function Pause(answer: ProviderOutcome, retries: int, backoffDelay: int): seq<Event> {
    if answer.RateLimited? && retries > 1 then [Wait(backoffDelay)] else []
  }

  /** The delay doubles after each wait. */
  function NextDelay(answer: ProviderOutcome, retries: int, backoffDelay: int): int {
    if answer.RateLimited? && retries > 1 then backoffDelay * 2 else backoffDelay
  }

  /** A rejected reply switches the error clause to the corrective one. */
  function NextClause(codec: JsonCodec, schema: Schema, answer: ProviderOutcome, errorMessage: string): string {
    if Rejected(codec, schema, answer) then CorrectiveClause else errorMessage
  }

  /** The state machine of the fetcher, from a state with `retries`
      attempts left, the current backoff delay and the current error
      clause; `n` is the index of the next provider call. It gives the
      result and the trace of everything that happens from this state on. */
  function FetchLoop(codec: JsonCodec, provider: Provider, n: nat, sectionPrompt: string, sectionName: string,
                     schema: Schema, retries: int, backoffDelay: int, errorMessage: string)
    : Outcome
    decreases retries
  {
    if retries <= 0 then Outcome(Fetched(EmptyObject), [])
    else
      var answer := provider(n);
      var call := Call(Request(sectionPrompt, errorMessage, sectionName), answer);
      if answer.Failed? then Outcome(Thrown(FetchErrorMessage), [call])
      else if Accepted(codec, schema, answer) then Outcome(Fetched(codec.parse(RawText(answer)).value), [call])
      else
        var rest := FetchLoop(codec, provider, n + 1, sectionPrompt, sectionName, schema, retries - 1,
                              NextDelay(answer, retries, backoffDelay),
                              NextClause(codec, schema, answer, errorMessage));
        Outcome(rest.result, [call] + Pause(answer, retries, backoffDelay) + rest.trace)
  }

  /** `validateResponse(content || "", schema).valid`. */
  method CheckReply(codec: JsonCodec, text: string, schema: Schema) returns (valid: bool)
    ensures valid <==> ConformingText(codec, text, schema)
  {
    valid := ValidateResponse(codec, text, schema).valid;
  }

  /** The loop of `fetchSection` continued from a state in which `done`
      is what has happened so far: the outcome of the whole fetch. */
  function FetchFrom(done: seq<Event>, codec: JsonCodec, provider: Provider, n: nat, sectionPrompt: string,
                     sectionName: string, schema: Schema, retries: int, backoffDelay: int, errorMessage: string)
    : (o: Outcome)
    decreases retries
  {
    if retries <= 0 then Outcome(Fetched(EmptyObject), done)
    else
      var answer := provider(n);
      var call := Call(Request(sectionPrompt, errorMessage, sectionName), answer);
      if answer.Failed? then Outcome(Thrown(FetchErrorMessage), done + [call])
      else if Accepted(codec, schema, answer) then Outcome(Fetched(codec.parse(RawText(answer)).value), done + [call])
      else
        FetchFrom(done + [call] + Pause(answer, retries, backoffDelay), codec, provider, n + 1, sectionPrompt, sectionName,
                  schema, retries - 1, NextDelay(answer, retries, backoffDelay), NextClause(codec, schema, answer, errorMessage))
  }

  lemma {:induction false} FetchFromLoop(done: seq<Event>, codec: JsonCodec, provider: Provider, n: nat, sectionPrompt: string,
                                         sectionName: string, schema: Schema, retries: int, backoffDelay: int, errorMessage: string)
    ensures var o := FetchLoop(codec, provider, n, sectionPrompt, sectionName, schema, retries, backoffDelay, errorMessage);
            FetchFrom(done, codec, provider, n, sectionPrompt, sectionName, schema, retries, backoffDelay, errorMessage)
            == Outcome(o.result, done + o.trace)
    decreases retries
  {
    if retries <= 0 {
      assert done + [] == done;
    } else {
      var answer := provider(n);
      var call := Call(Request(sectionPrompt, errorMessage, sectionName), answer);
      if !Final(codec, schema, answer) {
        var head := [call] + Pause(answer, retries, backoffDelay);
        var delay', clause' := NextDelay(answer, retries, backoffDelay), NextClause(codec, schema, answer, errorMessage);
        FetchFromLoop(done + head, codec, provider, n + 1, sectionPrompt, sectionName, schema, retries - 1, delay', clause');
        var rest := FetchLoop(codec, provider, n + 1, sectionPrompt, sectionName, schema, retries - 1, delay', clause');
        assert FetchLoop(codec, provider, n, sectionPrompt, sectionName, schema, retries, backoffDelay, errorMessage)
            == Outcome(rest.result, head + rest.trace);
        assert done + [call] + Pause(answer, retries, backoffDelay) == done + head;
        assert FetchFrom(done, codec, provider, n, sectionPrompt, sectionName, schema, retries, backoffDelay, errorMessage)
            == FetchFrom(done + head, codec, provider, n + 1, sectionPrompt, sectionName, schema, retries - 1, delay', clause');
        AppendAssoc(done, head, rest.trace);
      }
    }
  }

  /** `fetchSection(sectionPrompt, sectionName, schema, retries, backoffDelay)`,
      whose first provider call is call number `calls` of the request: it
      does what the fetcher's state machine prescribes from its initial
      state (no error clause). */
  method FetchSection(codec: JsonCodec, provider: Provider, calls: nat, sectionPrompt: string,
                      sectionName: string, schema: Schema, retries: int, backoffDelay: int)
    returns (result: FetchResult, trace: seq<Event>)
    ensures Outcome(result, trace) ==
            FetchLoop(codec, provider, calls, sectionPrompt, sectionName, schema, retries, backoffDelay, "")
  {
    ghost var whole := FetchLoop(codec, provider, calls, sectionPrompt, sectionName, schema, retries, backoffDelay, "");
    FetchFromLoop([], codec, provider, calls, sectionPrompt, sectionName, schema, retries, backoffDelay, "");
    assert [] + whole.trace == whole.trace;
    var left, delay, errorMessage, n := retries, backoffDelay, "", calls;
    trace := [];
    while left > 0
      invariant FetchFrom([], codec, provider, calls, sectionPrompt, sectionName, schema, retries, backoffDelay, "")
             == FetchFrom(trace, codec, provider, n, sectionPrompt, sectionName, schema, left, delay, errorMessage)
      decreases left
    {
      var answer := provider(n);
      var call := Call(Request(sectionPrompt, errorMessage, sectionName), answer);
      ghost var next := trace + [call] + Pause(answer, left, delay);
      trace := trace + [call];
      match answer {
        case Reply(content) =>
          var valid := CheckReply(codec, content.GetOr(""), schema);
          if valid {
            result := Fetched(codec.parse(content.GetOr("")).value);
            return;
          }
          errorMessage := CorrectiveClause;
        case RateLimited =>
          if left > 1 {
            trace := trace + [Wait(delay)];
            delay := delay * 2;
          }
        case Failed =>
          result := Thrown(FetchErrorMessage);
          return;
      }
      assert trace == next;
      left, n := left - 1, n + 1;
    }
    result := Fetched(EmptyObject);
  }

  // ---------------------------------------------------------------------
  // Traces

  function CallCount(t: seq<Event>): nat {
    if t == [] then 0 else (if t[0].Call? then 1 else 0) + CallCount(t[1..])
  }

  /** The lengths of the waits, in order. */
  function Delays(t: seq<Event>): seq<int> {
    if t == [] then [] else (if t[0].Wait? then [t[0].ms] else []) + Delays(t[1..])
  }

  function Pow2(k: nat): nat {
    if k == 0 then 1 else 2 * Pow2(k - 1)
  }

  function Last(t: seq<Event>): Event
    requires t != []
  {
    t[|t| - 1]
  }

  /** No call in the trace failed fatally. */
  predicate NoFailure(t: seq<Event>) {
    forall i :: 0 <= i < |t| && t[i].Call? ==> !t[i].answer.Failed?
  }

  /** Some call among the first i events was answered by a rejected reply. */
  ghost predicate RejectedBefore(codec: JsonCodec, schema: Schema, t: seq<Event>, i: nat) {
    exists j :: 0 <= j < i && j < |t| && t[j].Call? && Rejected(codec, schema, t[j].answer)
  }

  lemma AppendAssoc<T>(a: seq<T>, b: seq<T>, c: seq<T>)
    ensures (a + b) + c == a + (b + c)
  {
  }

  lemma {:induction false} CallCountAppend(a: seq<Event>, b: seq<Event>)
    ensures CallCount(a + b) == CallCount(a) + CallCount(b)
    decreases |a|
  {
    if a != [] {
      assert (a + b)[1..] == a[1..] + b;
      CallCountAppend(a[1..], b);
    } else {
      assert a + b == b;
    }
  }

  lemma {:induction false} DelaysAppend(a: seq<Event>, b: seq<Event>)
    ensures Delays(a + b) == Delays(a) + Delays(b)
    decreases |a|
  {
    if a != [] {
      assert (a + b)[1..] == a[1..] + b;
      DelaysAppend(a[1..], b);
    } else {
      assert a + b == b;
    }
  }

  /** The events of one attempt that does not end the loop: its call, and
      the wait after it if any. */
  lemma AttemptEvents(call: Event, answer: ProviderOutcome, retries: int, backoffDelay: int)
    requires call.Call? && call.answer == answer && !answer.Failed?
    ensures var head := [call] + Pause(answer, retries, backoffDelay);
            && CallCount(head) == 1
            && NoFailure(head)
            && Delays(head) == (if answer.RateLimited? && retries > 1 then [backoffDelay] else [])
            && head[0] == call && (|head| == 1 || (|head| == 2 && head[1] == Wait(backoffDelay)))
  {
    var head := [call] + Pause(answer, retries, backoffDelay);
    assert head[1..] == Pause(answer, retries, backoffDelay);
    if answer.RateLimited? && retries > 1 {
      var w := [Wait(backoffDelay)];
      assert w[1..] == [];
      assert Delays(w) == [backoffDelay] + Delays([]);
      assert [backoffDelay] + [] == [backoffDelay];
      assert CallCount(w) == 0;
      assert Delays(head) == [] + Delays(w);
      assert CallCount(head) == 1 + CallCount(w);
    }
  }

  /** Where a prefix ends, the trace continues with the rest. */
  lemma PrefixTrace(head: seq<Event>, rest: seq<Event>)
    ensures forall i :: |head| <= i < |head + rest| ==> (head + rest)[i] == rest[i - |head|]
    ensures rest != [] ==> Last(head + rest) == Last(rest)
    ensures rest != [] ==> (head + rest)[..|head + rest| - 1] == head + rest[..|rest| - 1]
  {
    if rest != [] {
      assert (head + rest)[..|head + rest| - 1] == head + rest[..|rest| - 1];
    }
  }

  /** Prepending events with no failure does not change whether a trace
      has a failure. */
  lemma PrefixNoFailure(head: seq<Event>, rest: seq<Event>)
    requires NoFailure(head)
    ensures NoFailure(head + rest) <==> NoFailure(rest)
  {
    if !NoFailure(rest) {
      var i :| 0 <= i < |rest| && rest[i].Call? && rest[i].answer.Failed?;
      assert (head + rest)[|head| + i] == rest[i];
    }
  }

  lemma RejectedBeforeAppend(codec: JsonCodec, schema: Schema, head: seq<Event>, rest: seq<Event>, i: nat)
    requires i <= |rest|
    ensures RejectedBefore(codec, schema, head + rest, |head| + i) <==>
            RejectedBefore(codec, schema, head, |head|) || RejectedBefore(codec, schema, rest, i)
  {
    var t := head + rest;
    if RejectedBefore(codec, schema, t, |head| + i) {
      var j :| 0 <= j < |head| + i && j < |t| && t[j].Call? && Rejected(codec, schema, t[j].answer);
      if j < |head| {
        assert head[j] == t[j];
      } else {
        assert rest[j - |head|] == t[j];
      }
    }
    if RejectedBefore(codec, schema, head, |head|) {
      var j :| 0 <= j < |head| && j < |head| && head[j].Call? && Rejected(codec, schema, head[j].answer);
      assert t[j] == head[j];
    }
    if RejectedBefore(codec, schema, rest, i) {
      var j :| 0 <= j < i && j < |rest| && rest[j].Call? && Rejected(codec, schema, rest[j].answer);
      assert t[|head| + j] == rest[j];
    }
  }

  // ---------------------------------------------------------------------
  // What the fetcher promises

  /** Every attempt that does not end the loop uses up one retry, so at
      most `retries` provider calls are made; and every call but the last
      was answered by a 429 or a rejected reply. */
  lemma {:induction false} FetchCallBound(codec: JsonCodec, provider: Provider, n: nat, sectionPrompt: string,
                                          sectionName: string, schema: Schema, retries: int,
                                          backoffDelay: int, errorMessage: string)
    ensures var t := FetchLoop(codec, provider, n, sectionPrompt, sectionName, schema, retries, backoffDelay, errorMessage).trace;
            && CallCount(t) <= (if retries > 0 then retries else 0)
            && forall i :: 0 <= i < |t| - 1 && t[i].Call? ==>
                 t[i].answer.RateLimited? || Rejected(codec, schema, t[i].answer)
    decreases retries
  {
    var answer := provider(n);
    if retries > 0 && !Final(codec, schema, answer) {
      var call := Call(Request(sectionPrompt, errorMessage, sectionName), answer);
      var delay', clause' := NextDelay(answer, retries, backoffDelay), NextClause(codec, schema, answer, errorMessage);
      FetchCallBound(codec, provider, n + 1, sectionPrompt, sectionName, schema, retries - 1, delay', clause');
      var rest := FetchLoop(codec, provider, n + 1, sectionPrompt, sectionName, schema, retries - 1, delay', clause').trace;
      var head := [call] + Pause(answer, retries, backoffDelay);
      AttemptEvents(call, answer, retries, backoffDelay);
      CallCountAppend(head, rest);
      PrefixTrace(head, rest);
    }
  }

  /** A loop with attempts left starts with a provider call. */
  lemma FetchStartsWithCall(codec: JsonCodec, provider: Provider, n: nat, sectionPrompt: string,
                            sectionName: string, schema: Schema, retries: int,
                            backoffDelay: int, errorMessage: string)
    requires retries > 0
    ensures var t := FetchLoop(codec, provider, n, sectionPrompt, sectionName, schema, retries, backoffDelay, errorMessage).trace;
            t != [] && t[0] == Call(Request(sectionPrompt, errorMessage, sectionName), provider(n))
  {
  }

  /** The fetcher throws exactly when a call fails with something other
      than a 429. */
  lemma {:induction false} FetchThrowsOnFailure(codec: JsonCodec, provider: Provider, n: nat, sectionPrompt: string,
                                                sectionName: string, schema: Schema, retries: int,
                                                backoffDelay: int, errorMessage: string)
    ensures var o := FetchLoop(codec, provider, n, sectionPrompt, sectionName, schema, retries, backoffDelay, errorMessage);
            o.result.Thrown? <==> !NoFailure(o.trace)
    decreases retries
  {
    var o := FetchLoop(codec, provider, n, sectionPrompt, sectionName, schema, retries, backoffDelay, errorMessage);
    var answer := provider(n);
    var call := Call(Request(sectionPrompt, errorMessage, sectionName), answer);
    if retries > 0 && !Final(codec, schema, answer) {
      var delay', clause' := NextDelay(answer, retries, backoffDelay), NextClause(codec, schema, answer, errorMessage);
      FetchThrowsOnFailure(codec, provider, n + 1, sectionPrompt, sectionName, schema, retries - 1, delay', clause');
      var rest := FetchLoop(codec, provider, n + 1, sectionPrompt, sectionName, schema, retries - 1, delay', clause');
      var head := [call] + Pause(answer, retries, backoffDelay);
      assert o == Outcome(rest.result, head + rest.trace);
      AttemptEvents(call, answer, retries, backoffDelay);
      PrefixNoFailure(head, rest.trace);
    } else if retries > 0 && answer.Failed? {
      assert o == Outcome(Thrown(FetchErrorMessage), [call]);
      assert o.trace[0].Call? && o.trace[0].answer.Failed?;
    } else if retries > 0 {
      assert o.trace == [call];
    }
  }

  /** A throw carries "Error communicating with OpenAI API" and ends the
      trace at the failed call, with no failure before it. */
  lemma {:induction false} FetchThrowEndsAtFailure(codec: JsonCodec, provider: Provider, n: nat, sectionPrompt: string,
                                                   sectionName: string, schema: Schema, retries: int,
                                                   backoffDelay: int, errorMessage: string)
    ensures var o := FetchLoop(codec, provider, n, sectionPrompt, sectionName, schema, retries, backoffDelay, errorMessage);
            o.result.Thrown? ==>
              && o.result.message == FetchErrorMessage
              && o.trace != [] && Last(o.trace).Call? && Last(o.trace).answer.Failed?
              && NoFailure(o.trace[..|o.trace| - 1])
    decreases retries
  {
    var o := FetchLoop(codec, provider, n, sectionPrompt, sectionName, schema, retries, backoffDelay, errorMessage);
    var answer := provider(n);
    var call := Call(Request(sectionPrompt, errorMessage, sectionName), answer);
    if retries > 0 && !Final(codec, schema, answer) {
      var delay', clause' := NextDelay(answer, retries, backoffDelay), NextClause(codec, schema, answer, errorMessage);
      FetchThrowEndsAtFailure(codec, provider, n + 1, sectionPrompt, sectionName, schema, retries - 1, delay', clause');
      var rest := FetchLoop(codec, provider, n + 1, sectionPrompt, sectionName, schema, retries - 1, delay', clause');
      var head := [call] + Pause(answer, retries, backoffDelay);
      assert o == Outcome(rest.result, head + rest.trace);
      AttemptEvents(call, answer, retries, backoffDelay);
      FailureAfterHead(head, rest.trace);
    } else if retries > 0 && answer.Failed? {
      assert o == Outcome(Thrown(FetchErrorMessage), [call]);
      assert o.trace[..0] == [];
    }
  }

  /** Events with no failure in front of a trace change neither whether
      it has a failure nor how it ends. */
  lemma FailureAfterHead(head: seq<Event>, rest: seq<Event>)
    requires NoFailure(head)
    ensures NoFailure(head + rest) <==> NoFailure(rest)
    ensures rest != [] ==> Last(head + rest) == Last(rest)
    ensures rest != [] && NoFailure(rest[..|rest| - 1]) ==> NoFailure((head + rest)[..|head + rest| - 1])
  {
    PrefixNoFailure(head, rest);
    PrefixTrace(head, rest);
    if rest != [] {
      PrefixNoFailure(head, rest[..|rest| - 1]);
    }
  }

  /** A value is returned only as the parsed text of an accepted reply,
      the last call made; otherwise the budget was spent on 429s and
      rejected replies and the value is `{}`. */
  lemma {:induction false} FetchReturnsAccepted(codec: JsonCodec, provider: Provider, n: nat, sectionPrompt: string,
                                                sectionName: string, schema: Schema, retries: int,
                                                backoffDelay: int, errorMessage: string)
    ensures var o := FetchLoop(codec, provider, n, sectionPrompt, sectionName, schema, retries, backoffDelay, errorMessage);
            o.result.Fetched? ==> FetchedFrom(codec, schema, o, if retries > 0 then retries else 0)
    decreases retries
  {
    var o := FetchLoop(codec, provider, n, sectionPrompt, sectionName, schema, retries, backoffDelay, errorMessage);
    var answer := provider(n);
    var call := Call(Request(sectionPrompt, errorMessage, sectionName), answer);
    if retries > 0 && !Final(codec, schema, answer) {
      var delay', clause' := NextDelay(answer, retries, backoffDelay), NextClause(codec, schema, answer, errorMessage);
      FetchReturnsAccepted(codec, provider, n + 1, sectionPrompt, sectionName, schema, retries - 1, delay', clause');
      var rest := FetchLoop(codec, provider, n + 1, sectionPrompt, sectionName, schema, retries - 1, delay', clause');
      var head := [call] + Pause(answer, retries, backoffDelay);
      assert o == Outcome(rest.result, head + rest.trace);
      AttemptEvents(call, answer, retries, backoffDelay);
      if rest.result.Fetched? {
        FetchedAfterHead(codec, schema, head, rest, retries - 1);
      }
    } else if retries > 0 && Accepted(codec, schema, answer) {
      assert o.trace == [call];
    }
  }

  /** A fetched value with its provenance: the parsed text of the accepted
      reply that ends the trace, or `{}` after `calls` calls. */
  predicate FetchedFrom(codec: JsonCodec, schema: Schema, o: Outcome, calls: int)
    requires o.result.Fetched?
  {
    var r, t := o.result, o.trace;
    || (t != [] && Last(t).Call? && Accepted(codec, schema, Last(t).answer)
        && codec.parse(RawText(Last(t).answer)) == Some(r.value))
    || (r.value == EmptyObject && CallCount(t) == calls)
  }

  /** One more call in front keeps the provenance of a fetched value. */
  lemma FetchedAfterHead(codec: JsonCodec, schema: Schema, head: seq<Event>, rest: Outcome, calls: int)
    requires CallCount(head) == 1 && rest.result.Fetched?
    requires FetchedFrom(codec, schema, rest, if calls > 0 then calls else 0)
    requires calls >= 0
    ensures FetchedFrom(codec, schema, Outcome(rest.result, head + rest.trace), calls + 1)
  {
    CallCountAppend(head, rest.trace);
    PrefixTrace(head, rest.trace);
  }

  /** Hence a returned value is `{}` or conforms to the section's schema. */
  lemma FetchedConforms(codec: JsonCodec, provider: Provider, n: nat, sectionPrompt: string,
                        sectionName: string, schema: Schema, retries: int,
                        backoffDelay: int, errorMessage: string)
    ensures var r := FetchLoop(codec, provider, n, sectionPrompt, sectionName, schema, retries, backoffDelay, errorMessage).result;
            r.Fetched? ==> r.value == EmptyObject || Conforms(r.value, schema)
  {
    FetchReturnsAccepted(codec, provider, n, sectionPrompt, sectionName, schema, retries, backoffDelay, errorMessage);
  }

  /** Every wait comes between a call answered by a 429 and another call. */
  predicate WaitsBetweenCalls(t: seq<Event>) {
    forall i :: 0 <= i < |t| && t[i].Wait? ==>
      0 < i < |t| - 1 && t[i - 1].Call? && t[i - 1].answer.RateLimited? && t[i + 1].Call?
  }

  /** Waits happen only after a 429 and only when another call follows. */
  lemma {:induction false} FetchWaitsFollowRateLimits(codec: JsonCodec, provider: Provider, n: nat, sectionPrompt: string,
                                                      sectionName: string, schema: Schema, retries: int,
                                                      backoffDelay: int, errorMessage: string)
    ensures WaitsBetweenCalls(FetchLoop(codec, provider, n, sectionPrompt, sectionName, schema, retries, backoffDelay, errorMessage).trace)
    decreases retries
  {
    var o := FetchLoop(codec, provider, n, sectionPrompt, sectionName, schema, retries, backoffDelay, errorMessage);
    var answer := provider(n);
    var call := Call(Request(sectionPrompt, errorMessage, sectionName), answer);
    if retries > 0 && !Final(codec, schema, answer) {
      var delay', clause' := NextDelay(answer, retries, backoffDelay), NextClause(codec, schema, answer, errorMessage);
      FetchWaitsFollowRateLimits(codec, provider, n + 1, sectionPrompt, sectionName, schema, retries - 1, delay', clause');
      var rest := FetchLoop(codec, provider, n + 1, sectionPrompt, sectionName, schema, retries - 1, delay', clause').trace;
      var head := [call] + Pause(answer, retries, backoffDelay);
      assert o.trace == head + rest;
      AttemptEvents(call, answer, retries, backoffDelay);
      if |head| == 2 {
        FetchStartsWithCall(codec, provider, n + 1, sectionPrompt, sectionName, schema, retries - 1, delay', clause');
      }
      WaitsAfterHead(head, rest);
    } else if retries > 0 {
      assert o.trace == [call];
    }
  }

  /** A call, possibly followed by a wait after a 429 when another call
      comes next, in front of a trace whose waits sit between calls. */
  lemma WaitsAfterHead(head: seq<Event>, rest: seq<Event>)
    requires |head| == 1 || (|head| == 2 && head[1].Wait?)
    requires head[0].Call?
    requires |head| == 2 ==> head[0].answer.RateLimited? && rest != [] && rest[0].Call?
    requires WaitsBetweenCalls(rest)
    ensures WaitsBetweenCalls(head + rest)
  {
    var t := head + rest;
    PrefixTrace(head, rest);
    if |head| == 2 {
      assert t[2] == rest[0];
    }
    forall i | 0 <= i < |t| && t[i].Wait?
      ensures 0 < i < |t| - 1 && t[i - 1].Call? && t[i - 1].answer.RateLimited? && t[i + 1].Call?
    {
      if i >= |head| {
        assert t[i] == rest[i - |head|];
        assert t[i - 1] == rest[i - 1 - |head|];
        assert t[i + 1] == rest[i + 1 - |head|];
      }
    }
  }

  /** Every call answered by a 429 that is not the last event is followed
      by a wait. */
  predicate RateLimitsWait(t: seq<Event>) {
    forall i :: 0 <= i < |t| - 1 && t[i].Call? && t[i].answer.RateLimited? ==> t[i + 1].Wait?
  }

  /** After a 429, the loop waits before it calls again; a 429 on the
      last attempt ends the trace. */
  lemma {:induction false} FetchRateLimitsWait(codec: JsonCodec, provider: Provider, n: nat, sectionPrompt: string,
                                               sectionName: string, schema: Schema, retries: int,
                                               backoffDelay: int, errorMessage: string)
    ensures RateLimitsWait(FetchLoop(codec, provider, n, sectionPrompt, sectionName, schema, retries, backoffDelay, errorMessage).trace)
    decreases retries
  {
    var o := FetchLoop(codec, provider, n, sectionPrompt, sectionName, schema, retries, backoffDelay, errorMessage);
    var answer := provider(n);
    var call := Call(Request(sectionPrompt, errorMessage, sectionName), answer);
    if retries > 0 && !Final(codec, schema, answer) {
      var delay', clause' := NextDelay(answer, retries, backoffDelay), NextClause(codec, schema, answer, errorMessage);
      FetchRateLimitsWait(codec, provider, n + 1, sectionPrompt, sectionName, schema, retries - 1, delay', clause');
      var rest := FetchLoop(codec, provider, n + 1, sectionPrompt, sectionName, schema, retries - 1, delay', clause').trace;
      var head := [call] + Pause(answer, retries, backoffDelay);
      assert o.trace == head + rest;
      AttemptEvents(call, answer, retries, backoffDelay);
      RateLimitWaitAfterHead(head, rest);
    } else if retries > 0 {
      assert o.trace == [call];
    }
  }

  /** A call, followed by a wait when it was a 429 and anything follows
      it, in front of a trace in which every 429 is followed by a wait. */
  lemma RateLimitWaitAfterHead(head: seq<Event>, rest: seq<Event>)
    requires |head| == 1 || (|head| == 2 && head[1].Wait?)
    requires head[0].Call?
    requires |head| == 1 && head[0].answer.RateLimited? ==> rest == []
    requires RateLimitsWait(rest)
    ensures RateLimitsWait(head + rest)
  {
    var t := head + rest;
    forall i | 0 <= i < |t| - 1 && t[i].Call? && t[i].answer.RateLimited? ensures t[i + 1].Wait? {
      if i >= |head| {
        assert t[i] == rest[i - |head|];
        assert t[i + 1] == rest[i + 1 - |head|];
      }
    }
  }

  /** The first wait lasts backoffDelay and every later wait twice the
      one before, whatever rejected replies come in between. */
  lemma {:induction false} FetchDelaysDouble(codec: JsonCodec, provider: Provider, n: nat, sectionPrompt: string,
                                             sectionName: string, schema: Schema, retries: int,
                                             backoffDelay: int, errorMessage: string)
    ensures var d := Delays(FetchLoop(codec, provider, n, sectionPrompt, sectionName, schema, retries, backoffDelay, errorMessage).trace);
            Doubling(d, backoffDelay)
    decreases retries
  {
    var o := FetchLoop(codec, provider, n, sectionPrompt, sectionName, schema, retries, backoffDelay, errorMessage);
    var answer := provider(n);
    var call := Call(Request(sectionPrompt, errorMessage, sectionName), answer);
    if retries > 0 && !Final(codec, schema, answer) {
      var delay', clause' := NextDelay(answer, retries, backoffDelay), NextClause(codec, schema, answer, errorMessage);
      FetchDelaysDouble(codec, provider, n + 1, sectionPrompt, sectionName, schema, retries - 1, delay', clause');
      var rest := FetchLoop(codec, provider, n + 1, sectionPrompt, sectionName, schema, retries - 1, delay', clause').trace;
      var head := [call] + Pause(answer, retries, backoffDelay);
      assert o.trace == head + rest;
      AttemptEvents(call, answer, retries, backoffDelay);
      DelaysAppend(head, rest);
      var d := Delays(o.trace);
      if answer.RateLimited? && retries > 1 {
        assert d == [backoffDelay] + Delays(rest);
        forall k | 0 < k < |d| ensures d[k] == 2 * d[k - 1] {
          assert d[k] == Delays(rest)[k - 1];
          if k > 1 {
            assert d[k - 1] == Delays(rest)[k - 2];
          }
        }
      } else {
        assert d == Delays(rest);
      }
    } else if retries > 0 {
      assert o.trace == [call];
      assert o.trace[1..] == [];
    }
  }

  /** A sequence of delays starting at `first` and doubling each time. */
  predicate Doubling(d: seq<int>, first: int) {
    && (|d| > 0 ==> d[0] == first)
    && forall k :: 0 < k < |d| ==> d[k] == 2 * d[k - 1]
  }

  /** So the k-th wait lasts backoffDelay * 2^k. */
  lemma {:induction false} DoublingClosedForm(d: seq<int>, first: int, k: nat)
    requires Doubling(d, first) && k < |d|
    ensures d[k] == first * Pow2(k)
  {
    if k > 0 {
      DoublingClosedForm(d, first, k - 1);
      assert d[k] == 2 * (first * Pow2(k - 1));
      assert first * Pow2(k) == first * (2 * Pow2(k - 1));
    }
  }

  /** Every request in the trace carries the corrective clause when some
      earlier reply was rejected, and the initial clause otherwise. */
  ghost predicate ClausesFollowRejections(codec: JsonCodec, schema: Schema, t: seq<Event>, sectionPrompt: string,
                                          errorMessage: string, sectionName: string) {
    forall i :: 0 <= i < |t| && t[i].Call? ==>
      t[i].request == Request(sectionPrompt,
                              if RejectedBefore(codec, schema, t, i) then CorrectiveClause else errorMessage,
                              sectionName)
  }

  /** The first request carries the given error clause (none, at the
      start of a fetch); a later request carries the corrective clause
      exactly when some earlier reply was rejected. */
  lemma {:induction false} FetchRequestClauses(codec: JsonCodec, provider: Provider, n: nat, sectionPrompt: string,
                                               sectionName: string, schema: Schema, retries: int,
                                               backoffDelay: int, errorMessage: string)
    ensures ClausesFollowRejections(codec, schema,
                                    FetchLoop(codec, provider, n, sectionPrompt, sectionName, schema, retries, backoffDelay, errorMessage).trace,
                                    sectionPrompt, errorMessage, sectionName)
    decreases retries
  {
    var answer := provider(n);
    var call := Call(Request(sectionPrompt, errorMessage, sectionName), answer);
    var t := FetchLoop(codec, provider, n, sectionPrompt, sectionName, schema, retries, backoffDelay, errorMessage).trace;
    if retries > 0 && !Final(codec, schema, answer) {
      var delay', clause' := NextDelay(answer, retries, backoffDelay), NextClause(codec, schema, answer, errorMessage);
      FetchRequestClauses(codec, provider, n + 1, sectionPrompt, sectionName, schema, retries - 1, delay', clause');
      var rest := FetchLoop(codec, provider, n + 1, sectionPrompt, sectionName, schema, retries - 1, delay', clause').trace;
      var head := [call] + Pause(answer, retries, backoffDelay);
      AttemptEvents(call, answer, retries, backoffDelay);
      assert t == head + rest;
      ClausesAfterHead(codec, schema, head, rest, answer, sectionPrompt, errorMessage, clause', sectionName);
    } else if retries > 0 {
      assert t == [call];
      assert !RejectedBefore(codec, schema, t, 0);
    }
  }

  /** One attempt that does not end the loop, then the rest of the fetch
      under the clause that attempt leaves: the clauses follow the
      rejections over the whole trace. */
  lemma ClausesAfterHead(codec: JsonCodec, schema: Schema, head: seq<Event>, rest: seq<Event>,
                         answer: ProviderOutcome, sectionPrompt: string, errorMessage: string,
                         clause': string, sectionName: string)
    requires |head| == 1 || (|head| == 2 && head[1].Wait?)
    requires head[0] == Call(Request(sectionPrompt, errorMessage, sectionName), answer)
    requires clause' == NextClause(codec, schema, answer, errorMessage)
    requires ClausesFollowRejections(codec, schema, rest, sectionPrompt, clause', sectionName)
    ensures ClausesFollowRejections(codec, schema, head + rest, sectionPrompt, errorMessage, sectionName)
  {
    var t := head + rest;
    PrefixTrace(head, rest);
    assert RejectedBefore(codec, schema, head, |head|) <==> Rejected(codec, schema, answer) by {
      if RejectedBefore(codec, schema, head, |head|) {
        var j :| 0 <= j < |head| && j < |head| && head[j].Call? && Rejected(codec, schema, head[j].answer);
        assert j == 0;
      }
      if Rejected(codec, schema, answer) {
        assert head[0].Call? && Rejected(codec, schema, head[0].answer);
      }
    }
    forall i | 0 <= i < |t| && t[i].Call?
      ensures t[i].request == Request(sectionPrompt,
                                      if RejectedBefore(codec, schema, t, i) then CorrectiveClause else errorMessage,
                                      sectionName)
    {
      if i >= |head| {
        var i' := i - |head|;
        assert t[i] == rest[i'];
        RejectedBeforeAppend(codec, schema, head, rest, i');
      } else {
        assert i == 0;
        assert !RejectedBefore(codec, schema, t, 0);
      }
    }
  }

  /** Every request of a fetch is built from the section prompt and
      section name it was given. */
  predicate RequestsFor(t: seq<Event>, sectionPrompt: string, sectionName: string) {
    forall i :: 0 <= i < |t| && t[i].Call? ==>
      t[i].request.sectionPrompt == sectionPrompt && t[i].request.sectionName == sectionName
  }

  /** What the request handler relies on, for a fetch with the default
      budget: at most three calls, all for this section; a throw carries the
      fetch error and ends at a failed call; a value comes with no failure
      and is `{}` or conforms to the schema. */
  lemma DefaultFetch(codec: JsonCodec, provider: Provider, n: nat, sectionPrompt: string,
                     sectionName: string, schema: Schema)
    ensures var o := FetchLoop(codec, provider, n, sectionPrompt, sectionName, schema, DefaultRetries, DefaultBackoffDelay, "");
            && CallCount(o.trace) <= 3
            && RequestsFor(o.trace, sectionPrompt, sectionName)
            && (o.result.Thrown? ==>
                  && o.result.message == FetchErrorMessage
                  && o.trace != [] && Last(o.trace).Call? && Last(o.trace).answer.Failed?
                  && NoFailure(o.trace[..|o.trace| - 1]))
            && (o.result.Fetched? ==>
                  NoFailure(o.trace) && (o.result.value == EmptyObject || Conforms(o.result.value, schema)))
  {
    FetchCallBound(codec, provider, n, sectionPrompt, sectionName, schema, DefaultRetries, DefaultBackoffDelay, "");
    FetchRequestClauses(codec, provider, n, sectionPrompt, sectionName, schema, DefaultRetries, DefaultBackoffDelay, "");
    FetchThrowsOnFailure(codec, provider, n, sectionPrompt, sectionName, schema, DefaultRetries, DefaultBackoffDelay, "");
    FetchThrowEndsAtFailure(codec, provider, n, sectionPrompt, sectionName, schema, DefaultRetries, DefaultBackoffDelay, "");
    FetchedConforms(codec, provider, n, sectionPrompt, sectionName, schema, DefaultRetries, DefaultBackoffDelay, "");
  }

  // ---------------------------------------------------------------------
  // Scenarios

  /** Three 429s in a row: waits of 1000 and 2000 ms between the calls,
      and the section silently degrades to `{}`. */
  lemma RateLimitedThrice(codec: JsonCodec, provider: Provider, n: nat, sectionPrompt: string,
                          sectionName: string, schema: Schema)
    requires provider(n).RateLimited? && provider(n + 1).RateLimited? && provider(n + 2).RateLimited?
    ensures var request := Request(sectionPrompt, "", sectionName);
            FetchLoop(codec, provider, n, sectionPrompt, sectionName, schema, DefaultRetries, DefaultBackoffDelay, "")
            == Outcome(Fetched(EmptyObject),
                       [Call(request, RateLimited), Wait(1000), Call(request, RateLimited), Wait(2000),
                        Call(request, RateLimited)])
  {
    var request := Request(sectionPrompt, "", sectionName);
    var last := FetchLoop(codec, provider, n + 2, sectionPrompt, sectionName, schema, 1, 4000, "");
    assert last == Outcome(Fetched(EmptyObject), [Call(request, RateLimited)]);
    var second := FetchLoop(codec, provider, n + 1, sectionPrompt, sectionName, schema, 2, 2000, "");
    assert second == Outcome(Fetched(EmptyObject), [Call(request, RateLimited), Wait(2000)] + last.trace);
  }

  /** Three rejected replies: the second and third requests carry the
      corrective clause, no wait happens, and the result is `{}`. */
  lemma RejectedThrice(codec: JsonCodec, provider: Provider, n: nat, sectionPrompt: string,
                       sectionName: string, schema: Schema)
    requires Rejected(codec, schema, provider(n)) && Rejected(codec, schema, provider(n + 1))
             && Rejected(codec, schema, provider(n + 2))
    ensures FetchLoop(codec, provider, n, sectionPrompt, sectionName, schema, DefaultRetries, DefaultBackoffDelay, "")
            == Outcome(Fetched(EmptyObject),
                       [Call(Request(sectionPrompt, "", sectionName), provider(n)),
                        Call(Request(sectionPrompt, CorrectiveClause, sectionName), provider(n + 1)),
                        Call(Request(sectionPrompt, CorrectiveClause, sectionName), provider(n + 2))])
  {
    var corrected := Request(sectionPrompt, CorrectiveClause, sectionName);
    var last := FetchLoop(codec, provider, n + 2, sectionPrompt, sectionName, schema, 1, 1000, CorrectiveClause);
    assert last == Outcome(Fetched(EmptyObject), [Call(corrected, provider(n + 2))]);
    var second := FetchLoop(codec, provider, n + 1, sectionPrompt, sectionName, schema, 2, 1000, CorrectiveClause);
    assert second == Outcome(Fetched(EmptyObject), [Call(corrected, provider(n + 1))] + last.trace);
  }

  /** A failure on the first call: one call, and the fetch throws. */
  lemma FailsAtOnce(codec: JsonCodec, provider: Provider, n: nat, sectionPrompt: string,
                    sectionName: string, schema: Schema, retries: int, backoffDelay: int)
    requires retries > 0 && provider(n).Failed?
    ensures FetchLoop(codec, provider, n, sectionPrompt, sectionName, schema, retries, backoffDelay, "")
            == Outcome(Thrown("Error communicating with OpenAI API"), [Call(Request(sectionPrompt, "", sectionName), Failed)])
  {
  }

  /** A reply accepted after a 429: one wait of backoffDelay, and the
      parsed reply is the result. */
  lemma AcceptedAfterRateLimit(codec: JsonCodec, provider: Provider, n: nat, sectionPrompt: string,
                               sectionName: string, schema: Schema)
    requires provider(n).RateLimited? && Accepted(codec, schema, provider(n + 1))
    ensures var request := Request(sectionPrompt, "", sectionName);
            FetchLoop(codec, provider, n, sectionPrompt, sectionName, schema, DefaultRetries, DefaultBackoffDelay, "")
            == Outcome(Fetched(codec.parse(RawText(provider(n + 1))).value),
                       [Call(request, RateLimited), Wait(1000), Call(request, provider(n + 1))])
  {
    var request := Request(sectionPrompt, "", sectionName);
    var second := FetchLoop(codec, provider, n + 1, sectionPrompt, sectionName, schema, 2, 2000, "");
    assert second.trace == [Call(request, provider(n + 1))];
  }

  /** The rendered message starts with the section prompt. */
  lemma ContentStartsWithPrompt(r: Request)
    ensures r.sectionPrompt <= r.Content()
  {
  }
}
