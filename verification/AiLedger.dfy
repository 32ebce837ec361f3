/** What one AI call costs: the two-attempt retry loop of `AiClient.complete` and
    the streamed variant, with the usage each reports and the tokens each charges. */
module AiLedger {
  import opened Wrappers

  datatype Usage = Usage(input: nat, output: nat, cacheCreation: nat, cacheRead: nat)

  const NOTHING := Usage(0, 0, 0, 0)

  function Accumulate(a: Usage, b: Usage): Usage {
    Usage(a.input + b.input, a.output + b.output, a.cacheCreation + b.cacheCreation, a.cacheRead + b.cacheRead)
  }

  /** Tokens billed: every input token, cached or not, and the output. */
  function Billed(u: Usage): nat {
    u.input + u.cacheCreation + u.cacheRead + u.output
  }

  datatype StopReason = EndTurn | Refusal | MaxTokens

  /** How one request ends: a message, whose text may be missing or blank and may
      not match the schema, or an SDK exception, which tells nothing about usage. */
  datatype Reply =
    | Message(usage: Usage, stop: StopReason, hasText: bool, matches: bool)
    | Broken

  function Cost(r: Reply): Usage {
    if r.Broken? then NOTHING else r.usage
  }

  /** `_call` raises an `AiError` on a refusal, a truncation, or no usable text. */
  predicate CallRaises(r: Reply) {
    r.Message? && (r.stop != EndTurn || !r.hasText)
  }

  /** Only text that fails the schema is worth a second attempt. */
  predicate Mismatch(r: Reply) {
    r.Message? && !CallRaises(r) && !r.matches
  }

  function TotalCost(replies: seq<Reply>): Usage {
    if replies == [] then NOTHING else Accumulate(Cost(replies[0]), TotalCost(replies[1..]))
  }

  lemma NothingCostsNothing(u: Usage)
    ensures Accumulate(NOTHING, u) == u == Accumulate(u, NOTHING)
    ensures Billed(NOTHING) == 0
  {
  }

  lemma BilledAdds(a: Usage, b: Usage)
    ensures Billed(Accumulate(a, b)) == Billed(a) + Billed(b)
  {
  }

  /** A token more of any kind is a token more on the bill, and nothing costs nothing. */
  lemma EveryTokenCounts(u: Usage, n: nat)
    ensures Billed(u.(input := u.input + n)) == Billed(u) + n
    ensures Billed(u.(output := u.output + n)) == Billed(u) + n
    ensures Billed(u.(cacheCreation := u.cacheCreation + n)) == Billed(u) + n
    ensures Billed(u.(cacheRead := u.cacheRead + n)) == Billed(u) + n
    ensures Billed(Usage(0, 0, 0, 0)) == 0
  {
  }

  lemma OneCosts(reply: Reply)
    ensures TotalCost([reply]) == Cost(reply)
  {
    hide Accumulate;
    assert [reply][1..] == [];
    NothingCostsNothing(Cost(reply));
  }

  lemma TwoCost(first: Reply, second: Reply)
    ensures TotalCost([first, second]) == Accumulate(Cost(first), Cost(second))
  {
    hide Accumulate;
    OneCosts(second);
    assert [first, second][1..] == [second];
  }

  /** What the caller sees: a result, an `AiError` with its usage, or the SDK's exception. */
  datatype Outcome =
    | Answer(usage: Usage, attempts: nat)
    | Error(usage: Usage)
    | SdkError

  const MAX_ATTEMPTS := 2

  /** The outcome the last request calls for, with the usage of every request sent. */
  predicate Reports(outcome: Outcome, last: Reply, total: Usage, sent: nat) {
    match outcome
    case Answer(usage, attempts) =>
      last.Message? && !CallRaises(last) && last.matches && usage == total && attempts == sent
    case Error(usage) => (CallRaises(last) || Mismatch(last)) && usage == total
    case SdkError => last.Broken?
  }

  /** What is charged once the final request's own cost is set aside. */
  predicate Charges(charged: nat, last: Reply, total: Usage) {
    charged + (if CallRaises(last) then Billed(Cost(last)) else 0) == Billed(total)
  }

  /** `complete` past its budget check. `replies` is what the API would answer to
      each attempt; `prompts` are the conversations sent, `repair` the turn a
      mismatch adds; `charged` is what `finally` records. */
  method Complete<M>(replies: seq<Reply>, messages: seq<M>, repair: M)
    returns (outcome: Outcome, charged: nat, prompts: seq<seq<M>>)
    requires |replies| == MAX_ATTEMPTS
    // At most two requests; the second, with the repair turn, only after a mismatch.
    ensures prompts ==
            if replies[0].Message? && replies[0].stop == EndTurn && replies[0].hasText && !replies[0].matches
            then [messages, messages + [repair]] else [messages]
    // The last request decides: an answer, an error with the usage of all, or the SDK's exception.
    ensures outcome.Answer? <==> var last := replies[|prompts| - 1];
              last.Message? && last.stop == EndTurn && last.hasText && last.matches
    ensures outcome.SdkError? <==> replies[|prompts| - 1].Broken?
    ensures Reports(outcome, replies[|prompts| - 1], TotalCost(replies[..|prompts|]), |prompts|)
    // The charge leaves out a final request that itself raised.
    ensures Charges(charged, replies[|prompts| - 1], TotalCost(replies[..|prompts|]))
    // So the charge is complete exactly when no request that cost something raised.
    ensures charged == Billed(TotalCost(replies[..|prompts|])) <==> var last := replies[|prompts| - 1];
              !(last.Message? && (last.stop != EndTurn || !last.hasText) && Billed(last.usage) > 0)
  {
    hide TotalCost, Accumulate, Billed;
    OneCosts(replies[0]);
    TwoCost(replies[0], replies[1]);
    assert replies[..1] == [replies[0]] && replies[..2] == [replies[0], replies[1]];
    NothingCostsNothing(Cost(replies[0]));
    BilledAdds(Cost(replies[0]), Cost(replies[1]));
    var usage := NOTHING;
    var attemptMessages := messages;
    outcome, charged, prompts := SdkError, 0, [];
    for attempt := 1 to MAX_ATTEMPTS + 1
      invariant attempt <= MAX_ATTEMPTS
      invariant attempt == 1 ==> prompts == [] && attemptMessages == messages && usage == NOTHING
      invariant attempt == 2 ==> prompts == [messages] && attemptMessages == messages + [repair]
      invariant attempt == 2 ==> Mismatch(replies[0]) && usage == Cost(replies[0])
    {
      prompts := prompts + [attemptMessages];
      var reply := replies[attempt - 1];
      if reply.Broken? {
        return SdkError, Billed(usage), prompts;
      }
      if CallRaises(reply) {
        return Error(Accumulate(usage, reply.usage)), Billed(usage), prompts;
      }
      usage := Accumulate(usage, reply.usage);
      if reply.matches {
        return Answer(usage, attempt), Billed(usage), prompts;
      }
      if attempt == MAX_ATTEMPTS {
        return Error(usage), Billed(usage), prompts;
      }
      attemptMessages := attemptMessages + [repair];
    }
    assert false;
  }

  /** `stream_text` past its budget check: no second attempt, a blank answer is no
      error, and `finally` charges refusal and truncation in full; a stream that
      breaks off, or whose reader stops, is not charged at all. */
  method StreamText(reply: Reply) returns (raised: Option<Usage>, charged: nat)
    ensures charged == Billed(TotalCost([reply]))
    ensures raised == if reply.Message? && reply.stop != EndTurn then Some(reply.usage) else None
    ensures raised.Some? ==> Billed(raised.value) == charged
  {
    hide TotalCost;
    var usage := NOTHING;
    raised := None;
    OneCosts(reply);
    if reply.Message? {
      usage := reply.usage;
      if reply.stop != EndTurn {
        raised := Some(usage);
      }
    }
    charged := Billed(usage);
  }
}
