/** Token accounting across protocols: `src/protocol/parse.rs` and `src/protocol/response_encode.rs`. */
module TokenUsage {
  import opened Collections
  import opened Protocols
  import opened JsonValues
  import K = JsonKeys

  /** `cacheInput` is the denominator recorded for cached tokens; it is not sent to clients. */
  datatype Usage = Usage(input: U64, output: U64, cached: U64, cacheInput: U64)

  function InclusiveInput(u: Usage): U64 {
    if u.cacheInput < u.input then u.input else u.cacheInput
  }

  function UncachedInput(u: Usage): U64 {
    SaturatingSub(InclusiveInput(u), u.cached)
  }

  /** The usage object of a client response, without its cost. */
  function EncodeUsage(protocol: Protocol, usage: Option<Usage>): Json {
    if usage.None? then Null
    else
      var u := usage.value;
      var total := InclusiveInput(u);
      match protocol
      case ChatCompletions =>
        Obj(map[
          K.PromptTokens := Num(total),
          K.CompletionTokens := Num(u.output),
          K.TotalTokens := Num(SaturatingAdd(total, u.output)),
          K.PromptTokensDetails := Obj(map[K.CachedTokens := Num(u.cached)])
        ])
      case Responses =>
        Obj(map[
          K.InputTokens := Num(total),
          K.OutputTokens := Num(u.output),
          K.TotalTokens := Num(SaturatingAdd(total, u.output)),
          K.InputTokensDetails := Obj(map[K.CachedTokens := Num(u.cached)])
        ])
      case Messages =>
        Obj(map[
          K.InputTokens := Num(UncachedInput(u)),
          K.OutputTokens := Num(u.output),
          K.CacheReadInputTokens := Num(u.cached)
        ])
  }

  function OrZero(v: Option<U64>): U64 {
    if v.Some? then v.value else 0
  }

  function ParseCachedInput(v: Json): Option<U64> {
    AsU64(Or(GetIn(Get(v, K.PromptTokensDetails), K.CachedTokens),
          Or(GetIn(Get(v, K.InputTokensDetails), K.CachedTokens),
          Or(Get(v, K.CacheReadInputTokens),
          Or(Get(v, K.CachedContentTokenCount),
             Get(v, K.CachedTokens))))))
  }

  function CacheInputTotal(v: Json, inputKey: K.Key, input: U64): U64 {
    if inputKey != K.InputTokens then input
    else
      SaturatingAdd(
        SaturatingAdd(input, OrZero(AsU64(Get(v, K.CacheReadInputTokens)))),
        OrZero(AsU64(Get(v, K.CacheCreationInputTokens))))
  }

  /** `parse_usage` */
  function ParseUsage(value: Option<Json>, inputKey: K.Key, outputKey: K.Key): Option<Usage> {
    if value.None? then None
    else
      var v := value.value;
      var input, output := AsU64(Get(v, inputKey)), AsU64(Get(v, outputKey));
      if input.None? || output.None? then None
      else Some(Usage(input.value, output.value, OrZero(ParseCachedInput(v)), CacheInputTotal(v, inputKey, input.value)))
  }

  /** The usage a response decoder of the protocol reads. */
  function DecodeUsage(protocol: Protocol, value: Option<Json>): Option<Usage> {
    if protocol == ChatCompletions then ParseUsage(value, K.PromptTokens, K.CompletionTokens)
    else ParseUsage(value, K.InputTokens, K.OutputTokens)
  }

  // ----- what a reader is told -----------------------------------------------------------

  /** Input tokens with the cached ones, cached tokens, output tokens. */
  datatype Tokens = Tokens(inclusive: nat, cached: nat, output: nat)

  function TokensOf(usage: Option<Usage>): Option<Tokens> {
    if usage.None? then None
    else Some(Tokens(InclusiveInput(usage.value), usage.value.cached, usage.value.output))
  }

  predicate CachedWithinInput(t: Option<Tokens>) {
    t.Some? ==> t.value.cached <= t.value.inclusive
  }

  /** One step through a protocol. Only Messages moves the triple, and only when more is cached than was read. */
  lemma HopTokens(protocol: Protocol, usage: Option<Usage>)
    ensures var t, t' := TokensOf(usage), TokensOf(DecodeUsage(protocol, Some(EncodeUsage(protocol, usage))));
      if protocol == Messages && !CachedWithinInput(t) then t' == Some(t.value.(inclusive := t.value.cached)) else t' == t
  {
    if usage.Some? {
      match protocol
      case ChatCompletions => ChatHop(usage.value);
      case Responses => ResponsesHop(usage.value);
      case Messages => MessagesHop(usage.value);
    }
  }

  lemma ChatHop(u: Usage)
    ensures DecodeUsage(ChatCompletions, Some(EncodeUsage(ChatCompletions, Some(u))))
         == Some(Usage(InclusiveInput(u), u.output, u.cached, InclusiveInput(u)))
  {
  }

  lemma ResponsesHop(u: Usage)
    ensures DecodeUsage(Responses, Some(EncodeUsage(Responses, Some(u))))
         == Some(Usage(InclusiveInput(u), u.output, u.cached, InclusiveInput(u)))
  {
    var v := EncodeUsage(Responses, Some(u));
    assert OrZero(ParseCachedInput(v)) == u.cached;
  }

  /** Cache reads are sent beside the rest of the input and added up again. */
  lemma MessagesHop(u: Usage)
    ensures DecodeUsage(Messages, Some(EncodeUsage(Messages, Some(u))))
         == Some(Usage(UncachedInput(u), u.output, u.cached, SaturatingAdd(UncachedInput(u), u.cached)))
  {
    var v := EncodeUsage(Messages, Some(u));
    assert OrZero(ParseCachedInput(v)) == u.cached;
  }

  /** A second step through the same protocol sends what the first one sent. */
  lemma UsageStable(protocol: Protocol, usage: Option<Usage>)
    ensures var v := EncodeUsage(protocol, usage);
      EncodeUsage(protocol, DecodeUsage(protocol, Some(v))) == v
  {
    HopTokens(protocol, usage);
    var v := EncodeUsage(protocol, usage);
    var usage' := DecodeUsage(protocol, Some(v));
    if usage.Some? {
      assert usage'.Some?;
      assert UncachedInput(usage'.value) == UncachedInput(usage.value) || protocol != Messages;
    }
  }

  /** The usage after a chain of encode and decode steps. */
  function Relay(usage: Option<Usage>, chain: seq<Protocol>): Option<Usage>
    decreases |chain|
  {
    if chain == [] then usage
    else Relay(DecodeUsage(chain[0], Some(EncodeUsage(chain[0], usage))), chain[1..])
  }

  /** The exact effect of any chain. */
  lemma {:induction false} RelayTokens(usage: Option<Usage>, chain: seq<Protocol>)
    ensures var t, t' := TokensOf(usage), TokensOf(Relay(usage, chain));
      if Messages in chain && !CachedWithinInput(t) then t' == Some(t.value.(inclusive := t.value.cached)) else t' == t
    decreases |chain|
  {
    if chain == [] {
    } else {
      HopTokens(chain[0], usage);
      RelayTokens(DecodeUsage(chain[0], Some(EncodeUsage(chain[0], usage))), chain[1..]);
    }
  }

  /** Five tokens read, ten of them said to be cached: after Messages, ten were read. */
  lemma CachedBeyondInputGrows()
    ensures TokensOf(Relay(Some(Usage(5, 0, 10, 5)), [Messages])) == Some(Tokens(10, 10, 0))
    ensures TokensOf(Some(Usage(5, 0, 10, 5))) == Some(Tokens(5, 10, 0))
  {
    RelayTokens(Some(Usage(5, 0, 10, 5)), [Messages]);
  }

  /** Tokens are conserved over a chain exactly when no more is cached than was read, or Messages is not in it. */
  lemma TokensConservedIff(usage: Option<Usage>, chain: seq<Protocol>)
    ensures TokensOf(Relay(usage, chain)) == TokensOf(usage)
       <==> CachedWithinInput(TokensOf(usage)) || Messages !in chain
  {
    RelayTokens(usage, chain);
  }

  // ----- usage as providers report it ------------------------------------------------------

  function Field(key: K.Key, value: Option<U64>): map<K.Key, Json> {
    if value.None? then map[] else map[key := Num(value.value)]
  }

  /** Anthropic reports cache reads and cache creation beside the input. */
  function AnthropicUsage(input: U64, output: U64, read: Option<U64>, created: Option<U64>): Json {
    Obj(map[K.InputTokens := Num(input), K.OutputTokens := Num(output)]
      + Field(K.CacheReadInputTokens, read) + Field(K.CacheCreationInputTokens, created))
  }

  /** All input counts: what was not cached, what was read from the cache and what was put into it. */
  lemma AnthropicInputAddsUp(input: U64, output: U64, read: Option<U64>, created: Option<U64>)
    ensures TokensOf(DecodeUsage(Messages, Some(AnthropicUsage(input, output, read, created))))
         == Some(Tokens(Min(MAX_U64, input + OrZero(read) + OrZero(created)), OrZero(read), output))
  {
    AnthropicFields(input, output, read, created);
  }

  lemma AnthropicFields(input: U64, output: U64, read: Option<U64>, created: Option<U64>)
    ensures var v := AnthropicUsage(input, output, read, created);
      && Get(v, K.InputTokens) == Some(Num(input)) && Get(v, K.OutputTokens) == Some(Num(output))
      && AsU64(Get(v, K.CacheReadInputTokens)) == read && AsU64(Get(v, K.CacheCreationInputTokens)) == created
      && OrZero(ParseCachedInput(v)) == OrZero(read)
  {
  }

  /** Chat Completions reports the cached tokens inside the prompt. */
  lemma ChatInputIsInclusive(prompt: U64, completion: U64, cached: U64)
    ensures var v := Obj(map[K.PromptTokens := Num(prompt), K.CompletionTokens := Num(completion),
                             K.PromptTokensDetails := Obj(map[K.CachedTokens := Num(cached)])]);
      TokensOf(DecodeUsage(ChatCompletions, Some(v))) == Some(Tokens(prompt, cached, completion))
  {
  }

  /** The totals a client reads add up, and the two Messages input counts sum to the inclusive input unless more is cached. */
  lemma ReportedTotals(u: Usage)
    ensures var v := EncodeUsage(ChatCompletions, Some(u));
      && AsU64(Get(v, K.PromptTokens)) == Some(InclusiveInput(u)) && AsU64(Get(v, K.CompletionTokens)) == Some(u.output)
      && AsU64(Get(v, K.TotalTokens)) == Some(Min(MAX_U64, InclusiveInput(u) + u.output))
    ensures var v := EncodeUsage(Responses, Some(u));
      && AsU64(Get(v, K.InputTokens)) == Some(InclusiveInput(u)) && AsU64(Get(v, K.OutputTokens)) == Some(u.output)
      && AsU64(Get(v, K.TotalTokens)) == Some(Min(MAX_U64, InclusiveInput(u) + u.output))
    ensures var v := EncodeUsage(Messages, Some(u));
      OrZero(AsU64(Get(v, K.InputTokens))) + OrZero(AsU64(Get(v, K.CacheReadInputTokens))) == InclusiveInput(u)
      <==> u.cached <= InclusiveInput(u)
  {
  }
}
