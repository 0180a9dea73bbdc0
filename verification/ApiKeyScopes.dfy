/** The access scope of a gateway API key and its stored form, `src/security/api_key_scope.rs`. */
module ApiKeyScopes {
  import opened Collections
  import opened JsonValues

  const MAX_ALLOWED_PROVIDERS: nat := 64
  const MAX_ALLOWED_MODEL_RULES: nat := 64
  const MAX_SCOPE_ENTRY_BYTES: nat := 128
  const MAX_SCOPE_JSON_BYTES: nat := 8 * 1024

  datatype ModelRule = Exact(value: string) | Prefix(prefix: string) {
    predicate Matches(model: string) {
      match this
      case Exact(value) => model == value
      case Prefix(prefix) => prefix <= model
    }

    function ToStored(): string {
      match this
      case Exact(value) => value
      case Prefix(prefix) => prefix + "*"
    }
  }

  datatype ApiKeyScope = ApiKeyScope(allowedProviderIds: seq<string>, allowedModels: seq<ModelRule>) {
    predicate AllowsProvider(providerId: string) {
      allowedProviderIds == [] || providerId in allowedProviderIds
    }

    predicate AllowsModel(model: string) {
      allowedModels == [] || exists i :: 0 <= i < |allowedModels| && allowedModels[i].Matches(model)
    }
  }

  datatype ScopeError =
    | EmptyEntry | EntryTooLong | Whitespace | ControlCharacter | OnlyWildcard | MisplacedWildcard
    | TooManyProviders | TooManyModels | StoredTooLong | NotAList

  // ----- entries -------------------------------------------------------------------------

  function TrimStart(s: string): string {
    if s != [] && White(s[0]) then TrimStart(s[1..]) else s
  }

  function TrimEnd(s: string): string {
    if s != [] && White(s[|s| - 1]) then TrimEnd(s[..|s| - 1]) else s
  }

  function Trim(s: string): string {
    TrimEnd(TrimStart(s))
  }

  predicate Control(c: char) {
    c as int < 32 || 127 <= c as int < 160
  }

  predicate AnyControl(s: string) {
    exists i :: 0 <= i < |s| && Control(s[i])
  }

  predicate AnyWhite(s: string) {
    exists i :: 0 <= i < |s| && White(s[i])
  }

  function ProviderEntry(raw: string): Result<string, ScopeError> {
    var trimmed := Trim(raw);
    if trimmed == "" then Err(EmptyEntry)
    else if ByteLength(trimmed) > MAX_SCOPE_ENTRY_BYTES then Err(EntryTooLong)
    else if AnyControl(trimmed) then Err(ControlCharacter)
    else Ok(trimmed)
  }

  /** `ModelRule::parse` */
  function ParseRule(raw: string): Result<ModelRule, ScopeError> {
    var trimmed := Trim(raw);
    if trimmed == "" then Err(EmptyEntry)
    else if ByteLength(trimmed) > MAX_SCOPE_ENTRY_BYTES then Err(EntryTooLong)
    else if AnyWhite(trimmed) then Err(Whitespace)
    else if AnyControl(trimmed) then Err(ControlCharacter)
    else if trimmed[|trimmed| - 1] == '*' then
      var prefix := trimmed[..|trimmed| - 1];
      if prefix == "" then Err(OnlyWildcard) else if '*' in prefix then Err(MisplacedWildcard) else Ok(Prefix(prefix))
    else if '*' in trimmed then Err(MisplacedWildcard)
    else Ok(Exact(trimmed))
  }

  /** Trimmed and checked providers, each once, in the order given. */
  function Providers(raw: seq<string>): Result<seq<string>, ScopeError> {
    if raw == [] then Ok([])
    else
      var before :- Providers(raw[..|raw| - 1]);
      var entry :- ProviderEntry(raw[|raw| - 1]);
      Ok(if entry in before then before else before + [entry])
  }

  predicate StoredAlready(rules: seq<ModelRule>, stored: string) {
    exists i :: 0 <= i < |rules| && rules[i].ToStored() == stored
  }

  function Rules(raw: seq<string>): Result<seq<ModelRule>, ScopeError> {
    if raw == [] then Ok([])
    else
      var before :- Rules(raw[..|raw| - 1]);
      var rule :- ParseRule(raw[|raw| - 1]);
      Ok(if StoredAlready(before, rule.ToStored()) then before else before + [rule])
  }

  function FromEntries(providers: seq<string>, models: seq<string>): Result<ApiKeyScope, ScopeError> {
    if |providers| > MAX_ALLOWED_PROVIDERS then Err(TooManyProviders)
    else if |models| > MAX_ALLOWED_MODEL_RULES then Err(TooManyModels)
    else
      var p :- Providers(providers);
      var m :- Rules(models);
      Ok(ApiKeyScope(p, m))
  }

  lemma {:induction false} ProvidersPrefix(raw: seq<string>, i: nat)
    requires i <= |raw| && Providers(raw[..i]).Err?
    ensures Providers(raw) == Err(Providers(raw[..i]).error)
    decreases |raw|
  {
    if i < |raw| {
      assert raw[..|raw| - 1][..i] == raw[..i];
      ProvidersPrefix(raw[..|raw| - 1], i);
    } else {
      assert raw[..i] == raw;
    }
  }

  lemma {:induction false} RulesPrefix(raw: seq<string>, i: nat)
    requires i <= |raw| && Rules(raw[..i]).Err?
    ensures Rules(raw) == Err(Rules(raw[..i]).error)
    decreases |raw|
  {
    if i < |raw| {
      assert raw[..|raw| - 1][..i] == raw[..i];
      RulesPrefix(raw[..|raw| - 1], i);
    } else {
      assert raw[..i] == raw;
    }
  }

  /** `from_entries`, with its two loops. */
  method ScopeFromEntries(providers: seq<string>, models: seq<string>) returns (r: Result<ApiKeyScope, ScopeError>)
    ensures r == FromEntries(providers, models)
  {
    if |providers| > MAX_ALLOWED_PROVIDERS {
      return Err(TooManyProviders);
    }
    if |models| > MAX_ALLOWED_MODEL_RULES {
      return Err(TooManyModels);
    }
    var allowedProviders: seq<string> := [];
    for i := 0 to |providers|
      invariant Providers(providers[..i]) == Ok(allowedProviders)
    {
      assert providers[..i + 1][..i] == providers[..i];
      var entry := ProviderEntry(providers[i]);
      if entry.Err? {
        ProvidersPrefix(providers, i + 1);
        return Err(entry.error);
      }
      if entry.value !in allowedProviders {
        allowedProviders := allowedProviders + [entry.value];
      }
    }
    assert providers[..|providers|] == providers;
    var allowedModels: seq<ModelRule> := [];
    for i := 0 to |models|
      invariant Rules(models[..i]) == Ok(allowedModels)
    {
      assert models[..i + 1][..i] == models[..i];
      var rule := ParseRule(models[i]);
      if rule.Err? {
        RulesPrefix(models, i + 1);
        return Err(rule.error);
      }
      if !StoredAlready(allowedModels, rule.value.ToStored()) {
        allowedModels := allowedModels + [rule.value];
      }
    }
    assert models[..|models|] == models;
    return Ok(ApiKeyScope(allowedProviders, allowedModels));
  }

  // ----- entries are canonical -----------------------------------------------------------

  predicate Edged(s: string) {
    s == "" || (!White(s[0]) && !White(s[|s| - 1]))
  }

  lemma {:induction false} TrimEndShape(s: string)
    ensures TrimEnd(s) <= s && (TrimEnd(s) != "" ==> !White(TrimEnd(s)[|TrimEnd(s)| - 1]))
  {
    if s != [] && White(s[|s| - 1]) {
      TrimEndShape(s[..|s| - 1]);
    }
  }

  lemma {:induction false} TrimStartShape(s: string)
    ensures TrimStart(s) != "" ==> !White(TrimStart(s)[0])
  {
    if s != [] && White(s[0]) {
      TrimStartShape(s[1..]);
    }
  }

  /** Trimming leaves no white space at the edges and changes nothing the second time. */
  lemma TrimShape(s: string)
    ensures Edged(Trim(s))
    ensures Edged(s) ==> Trim(s) == s
  {
    TrimStartShape(s);
    TrimEndShape(TrimStart(s));
  }

  lemma EntryCanonical(raw: string)
    requires ProviderEntry(raw).Ok?
    ensures ProviderEntry(ProviderEntry(raw).value) == ProviderEntry(raw)
  {
    TrimShape(raw);
    TrimShape(Trim(raw));
  }

  /** A stored rule is the trimmed entry, and parses to the same rule. */
  lemma RuleCanonical(raw: string)
    requires ParseRule(raw).Ok?
    ensures ParseRule(raw).value.ToStored() == Trim(raw)
    ensures ParseRule(ParseRule(raw).value.ToStored()) == ParseRule(raw)
  {
    var trimmed := Trim(raw);
    assert trimmed == trimmed[..|trimmed| - 1] + [trimmed[|trimmed| - 1]];
    TrimShape(raw);
    TrimShape(trimmed);
  }

  predicate CanonicalProviders(l: seq<string>) {
    && (forall i :: 0 <= i < |l| ==> ProviderEntry(l[i]) == Ok(l[i]))
    && (forall i, j :: 0 <= i < j < |l| ==> l[i] != l[j])
  }

  predicate CanonicalRules(l: seq<ModelRule>) {
    && (forall i :: 0 <= i < |l| ==> Reparses(l, i))
    && (forall i, j :: 0 <= i < j < |l| ==> l[i].ToStored() != l[j].ToStored())
  }

  predicate Reparses(l: seq<ModelRule>, i: nat)
    requires i < |l|
  {
    ParseRule(l[i].ToStored()) == Ok(l[i])
  }

  lemma {:induction false} ProvidersCanonical(raw: seq<string>)
    requires Providers(raw).Ok?
    ensures CanonicalProviders(Providers(raw).value) && |Providers(raw).value| <= |raw|
  {
    if raw == [] {
    } else {
      ProvidersCanonical(raw[..|raw| - 1]);
      EntryCanonical(raw[|raw| - 1]);
    }
  }

  lemma {:induction false} RulesCanonical(raw: seq<string>)
    requires Rules(raw).Ok?
    ensures CanonicalRules(Rules(raw).value) && |Rules(raw).value| <= |raw|
  {
    if raw == [] {
    } else {
      RulesCanonical(raw[..|raw| - 1]);
      RuleCanonical(raw[|raw| - 1]);
      var before, l := Rules(raw[..|raw| - 1]).value, Rules(raw).value;
      forall i | 0 <= i < |l| ensures Reparses(l, i) {
        assert i < |before| ==> Reparses(before, i);
      }
    }
  }

  lemma {:induction false} CanonicalProvidersStay(l: seq<string>)
    requires CanonicalProviders(l)
    ensures Providers(l) == Ok(l)
  {
    if l == [] {
    } else {
      var before := l[..|l| - 1];
      CanonicalProvidersStay(before);
      assert before + [l[|l| - 1]] == l;
    }
  }

  function Stored(rules: seq<ModelRule>): seq<string> {
    if rules == [] then [] else Stored(rules[..|rules| - 1]) + [rules[|rules| - 1].ToStored()]
  }

  lemma LastRuleIsNew(l: seq<ModelRule>)
    requires CanonicalRules(l) && l != []
    ensures var before, rule := l[..|l| - 1], l[|l| - 1];
      CanonicalRules(before) && ParseRule(rule.ToStored()) == Ok(rule) && !StoredAlready(before, rule.ToStored())
  {
    var before := l[..|l| - 1];
    assert Reparses(l, |l| - 1);
    forall i | 0 <= i < |before| ensures Reparses(before, i) {
      assert Reparses(l, i);
    }
  }

  lemma {:induction false} StoredLength(l: seq<ModelRule>)
    ensures |Stored(l)| == |l|
  {
    if l == [] {
    } else {
      StoredLength(l[..|l| - 1]);
    }
  }

  lemma StoredLast(before: seq<ModelRule>, rule: ModelRule)
    ensures Stored(before + [rule]) == Stored(before) + [rule.ToStored()]
  {
    assert (before + [rule])[..|before|] == before;
  }

  lemma {:induction false} CanonicalRulesStay(l: seq<ModelRule>)
    requires CanonicalRules(l)
    ensures Rules(Stored(l)) == Ok(l)
  {
    if l == [] {
    } else {
      var before, rule := l[..|l| - 1], l[|l| - 1];
      LastRuleIsNew(l);
      CanonicalRulesStay(before);
      RulesLast(Stored(before), before, rule);
      StoredLast(before, rule);
      assert l == before + [rule];
    }
  }

  lemma RulesLast(raw: seq<string>, before: seq<ModelRule>, rule: ModelRule)
    requires Rules(raw) == Ok(before) && ParseRule(rule.ToStored()) == Ok(rule) && !StoredAlready(before, rule.ToStored())
    ensures Rules(raw + [rule.ToStored()]) == Ok(before + [rule])
  {
    assert (raw + [rule.ToStored()])[..|raw|] == raw;
  }

  /** What was accepted once is accepted again, entry by entry, as the same scope. */
  lemma EntriesRoundTrip(providers: seq<string>, models: seq<string>)
    requires FromEntries(providers, models).Ok?
    ensures var scope := FromEntries(providers, models).value;
      FromEntries(scope.allowedProviderIds, Stored(scope.allowedModels)) == Ok(scope)
  {
    var scope := FromEntries(providers, models).value;
    ProvidersCanonical(providers);
    RulesCanonical(models);
    CanonicalProvidersStay(scope.allowedProviderIds);
    CanonicalRulesStay(scope.allowedModels);
    StoredLength(scope.allowedModels);
  }

  // ----- what a scope means --------------------------------------------------------------

  /** What an operator means by an entry: a name, or a beginning of names. */
  predicate Names(entry: string, model: string) {
    var t := Trim(entry);
    if t != "" && t[|t| - 1] == '*' then t[..|t| - 1] <= model else model == t
  }

  predicate AnyNames(models: seq<string>, model: string) {
    exists i :: 0 <= i < |models| && Names(models[i], model)
  }

  predicate AnyMatches(rules: seq<ModelRule>, model: string) {
    exists i :: 0 <= i < |rules| && rules[i].Matches(model)
  }

  lemma RuleMeans(raw: string, model: string)
    requires ParseRule(raw).Ok?
    ensures ParseRule(raw).value.Matches(model) <==> Names(raw, model)
  {
  }

  lemma AnyNamesLast(models: seq<string>, model: string)
    requires models != []
    ensures AnyNames(models, model) <==> AnyNames(models[..|models| - 1], model) || Names(models[|models| - 1], model)
  {
    var before := models[..|models| - 1];
    if AnyNames(before, model) {
      var i :| 0 <= i < |before| && Names(before[i], model);
      assert Names(models[i], model);
    }
    if AnyNames(models, model) {
      var i :| 0 <= i < |models| && Names(models[i], model);
      assert i < |before| ==> Names(before[i], model);
    }
  }

  lemma AnyMatchesLast(rules: seq<ModelRule>, rule: ModelRule, model: string)
    ensures AnyMatches(rules + [rule], model) <==> AnyMatches(rules, model) || rule.Matches(model)
  {
    var all := rules + [rule];
    if AnyMatches(rules, model) {
      var i :| 0 <= i < |rules| && rules[i].Matches(model);
      assert all[i].Matches(model);
    }
    if rule.Matches(model) {
      assert all[|rules|].Matches(model);
    }
  }

  lemma {:induction false} RulesMean(models: seq<string>, model: string)
    requires Rules(models).Ok?
    ensures AnyMatches(Rules(models).value, model) <==> AnyNames(models, model)
    ensures Rules(models).value == [] <==> models == []
  {
    if models == [] {
    } else {
      var before, raw := models[..|models| - 1], models[|models| - 1];
      RulesMean(before, model);
      RulesCanonical(before);
      RuleCanonical(raw);
      RuleMeans(raw, model);
      AnyNamesLast(models, model);
      var rules, rule := Rules(before).value, ParseRule(raw).value;
      AnyMatchesLast(rules, rule, model);
      if StoredAlready(rules, rule.ToStored()) {
        var i :| 0 <= i < |rules| && rules[i].ToStored() == rule.ToStored();
        assert Reparses(rules, i);
        assert rules[i] == rule;
      }
    }
  }

  lemma {:induction false} ProvidersMean(providers: seq<string>, id: string)
    requires Providers(providers).Ok?
    ensures id in Providers(providers).value <==> exists i :: 0 <= i < |providers| && Trim(providers[i]) == id
    ensures Providers(providers).value == [] <==> providers == []
  {
    if providers == [] {
    } else {
      ProvidersMean(providers[..|providers| - 1], id);
    }
  }

  /** The scope admits exactly what the submitted entries name; no entries admit everything. */
  lemma ScopeMeans(providers: seq<string>, models: seq<string>, id: string, model: string)
    requires FromEntries(providers, models).Ok?
    ensures var scope := FromEntries(providers, models).value;
      && (scope.AllowsProvider(id) <==> providers == [] || exists i :: 0 <= i < |providers| && Trim(providers[i]) == id)
      && (scope.AllowsModel(model) <==> models == [] || AnyNames(models, model))
  {
    ProvidersMean(providers, id);
    RulesMean(models, model);
  }

  // ----- the stored record ---------------------------------------------------------------

  /** A quoted JSON string; entries hold no control characters, so only quotes and backslashes are escaped. */
  function Escaped(s: string): string {
    if s == [] then "" else (if s[0] == '"' || s[0] == '\\' then ['\\', s[0]] else [s[0]]) + Escaped(s[1..])
  }

  function Quoted(s: string): string {
    ['"'] + Escaped(s) + ['"']
  }

  function QuotedList(entries: seq<string>): string {
    if entries == [] then ""
    else if |entries| == 1 then Quoted(entries[0])
    else Quoted(entries[0]) + "," + QuotedList(entries[1..])
  }

  /** The JSON text of a list of entries. */
  function ListText(entries: seq<string>): string {
    "[" + QuotedList(entries) + "]"
  }

  /** The two fields of a key record; None for a key from before scopes existed. */
  datatype ScopeRecord = ScopeRecord(providers: Option<string>, models: Option<string>)

  function WriteToRecord(scope: ApiKeyScope): ScopeRecord {
    ScopeRecord(Some(ListText(scope.allowedProviderIds)), Some(ListText(Stored(scope.allowedModels))))
  }

  /** `optional_entry_list`; `parse` reads a JSON array of strings. */
  function EntryList(parse: string -> Option<seq<string>>, field: Option<string>): Result<seq<string>, ScopeError> {
    if field.None? then Ok([])
    else if ByteLength(field.value) > MAX_SCOPE_JSON_BYTES then Err(StoredTooLong)
    else if parse(field.value).None? then Err(NotAList)
    else Ok(parse(field.value).value)
  }

  function FromRecord(parse: string -> Option<seq<string>>, record: ScopeRecord): Result<ApiKeyScope, ScopeError> {
    var providers :- EntryList(parse, record.providers);
    var models :- EntryList(parse, record.models);
    FromEntries(providers, models)
  }

  predicate FitsRecord(scope: ApiKeyScope) {
    ByteLength(ListText(scope.allowedProviderIds)) <= MAX_SCOPE_JSON_BYTES
    && ByteLength(ListText(Stored(scope.allowedModels))) <= MAX_SCOPE_JSON_BYTES
  }

  predicate Plain(entries: seq<string>) {
    forall i :: 0 <= i < |entries| ==> !AnyControl(entries[i])
  }

  /** The parser reads back every list that was written without control characters. */
  ghost predicate ReadsLists(parse: string -> Option<seq<string>>) {
    forall l: seq<string> :: Plain(l) ==> parse(ListText(l)) == Some(l)
  }

  lemma ProvidersPlain(l: seq<string>)
    requires CanonicalProviders(l)
    ensures Plain(l)
  {
    forall i | 0 <= i < |l| ensures !AnyControl(l[i]) {
      assert ProviderEntry(l[i]) == Ok(l[i]);
    }
  }

  lemma {:induction false} StoredPlain(l: seq<ModelRule>)
    requires CanonicalRules(l)
    ensures Plain(Stored(l))
  {
    if l == [] {
    } else {
      var rule := l[|l| - 1];
      LastRuleIsNew(l);
      StoredPlain(l[..|l| - 1]);
      RuleCanonical(rule.ToStored());
    }
  }

  /** An accepted scope is read back as it was written exactly when both texts fit the limit of the reader. */
  lemma RecordRoundTripIff(parse: string -> Option<seq<string>>, providers: seq<string>, models: seq<string>)
    requires ReadsLists(parse)
    requires FromEntries(providers, models).Ok?
    ensures var scope := FromEntries(providers, models).value;
      FromRecord(parse, WriteToRecord(scope)) == Ok(scope) <==> FitsRecord(scope)
  {
    EntriesRoundTrip(providers, models);
    var scope := FromEntries(providers, models).value;
    ProvidersCanonical(providers);
    ProvidersPlain(scope.allowedProviderIds);
    RulesCanonical(models);
    StoredPlain(scope.allowedModels);
    assert parse(ListText(scope.allowedProviderIds)) == Some(scope.allowedProviderIds);
    assert parse(ListText(Stored(scope.allowedModels))) == Some(Stored(scope.allowedModels));
  }

  // ----- an accepted scope that does not fit ---------------------------------------------

  function Repeat(n: nat): string {
    if n == 0 then "" else "p" + Repeat(n - 1)
  }

  lemma {:induction false} RepeatShape(n: nat)
    ensures |Repeat(n)| == n && ByteLength(Repeat(n)) == n && forall i :: 0 <= i < n ==> Repeat(n)[i] == 'p'
  {
    if n == 0 {
    } else {
      RepeatShape(n - 1);
    }
  }

  /** 128 letters, told apart by the last. */
  function LongId(k: nat): string
    requires k < 64
  {
    Repeat(127) + [(48 + k) as char]
  }

  lemma LongIdShape(k: nat)
    requires k < 64
    ensures |LongId(k)| == 128 && ByteLength(LongId(k)) == 128 && LongId(k)[127] == (48 + k) as char
    ensures ProviderEntry(LongId(k)) == Ok(LongId(k))
  {
    RepeatShape(127);
    var last := [(48 + k) as char];
    assert ByteLength(last[1..]) == 0;
    ByteLengthConcat(Repeat(127), last);
    assert Edged(LongId(k));
    TrimShape(LongId(k));
  }

  function LongIds(n: nat): seq<string>
    requires n <= 64
  {
    if n == 0 then [] else LongIds(n - 1) + [LongId(n - 1)]
  }

  lemma {:induction false} LongIdsShape(n: nat)
    requires n <= 64
    ensures |LongIds(n)| == n && forall i :: 0 <= i < n ==> LongIds(n)[i] == LongId(i)
  {
    if n == 0 {
    } else {
      LongIdsShape(n - 1);
    }
  }

  lemma LongIdsCanonical(n: nat)
    requires n <= 64
    ensures CanonicalProviders(LongIds(n)) && |LongIds(n)| == n
  {
    LongIdsShape(n);
    var l := LongIds(n);
    forall i | 0 <= i < n ensures ProviderEntry(l[i]) == Ok(l[i]) && |l[i]| == 128 && l[i][127] == (48 + i) as char {
      LongIdShape(i);
    }
  }

  lemma {:induction false} EscapedNotShorter(s: string)
    ensures ByteLength(Escaped(s)) >= ByteLength(s)
  {
    if s == [] {
    } else {
      EscapedNotShorter(s[1..]);
      var first := if s[0] == '"' || s[0] == '\\' then ['\\', s[0]] else [s[0]];
      ByteLengthConcat(first, Escaped(s[1..]));
      assert ByteLength([s[0]][1..]) == 0 && ['\\', s[0]][1..] == [s[0]];
    }
  }

  lemma QuotedLength(s: string)
    ensures ByteLength(Quoted(s)) >= ByteLength(s) + 2
  {
    EscapedNotShorter(s);
    ByteLengthConcat(['"'] + Escaped(s), ['"']);
    ByteLengthConcat(['"'], Escaped(s));
    assert ['"'][1..] == [];
  }

  /** A list text is longer than its entries with their quotes. */
  lemma {:induction false} QuotedListLength(entries: seq<string>)
    requires forall i :: 0 <= i < |entries| ==> ByteLength(entries[i]) == 128
    ensures ByteLength(QuotedList(entries)) >= 130 * |entries|
  {
    if entries == [] {
    } else {
      QuotedLength(entries[0]);
      QuotedListLength(entries[1..]);
      ByteLengthConcat(Quoted(entries[0]) + ",", QuotedList(entries[1..]));
      ByteLengthConcat(Quoted(entries[0]), ",");
    }
  }

  lemma ListTextLength(entries: seq<string>)
    requires forall i :: 0 <= i < |entries| ==> ByteLength(entries[i]) == 128
    ensures ByteLength(ListText(entries)) > 130 * |entries|
  {
    QuotedListLength(entries);
    ByteLengthConcat("[" + QuotedList(entries), "]");
    ByteLengthConcat("[", QuotedList(entries));
  }

  lemma ManyLongIds(parse: string -> Option<seq<string>>, l: seq<string>)
    requires CanonicalProviders(l) && 63 < |l| <= MAX_ALLOWED_PROVIDERS
    requires forall i :: 0 <= i < |l| ==> ByteLength(l[i]) == 128
    ensures FromEntries(l, []) == Ok(ApiKeyScope(l, []))
    ensures FromRecord(parse, WriteToRecord(ApiKeyScope(l, []))) == Err(StoredTooLong)
  {
    CanonicalProvidersStay(l);
    ListTextLength(l);
  }

  /** Some provider list is accepted and written, and cannot be read again: 64 ids of 128 bytes. */
  lemma AcceptedButUnreadable(parse: string -> Option<seq<string>>, n: nat) returns (l: seq<string>)
    requires n == MAX_ALLOWED_PROVIDERS
    ensures |l| == n && FromEntries(l, []).Ok?
    ensures FromRecord(parse, WriteToRecord(FromEntries(l, []).value)) == Err(StoredTooLong)
  {
    l := LongIds(n);
    LongIdsCanonical(n);
    LongIdsShape(n);
    forall i | 0 <= i < n ensures ByteLength(l[i]) == 128 {
      LongIdShape(i);
    }
    ManyLongIds(parse, l);
  }

  /** What an accepted scope can hold: at most 64 entries of each kind, each of 1 to 128 bytes and printable. */
  lemma AcceptedScopeBounds(providers: seq<string>, models: seq<string>)
    requires FromEntries(providers, models).Ok?
    ensures var scope := FromEntries(providers, models).value;
      && |scope.allowedProviderIds| <= 64 && |scope.allowedModels| <= 64
      && (forall i :: 0 <= i < |scope.allowedProviderIds| ==> GoodProvider(scope.allowedProviderIds[i]))
      && (forall i :: 0 <= i < |scope.allowedModels| ==> GoodRule(scope.allowedModels[i]))
  {
    var scope := FromEntries(providers, models).value;
    ProvidersCanonical(providers);
    RulesCanonical(models);
    forall i | 0 <= i < |scope.allowedProviderIds| ensures GoodProvider(scope.allowedProviderIds[i]) {
      assert ProviderEntry(scope.allowedProviderIds[i]) == Ok(scope.allowedProviderIds[i]);
      TrimShape(scope.allowedProviderIds[i]);
    }
    forall i | 0 <= i < |scope.allowedModels| ensures GoodRule(scope.allowedModels[i]) {
      assert Reparses(scope.allowedModels, i);
      RuleCanonical(scope.allowedModels[i].ToStored());
    }
  }

  predicate GoodProvider(id: string) {
    id != "" && ByteLength(id) <= 128 && !AnyControl(id) && Edged(id)
  }

  /** A rule has a name without white space, and a star at the end of its stored form only. */
  predicate GoodRule(rule: ModelRule) {
    var stored := rule.ToStored();
    && ByteLength(stored) <= 128 && !AnyControl(stored) && !AnyWhite(stored)
    && match rule
       case Exact(value) => value != "" && '*' !in value
       case Prefix(prefix) => prefix != "" && '*' !in prefix
  }
}
