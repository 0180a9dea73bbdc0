/**
 Names of JSON fields. A name the gateway spells out is a constructor, every other name is `Other`.
 */
module JsonKeys {
  datatype Key =
    | Annotations | Arguments | CacheCreationInputTokens | CacheReadInputTokens | CachedContentTokenCount
    | CachedTokens | CallId | Candidates | Choices | CompletionTokens | Content | ContentIndex | Created | Data | Delta
    | Extra | FinishReason | Function | Id | Index | Input | InputTokens | InputTokensDetails | Item | ItemId
    | Kind | Message | Messages | Model | Name | Object | Output | OutputIndex | OutputText | OutputTokens
    | Part | PromptTokens | PromptTokensDetails | ReasoningContent | Role | Signature | Status
    | StopReason | StopSequence | Summary | Text | Thinking | ToolCallId | ToolCalls | ToolUseId
    | TotalTokens | Type | Usage | UsageMetadata
    | Other(name: string)
}

/** JSON values and their text. `Serde` stands for the JSON printer and parser. */
module JsonValues {
  import opened Collections
  import K = JsonKeys

  datatype Json =
    | Null
    | Bool(b: bool)
    | Num(n: int)
    | Str(s: string)
    | Arr(items: seq<Json>)
    | Obj(fields: map<K.Key, Json>)

  datatype Result<+T, +E> = Ok(value: T) | Err(error: E)
  {
    predicate IsFailure() {
      Err?
    }

    function PropagateFailure<U>(): Result<U, E>
      requires Err?
    {
      Err(error)
    }

    function Extract(): T
      requires Ok?
    {
      value
    }
  }

  /** A step that can fail. */
  type Step<!T, U, E> = T -> Result<U, E>

  /** All results in order, or the first error. */
  function Collected<T, U, E>(s: seq<T>, f: Step<T, U, E>): Result<seq<U>, E> {
    if s == [] then Ok([])
    else
      var first :- f(s[0]);
      var rest :- Collected(s[1..], f);
      Ok([first] + rest)
  }

  lemma CollectedFirst<T, U, E>(x: T, s: seq<T>, f: Step<T, U, E>, first: U, rest: seq<U>)
    requires f(x) == Ok(first) && Collected(s, f) == Ok(rest)
    ensures Collected([x] + s, f) == Ok([first] + rest)
  {
    assert ([x] + s)[1..] == s;
  }

  lemma CollectedOne<T, U, E>(x: T, f: Step<T, U, E>)
    ensures Collected([x], f) == if f(x).Ok? then Ok([f(x).value]) else Err(f(x).error)
  {
    assert Collected([x][1..], f) == Ok([]);
    if f(x).Ok? {
      assert [f(x).value] + [] == [f(x).value];
    }
  }

  lemma {:induction false} CollectedConcat<T, U, E>(a: seq<T>, b: seq<T>, f: Step<T, U, E>)
    ensures Collected(a + b, f).Ok? <==> Collected(a, f).Ok? && Collected(b, f).Ok?
    ensures Collected(a + b, f).Ok? ==> Collected(a + b, f).value == Collected(a, f).value + Collected(b, f).value
  {
    if a == [] {
      assert a + b == b;
    } else {
      assert (a + b)[0] == a[0] && (a + b)[1..] == a[1..] + b;
      CollectedConcat(a[1..], b, f);
    }
  }

  lemma {:induction false} CollectedFailsAt<T, U, E>(s: seq<T>, f: Step<T, U, E>, i: nat)
    requires i < |s| && Collected(s[..i], f).Ok? && f(s[i]).Err?
    ensures Collected(s, f) == Err(f(s[i]).error)
    decreases i
  {
    if i == 0 {
    } else {
      assert s[..i][1..] == s[1..][..i - 1];
      CollectedFailsAt(s[1..], f, i - 1);
    }
  }

  /** Serialization to text and back. */
  datatype Serde = Serde(toText: Json -> string, fromText: string -> Option<Json>)
  {
    /** Printed JSON parses back to itself. */
    ghost predicate Lawful() {
      forall v: Json :: fromText(toText(v)) == Some(v)
    }
  }

  const U64_LIMIT: nat := MAX_U64 + 1

  type U64 = n: nat | n < U64_LIMIT

  function SaturatingAdd(a: U64, b: U64): U64 {
    if a + b < U64_LIMIT then a + b else U64_LIMIT - 1
  }

  function SaturatingSub(a: U64, b: U64): U64 {
    if a < b then 0 else a - b
  }

  function Get(v: Json, key: K.Key): Option<Json> {
    if v.Obj? && key in v.fields then Some(v.fields[key]) else None
  }

  /** The field of a value that may itself be missing. */
  function GetIn(v: Option<Json>, key: K.Key): Option<Json> {
    if v.Some? then Get(v.value, key) else None
  }

  function AsStr(v: Option<Json>): Option<string> {
    if v.Some? && v.value.Str? then Some(v.value.s) else None
  }

  function AsArr(v: Option<Json>): Option<seq<Json>> {
    if v.Some? && v.value.Arr? then Some(v.value.items) else None
  }

  function ItemsOf(v: Option<Json>): seq<Json> {
    if AsArr(v).None? then [] else AsArr(v).value
  }

  function AsU64(v: Option<Json>): Option<U64> {
    if v.Some? && v.value.Num? && 0 <= v.value.n < U64_LIMIT then Some(v.value.n) else None
  }

  function StrOr(v: Option<Json>, default: string): string {
    if AsStr(v).Some? then AsStr(v).value else default
  }

  function Or<T>(a: Option<T>, b: Option<T>): Option<T> {
    if a.Some? then a else b
  }

  // ----- text ----------------------------------------------------------------------------

  /** White space as Unicode defines it. */
  predicate White(c: char) {
    var n := c as int;
    9 <= n <= 13 || n == 0x20 || n == 0x85 || n == 0xA0 || n == 0x1680 || 0x2000 <= n <= 0x200A
    || n == 0x2028 || n == 0x2029 || n == 0x202F || n == 0x205F || n == 0x3000
  }

  /** Nothing is left after trimming. */
  predicate Blank(s: string) {
    forall i :: 0 <= i < |s| ==> White(s[i])
  }

  function Utf8Width(c: char): nat {
    var n := c as int;
    if n < 0x80 then 1 else if n < 0x800 then 2 else if n < 0x1_0000 then 3 else 4
  }

  /** The length of a text in bytes. */
  function ByteLength(s: string): nat {
    if s == [] then 0 else Utf8Width(s[0]) + ByteLength(s[1..])
  }

  lemma {:induction false} ByteLengthConcat(a: string, b: string)
    ensures ByteLength(a + b) == ByteLength(a) + ByteLength(b)
  {
    if a == [] {
      assert a + b == b;
    } else {
      assert (a + b)[1..] == a[1..] + b;
      ByteLengthConcat(a[1..], b);
    }
  }

  predicate Contains(s: string, part: string) {
    part <= s || (s != [] && Contains(s[1..], part))
  }

  /** Texts joined with line breaks. */
  function Joined(texts: seq<string>): string {
    if texts == [] then ""
    else if |texts| == 1 then texts[0]
    else texts[0] + "\n" + Joined(texts[1..])
  }

  const LINE_BREAK: char := '\n'

  predicate OneLine(s: string) {
    LINE_BREAK !in s
  }

  /** The lines of a text, after the beginning of a line. */
  function Lines(line: string, s: string): seq<string>
    decreases |s|
  {
    if s == [] then [line]
    else if s[0] == LINE_BREAK then [line] + Lines("", s[1..])
    else Lines(line + [s[0]], s[1..])
  }

  lemma {:induction false} LinesOfOne(line: string, s: string)
    requires OneLine(s)
    ensures Lines(line, s) == [line + s]
    decreases |s|
  {
    if s == [] {
      assert line + s == line;
    } else {
      LinesOfOne(line + [s[0]], s[1..]);
      assert line + [s[0]] + s[1..] == line + s;
    }
  }

  lemma {:induction false} LinesFirst(line: string, s: string, rest: string)
    requires OneLine(s)
    ensures Lines(line, s + "\n" + rest) == [line + s] + Lines("", rest)
    decreases |s|
  {
    var all := s + "\n" + rest;
    if s == [] {
      assert all[0] == LINE_BREAK && all[1..] == rest && line + s == line;
    } else {
      assert all[0] == s[0] && all[1..] == s[1..] + "\n" + rest;
      LinesFirst(line + [s[0]], s[1..], rest);
      assert line + [s[0]] + s[1..] == line + s;
    }
  }

  /** Joined texts can be told apart again when each of them is one line. */
  lemma {:induction false} JoinedLines(texts: seq<string>)
    requires texts != [] && forall i :: 0 <= i < |texts| ==> OneLine(texts[i])
    ensures Lines("", Joined(texts)) == texts
  {
    assert "" + texts[0] == texts[0];
    if |texts| == 1 {
      LinesOfOne("", texts[0]);
    } else {
      JoinedLines(texts[1..]);
      LinesFirst("", texts[0], Joined(texts[1..]));
      assert [texts[0]] + texts[1..] == texts;
    }
  }
}
