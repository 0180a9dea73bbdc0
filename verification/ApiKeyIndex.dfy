/**
 The creation-order index of gateway API keys, `src/admin/api_keys.rs`: an index key whose
 bytewise ascending order is the descending order of (created_at, id), and the page cursor.
 */
module ApiKeyIndex {
  import opened Collections
  import opened ByteOrder

  const MAX_KEY_BYTES: nat := 500

  /** "created/" */
  const API_KEY_INDEX_PREFIX: Bytes := [99, 114, 101, 97, 116, 101, 100, 47]
  const SLASH: nat := 47

  predicate IsText(s: Bytes) {
    forall i :: 0 <= i < |s| ==> 0 <= s[i] < 256
  }

  predicate NulFree(s: Bytes) {
    forall i :: 0 <= i < |s| ==> 1 <= s[i] < 256
  }

  function HexDigit(n: nat): nat
    requires n < 16
  {
    if n < 10 then 48 + n else 87 + n
  }

  /** Two lower-case hexadecimal digits. */
  function Hex(b: nat): Bytes
    requires b < 256
  {
    [HexDigit(b / 16), HexDigit(b % 16)]
  }

  /** `reverse_lexical_component` */
  function Reverse(value: Bytes): Bytes
    requires IsText(value)
  {
    if value == [] then Hex(255) else Hex(255 - value[0]) + Reverse(value[1..])
  }

  /** The same text, written by the loop of the source. */
  method ReverseLexicalComponent(value: Bytes) returns (encoded: Bytes)
    requires IsText(value)
    ensures encoded == Reverse(value)
  {
    encoded := [];
    var i := 0;
    while i < |value|
      invariant 0 <= i <= |value|
      invariant Reverse(value) == encoded + Reverse(value[i..])
    {
      assert value[i..][1..] == value[i + 1..];
      encoded := encoded + Hex(255 - value[i]);
      i := i + 1;
    }
    encoded := encoded + Hex(255);
  }

  lemma HexOrder(m: nat, n: nat, x: Bytes, y: Bytes)
    requires m < n < 256
    ensures Less(Hex(m) + x, Hex(n) + y)
  {
    var a, b := Hex(m) + x, Hex(n) + y;
    assert a[0] == HexDigit(m / 16) && b[0] == HexDigit(n / 16);
    assert a[1..][0] == HexDigit(m % 16) && b[1..][0] == HexDigit(n % 16);
  }

  /** The encoding reverses the order, whatever follows it. */
  lemma {:induction false} ReverseOrder(a: Bytes, b: Bytes, x: Bytes, y: Bytes)
    requires NulFree(a) && NulFree(b) && Less(a, b)
    ensures Less(Reverse(b) + x, Reverse(a) + y)
    decreases |a|
  {
    var p := Hex(255 - b[0]);
    assert Reverse(b) + x == p + (Reverse(b[1..]) + x);
    if a == [] {
      HexOrder(255 - b[0], 255, Reverse(b[1..]) + x, y);
    } else {
      assert Reverse(a) + y == Hex(255 - a[0]) + (Reverse(a[1..]) + y);
      if a[0] < b[0] {
        HexOrder(255 - b[0], 255 - a[0], Reverse(b[1..]) + x, Reverse(a[1..]) + y);
      } else {
        ReverseOrder(a[1..], b[1..], x, y);
        LessAfterPrefix(p, Reverse(b[1..]) + x, Reverse(a[1..]) + y);
      }
    }
  }

  /** No encoding starts another one, and different texts have different encodings. */
  lemma ReversePrefixFree(a: Bytes, b: Bytes, x: Bytes)
    requires NulFree(a) && NulFree(b) && Reverse(b) == Reverse(a) + x
    ensures a == b
  {
    Connected(a, b);
    if Less(a, b) {
      ReverseOrder(a, b, [], x);
      assert Reverse(b) + [] == Reverse(b);
      Irreflexive(Reverse(b));
    } else if Less(b, a) {
      ReverseOrder(b, a, x, []);
      assert Reverse(b) + [] == Reverse(b);
      Irreflexive(Reverse(b));
    }
  }

  /** A NUL byte breaks both: the empty text encodes to a prefix of the encoding of a NUL. */
  lemma NulBreaksTheOrder()
    ensures Less([], [0]) && Less(Reverse([]), Reverse([0])) && Reverse([]) <= Reverse([0])
  {
    assert Reverse([0]) == Hex(255) + Reverse([0][1..]);
    LessAfterPrefix(Hex(255), [], Hex(255));
    assert Hex(255) + [] == Hex(255);
  }

  /** `api_key_index_key`; None when the storage refuses the key. */
  function IndexKey(createdAt: Bytes, id: Bytes): Option<Bytes>
    requires IsText(createdAt) && IsText(id)
  {
    var key := RawKey(createdAt, id);
    if |key| > MAX_KEY_BYTES || 0 in key then None else Some(key)
  }

  function RawKey(createdAt: Bytes, id: Bytes): Bytes
    requires IsText(createdAt) && IsText(id)
  {
    API_KEY_INDEX_PREFIX + Reverse(createdAt) + Reverse(id) + [SLASH] + id
  }

  lemma {:induction false} ReverseShape(value: Bytes)
    requires IsText(value)
    ensures |Reverse(value)| == 2 * |value| + 2 && 0 !in Reverse(value)
  {
    if value == [] {
    } else {
      ReverseShape(value[1..]);
    }
  }

  /** The storage takes a key exactly when it is short enough and the id holds no NUL. */
  lemma IndexKeyRefusedIff(createdAt: Bytes, id: Bytes)
    requires IsText(createdAt) && IsText(id)
    ensures IndexKey(createdAt, id).None? <==> 2 * |createdAt| + 3 * |id| > 487 || 0 in id
  {
    ReverseShape(createdAt);
    ReverseShape(id);
    var key := RawKey(createdAt, id);
    var front := API_KEY_INDEX_PREFIX + Reverse(createdAt) + Reverse(id) + [SLASH];
    assert key == front + id && 0 !in front;
    assert |key| == 13 + 2 * |createdAt| + 3 * |id|;
    if 0 in id {
      var i :| 0 <= i < |id| && id[i] == 0;
      assert key[|front| + i] == 0;
    }
  }

  /** Older, or equally old with the smaller id. */
  predicate Earlier(c1: Bytes, i1: Bytes, c2: Bytes, i2: Bytes) {
    Less(c1, c2) || (c1 == c2 && Less(i1, i2))
  }

  lemma KeyShape(c: Bytes, i: Bytes)
    requires IsText(c) && IsText(i)
    ensures RawKey(c, i) == API_KEY_INDEX_PREFIX + (Reverse(c) + (Reverse(i) + ([SLASH] + i)))
  {
  }

  lemma EarlierSortsLater(c1: Bytes, i1: Bytes, c2: Bytes, i2: Bytes)
    requires NulFree(c1) && NulFree(i1) && NulFree(c2) && NulFree(i2) && Earlier(c1, i1, c2, i2)
    ensures Less(RawKey(c2, i2), RawKey(c1, i1))
  {
    KeyShape(c1, i1);
    KeyShape(c2, i2);
    var t1, t2 := Reverse(i1) + ([SLASH] + i1), Reverse(i2) + ([SLASH] + i2);
    if Less(c1, c2) {
      ReverseOrder(c1, c2, t2, t1);
    } else {
      ReverseOrder(i1, i2, [SLASH] + i2, [SLASH] + i1);
      LessAfterPrefix(Reverse(c1), t2, t1);
    }
    LessAfterPrefix(API_KEY_INDEX_PREFIX, Reverse(c2) + t2, Reverse(c1) + t1);
  }

  /** Ascending index order is exactly descending (created_at, id) order. */
  lemma IndexOrderIff(c1: Bytes, i1: Bytes, c2: Bytes, i2: Bytes)
    requires NulFree(c1) && NulFree(i1) && NulFree(c2) && NulFree(i2)
    ensures Less(RawKey(c2, i2), RawKey(c1, i1)) <==> Earlier(c1, i1, c2, i2)
    ensures RawKey(c1, i1) == RawKey(c2, i2) <==> c1 == c2 && i1 == i2
  {
    Connected(c1, c2);
    Connected(i1, i2);
    if Earlier(c1, i1, c2, i2) {
      EarlierSortsLater(c1, i1, c2, i2);
      Asymmetric(RawKey(c2, i2), RawKey(c1, i1));
      Irreflexive(c1);
      Irreflexive(i1);
    } else if Earlier(c2, i2, c1, i1) {
      EarlierSortsLater(c2, i2, c1, i1);
      Asymmetric(RawKey(c1, i1), RawKey(c2, i2));
      Irreflexive(c1);
      Irreflexive(i1);
    } else {
      Irreflexive(RawKey(c1, i1));
    }
  }

  // ----- the page cursor -----------------------------------------------------------------

  datatype Cursor = Cursor(createdAt: Bytes, id: Bytes)

  /** The bytes of a cursor before they are written as base64. */
  function EncodeCursor(c: Cursor): Bytes {
    [|c.createdAt| % 65536 / 256, |c.createdAt| % 256] + c.createdAt + c.id
  }

  /** Length of unpadded base64 text. */
  function Base64Length(bytes: nat): nat {
    (4 * bytes + 2) / 3
  }

  function DecodeCursor(payload: Bytes): Option<Cursor> {
    if Base64Length(|payload|) > 2048 || |payload| < 4 then None
    else
      var length := 256 * payload[0] + payload[1];
      var end := 2 + length;
      if length == 0 || length > 64 || end >= |payload| then None
      else if |payload| - end > 256 then None
      else Some(Cursor(payload[2..end], payload[end..]))
  }

  /** The cursors that survive the way to the client and back. */
  predicate Representable(c: Cursor) {
    1 <= |c.createdAt| <= 64 && 1 <= |c.id| <= 256
  }

  /** Decoding undoes encoding exactly for the representable cursors. */
  lemma CursorRoundTripIff(c: Cursor)
    ensures DecodeCursor(EncodeCursor(c)) == Some(c) <==> Representable(c)
  {
    var payload := EncodeCursor(c);
    var n := |c.createdAt|;
    if Representable(c) {
      assert payload[2..2 + n] == c.createdAt && payload[2 + n..] == c.id;
    }
  }
}
