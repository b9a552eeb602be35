/** Values shared by the gateway's components: optional (nullable) values,
    call metadata as an ordered list of key/value entries, the string tests
    the gateway uses (null-or-empty, null-or-whitespace, prefix) and the two
    ways ASP.NET renders a request header. */
module Common {

  /** A value that may be null. */
  datatype Option<+T> = None | Some(value: T) {
    /** The C# `??` operator: the value, or `default` when null. */
    function GetOr(default: T): (r: T)
      ensures Some? ==> r == value
      ensures None? ==> r == default
    {
      match this
      case Some(v) => v
      case None => default
    }
  }

  /** One key/value entry of gRPC call metadata. */
  datatype Entry = Entry(key: string, value: string)

  /** gRPC call metadata: entries in the order they were added. */
  type Metadata = seq<Entry>

  /** A claim about an authenticated identity: its type and its value. */
  datatype Claim = Claim(claimType: string, value: string)

  /** What a controller action answers: a status with a payload, or a status
      with a `{ message }` body. */
  datatype ActionResult<+T> = Success(status: int, value: T) | Failure(status: int, message: string)

  /** `char.IsWhiteSpace`: the Unicode space, line and paragraph separators,
      the control characters U+0009 to U+000D and U+0085. */
  predicate IsWhiteSpace(c: char)
  {
    var n := c as int;
    || (0x09 <= n <= 0x0D)
    || n == 0x20 || n == 0x85 || n == 0xA0 || n == 0x1680
    || (0x2000 <= n <= 0x200A)
    || n == 0x2028 || n == 0x2029 || n == 0x202F || n == 0x205F || n == 0x3000
  }

  /** `string.IsNullOrEmpty`. */
  predicate IsNullOrEmpty(s: Option<string>)
  {
    s.None? || s.value == ""
  }

  /** `string.IsNullOrWhiteSpace`: null, or every character is whitespace
      (so the empty string is blank too). */
  predicate IsNullOrWhiteSpace(s: Option<string>)
    ensures IsNullOrEmpty(s) ==> IsNullOrWhiteSpace(s)
  {
    s.None? || forall i :: 0 <= i < |s.value| ==> IsWhiteSpace(s.value[i])
  }

  /** Ordinal prefix test (`string.StartsWith`). */
  predicate StartsWith(s: string, prefix: string)
  {
    |prefix| <= |s| && s[..|prefix|] == prefix
  }

  /** The bearer scheme prefix (section 2.1 of RFC 6750), matched case-sensitively. */
  const BearerPrefix: string := "Bearer "

  /** A header value that is present, non-empty and starts with "Bearer ". */
  predicate HasBearerScheme(h: Option<string>)
    ensures HasBearerScheme(h) <==> h.Some? && StartsWith(h.value, BearerPrefix)
    ensures HasBearerScheme(h) ==> h.value == BearerPrefix + h.value[|BearerPrefix|..]
  {
    !IsNullOrEmpty(h) && StartsWith(h.value, BearerPrefix)
  }

  /** The non-empty values, in order. */
  function NonEmpty(values: seq<string>): (r: seq<string>)
    ensures forall i :: 0 <= i < |r| ==> r[i] != ""
    ensures forall v :: v in r <==> v in values && v != ""
    ensures |r| <= |values|
  {
    if values == [] then []
    else if values[0] == "" then NonEmpty(values[1..])
    else [values[0]] + NonEmpty(values[1..])
  }

  /** `NonEmpty` keeps order and multiplicity: it distributes over
      concatenation, and it leaves a sequence without empty values as it is. */
  lemma {:induction false} NonEmptyKeepsOrder(a: seq<string>, b: seq<string>)
    ensures NonEmpty(a + b) == NonEmpty(a) + NonEmpty(b)
    ensures (forall i :: 0 <= i < |a| ==> a[i] != "") ==> NonEmpty(a) == a
  {
    if a != [] {
      assert (a + b)[1..] == a[1..] + b;
      NonEmptyKeepsOrder(a[1..], b);
      assert forall i :: 1 <= i < |a| ==> a[i] == a[1..][i - 1];
      if forall i :: 0 <= i < |a| ==> a[i] != "" {
        assert [a[0]] + a[1..] == a;
      }
    } else {
      assert a + b == b;
    }
  }

  /** Values joined with ',' between consecutive ones. */
  function CommaJoin(values: seq<string>): string
  {
    if values == [] then ""
    else if |values| == 1 then values[0]
    else values[0] + "," + CommaJoin(values[1..])
  }

  /** The join `StringValues` performs on several values: one pass that skips
      null and empty values and puts ',' only between two written ones. */
  function JoinWritten(values: seq<string>): string
  {
    if values == [] then ""
    else if values[0] == "" then JoinWritten(values[1..])
    else
      var rest := JoinWritten(values[1..]);
      if rest == "" then values[0] else values[0] + "," + rest
  }

  /** The one-pass join is the comma join of the non-empty values; it is
      empty exactly when every value is. */
  lemma {:induction false} JoinWrittenIsCommaJoinOfNonEmpty(values: seq<string>)
    ensures JoinWritten(values) == CommaJoin(NonEmpty(values))
    ensures JoinWritten(values) == "" <==> forall i :: 0 <= i < |values| ==> values[i] == ""
  {
    if values != [] {
      JoinWrittenIsCommaJoinOfNonEmpty(values[1..]);
      assert forall i :: 1 <= i < |values| ==> values[i] == values[1..][i - 1];
      if values[0] != "" {
        var rest := NonEmpty(values[1..]);
        assert NonEmpty(values) == [values[0]] + rest;
        if rest != [] {
          assert ([values[0]] + rest)[1..] == rest;
        }
      }
    }
  }

  /** `StringValues.ToString()` on the values of a request header: no values
      give "", one value gives itself (even when empty), several give their
      non-empty values joined with ','. */
  function HeaderString(values: seq<string>): (r: string)
    ensures values == [] ==> r == ""
    ensures |values| == 1 ==> r == values[0]
    ensures |values| >= 2 ==> r == CommaJoin(NonEmpty(values))
    ensures |values| >= 2 ==> (r == "" <==> forall i :: 0 <= i < |values| ==> values[i] == "")
  {
    if values == [] then ""
    else if |values| == 1 then values[0]
    else JoinWrittenIsCommaJoinOfNonEmpty(values); JoinWritten(values)
  }

  /** `StringValues.FirstOrDefault()`: the first value of a header, or null. */
  function FirstHeader(values: seq<string>): (r: Option<string>)
    ensures r.None? <==> values == []
    ensures r.Some? ==> r.value == values[0]
  {
    if values == [] then None else Some(values[0])
  }

  /** `Headers.ContainsKey("Authorization") ? Headers["Authorization"].ToString()
      : string.Empty`: the two branches agree, since an absent header has no
      values and renders as "", so the guarded rendering is `HeaderString`
      itself. */
  function ForwardedHeader(values: seq<string>): (r: string)
    ensures r == HeaderString(values)
    ensures values == [] ==> r == ""
    ensures |values| == 1 ==> r == values[0]
    ensures |values| >= 2 ==> r == CommaJoin(NonEmpty(values))
    ensures |values| >= 2 ==> (r == "" <==> forall i :: 0 <= i < |values| ==> values[i] == "")
  {
    if |values| > 0 then HeaderString(values) else ""
  }

  /** Empty lines of a repeated header vanish when it is rendered. */
  lemma EmptyHeaderValuesDropped()
    ensures ForwardedHeader(["", ""]) == ""
    ensures ForwardedHeader(["", "Bearer t"]) == "Bearer t"
    ensures ForwardedHeader(["Bearer a", "", "b"]) == "Bearer a,b"
  {
    assert NonEmpty(["", ""]) == [];
    assert NonEmpty(["", "Bearer t"]) == ["Bearer t"];
    assert NonEmpty(["Bearer a", "", "b"]) == ["Bearer a", "b"];
  }

  /** The value of the first element whose key is `key`, or null: the LINQ
      `FirstOrDefault(x => keyOf(x) == key)?.Value` over metadata entries
      and over claims alike. */
  function FirstWith<T>(xs: seq<T>, keyOf: T -> string, valueOf: T -> string, key: string): (r: Option<string>)
    ensures r.None? <==> forall i :: 0 <= i < |xs| ==> keyOf(xs[i]) != key
    ensures r.Some? ==> exists i :: 0 <= i < |xs| && keyOf(xs[i]) == key && valueOf(xs[i]) == r.value
                                    && forall j :: 0 <= j < i ==> keyOf(xs[j]) != key
  {
    if xs == [] then None
    else if keyOf(xs[0]) == key then Some(valueOf(xs[0]))
    else FirstWith(xs[1..], keyOf, valueOf, key)
  }

  /** Appending elements after the first match does not change what the
      search finds. */
  lemma {:induction false} FirstWithAppend<T>(xs: seq<T>, extra: seq<T>, keyOf: T -> string,
                                              valueOf: T -> string, key: string)
    requires FirstWith(xs, keyOf, valueOf, key).Some?
    ensures FirstWith(xs + extra, keyOf, valueOf, key) == FirstWith(xs, keyOf, valueOf, key)
  {
    if keyOf(xs[0]) != key {
      assert (xs + extra)[1..] == xs[1..] + extra;
      FirstWithAppend(xs[1..], extra, keyOf, valueOf, key);
    }
  }

  function EntryKey(e: Entry): string { e.key }
  function EntryValue(e: Entry): string { e.value }

  /** The first entry with the given key (`FirstOrDefault(h => h.Key == key)?.Value`). */
  function FirstValue(m: Metadata, key: string): (r: Option<string>)
    ensures r.None? <==> forall i :: 0 <= i < |m| ==> m[i].key != key
    ensures r.Some? ==> exists i :: 0 <= i < |m| && m[i] == Entry(key, r.value)
                                    && forall j :: 0 <= j < i ==> m[j].key != key
  {
    FirstWith(m, EntryKey, EntryValue, key)
  }
}
