/** Values, results and Python semantics shared by every module of the model. */
module Common {

  /** One octet of a media payload. */
  newtype byte = x: int | 0 <= x < 256

  type Bytes = seq<byte>

  datatype Option<T> = None | Some(value: T)

  /** A decoded JSON value, or any other Python value the client hands around; Null is Python's None. */
  datatype Value =
    | Null
    | Bool(b: bool)
    | Int(i: int)
    | Str(s: string)
    | Blob(data: Bytes) // only the decrypted media bytes; no JSON value decodes to one
    | List(items: seq<Value>)
    | Object(fields: map<string, Value>)

  /** The Python exceptions the modelled code can raise. */
  datatype Error =
    | KeyError(key: Value)
    | IndexError
    | TypeError
    | ValueError
    | AttributeError
    | OverflowError
    | UnknownMediaType
    | SystemExit(code: int)

  /** Either the value a Python expression produces or the exception it raises. */
  datatype Result<T> = Ok(value: T) | Err(error: Error) {
    predicate IsFailure() { Err? }
    function PropagateFailure<U>(): Result<U> requires Err? { Err(error) }
    function Extract(): T requires Ok? { value }
  }

  // Media-type codes. The module that defines them is not part of this model; the codes
  // below are placeholders. Only how Python compares False and True with them (as 0 and 1)
  // depends on more than their being distinct. MEDIA_TYPE_VIDEO_NO_AUDIO (imported by the
  // client) and MEDIA_TYPE_VIDEO_WITHOUT_AUDIO (imported by snap.py and utils.py) are taken
  // to be one constant, MediaTypeVideoNoAudio.
  const MediaTypeUnknown: int := -1
  const MediaTypeImage: int := 0
  const MediaTypeVideo: int := 1
  const MediaTypeVideoNoAudio: int := 2
  const DefaultDuration: int := 5

  /** Python `v == n` for an int constant n: a bool compares as 0 or 1, nothing else equals an int. */
  predicate PyEq(v: Value, n: int)
  {
    match v
    case Int(i) => i == n
    case Bool(b) => (if b then 1 else 0) == n
    case _ => false
  }

  /** Python `v[key]` for a string key. */
  function Get(v: Value, key: string): Result<Value>
  {
    match v
    case Object(m) => if key in m then Ok(m[key]) else Err(KeyError(Str(key)))
    case _ => Err(TypeError)
  }

  /** Python `v[i]` for a non-negative int index. */
  function At(v: Value, i: nat): Result<Value>
  {
    match v
    case List(xs) => if i < |xs| then Ok(xs[i]) else Err(IndexError)
    case Str(s) => if i < |s| then Ok(Str([s[i]])) else Err(IndexError)
    case Object(_) => Err(KeyError(Int(i)))
    case _ => Err(TypeError)
  }

  predicate OccursAt(needle: string, hay: string, i: int)
  {
    0 <= i <= |hay| - |needle| && hay[i..i + |needle|] == needle
  }

  predicate IsSubstring(needle: string, hay: string)
  {
    exists i | 0 <= i <= |hay| - |needle| :: OccursAt(needle, hay, i)
  }

  /** Python `key in v` for a string key. */
  function Contains(v: Value, key: string): Result<bool>
  {
    match v
    case Object(m) => Ok(key in m)
    case List(xs) => Ok(Str(key) in xs)
    case Str(s) => Ok(IsSubstring(key, s))
    case _ => Err(TypeError)
  }

  /** Whether a `for` loop can run over the value. */
  predicate Iterable(v: Value)
  {
    v.List? || v.Str? || v.Blob? || v.Object?
  }

  /** An empty string, byte string or dict: a `for` loop over it never runs its body. */
  predicate IteratesNothing(v: Value)
  {
    v == Str("") || v == Blob([]) || v == Object(map[])
  }

  /**
   * `xs` is what `for x in v` visits: a list's items, a string's one-character strings, a
   * byte string's one-byte strings, or a dict's keys, each once, in an order not fixed here.
   */
  ghost predicate Visits(v: Value, xs: seq<Value>)
  {
    match v
    case List(items) => xs == items
    case Str(s) => |xs| == |s| && forall i :: 0 <= i < |s| ==> xs[i] == Str([s[i]])
    case Blob(data) => |xs| == |data| && forall i :: 0 <= i < |data| ==> xs[i] == Blob([data[i]])
    case Object(m) => |xs| == |m| && forall x :: x in xs <==> x.Str? && x.s in m
    case _ => false
  }

  /** The values `for x in v` visits, or the TypeError of a value that cannot be iterated. */
  method Visit(v: Value) returns (r: Result<seq<Value>>)
    ensures r.Ok? <==> Iterable(v)
    ensures r.Ok? ==> Visits(v, r.value)
    ensures r.Err? ==> r.error == TypeError
  {
    match v
    case List(items) =>
      r := Ok(items);
    case Str(s) =>
      r := Ok(seq(|s|, i requires 0 <= i < |s| => Str([s[i]])));
    case Blob(data) =>
      r := Ok(seq(|data|, i requires 0 <= i < |data| => Blob([data[i]])));
    case Object(m) =>
      var left := m.Keys;
      var keys: seq<Value> := [];
      while left != {}
        invariant left <= m.Keys
        invariant |keys| + |left| == |m.Keys|
        invariant forall x :: x in keys <==> x.Str? && x.s in m.Keys - left
        decreases |left|
      {
        var k :| k in left;
        keys := keys + [Str(k)];
        left := left - {k};
      }
      r := Ok(keys);
    case _ =>
      r := Err(TypeError);
  }

  /**
   * Outside a list, a loop visits only strings, and visits something exactly when the value
   * is not empty; so a body that subscripts what it visits by a string key raises TypeError.
   */
  lemma VisitNonList(v: Value, xs: seq<Value>, key: string)
    requires !v.List? && Visits(v, xs)
    ensures xs == [] <==> IteratesNothing(v)
    ensures xs != [] ==> Get(xs[0], key) == Err(TypeError)
  {
    if v.Object? && xs != [] {
      assert xs[0] in xs;
    }
    if v.Object? && v.fields != map[] {
      var k :| k in v.fields;
      assert Str(k) in xs;
    }
  }

  /** Whether Python can use the value as a dict key. */
  predicate Hashable(v: Value)
  {
    !v.List? && !v.Object?
  }

  /** `sep.join(parts)` for a one-character separator. */
  function Join(parts: seq<string>, sep: char): string
  {
    if parts == [] then ""
    else if |parts| == 1 then parts[0]
    else parts[0] + [sep] + Join(parts[1..], sep)
  }

  /** `s.split(sep)` for a one-character separator: always at least one piece, none holding sep. */
  function Split(s: string, sep: char): (r: seq<string>)
    ensures |r| >= 1
    ensures forall i :: 0 <= i < |r| ==> sep !in r[i]
    decreases |s|
  {
    if s == [] then [""]
    else
      var rest := Split(s[1..], sep);
      if s[0] == sep then [""] + rest
      else [[s[0]] + rest[0]] + rest[1..]
  }

  /** Joining pieces that do not hold the separator and splitting again gives back the pieces. */
  lemma {:induction false} SplitJoin(parts: seq<string>, sep: char)
    requires |parts| >= 1
    requires forall i :: 0 <= i < |parts| ==> sep !in parts[i]
    ensures Split(Join(parts, sep), sep) == parts
    decreases parts
  {
    if |parts| == 1 {
      SplitNoSep(parts[0], sep);
    } else {
      SplitJoin(parts[1..], sep);
      SplitPrefix(parts[0], Join(parts[1..], sep), sep);
    }
  }

  lemma {:induction false} SplitNoSep(s: string, sep: char)
    requires sep !in s
    ensures Split(s, sep) == [s]
    decreases |s|
  {
    if s != [] {
      SplitNoSep(s[1..], sep);
      assert [s[0]] + s[1..] == s;
    }
  }

  /** A separator-free prefix followed by the separator becomes a piece of its own. */
  lemma {:induction false} SplitPrefix(a: string, b: string, sep: char)
    requires sep !in a
    ensures Split(a + [sep] + b, sep) == [a] + Split(b, sep)
    decreases |a|
  {
    if a == [] {
      assert a + [sep] + b == [sep] + b;
      assert ([sep] + b)[1..] == b;
    } else {
      assert (a + [sep] + b)[1..] == a[1..] + [sep] + b;
      SplitPrefix(a[1..], b, sep);
      assert [a[0]] + a[1..] == a;
    }
  }

  /** `s.startswith(prefix)`. */
  predicate StartsWith(s: string, prefix: string)
  {
    |prefix| <= |s| && s[..|prefix|] == prefix
  }
}
