/** The values `json.loads` produces, and the Python operations that
    llmchat.py applies to them while decoding a streamed reply: membership
    (`k in v`), subscripting (`v[k]`, `v[0]`), `dict.get` and truthiness.
    Each operation either yields a value or names the exception Python
    raises for it. */
module Json {
  import opened Wrappers

  datatype Value =
    | Null
    | Bool(b: bool)
    | Number(n: real)
    | Str(s: string)
    | Array(items: seq<Value>)
    | Object(fields: map<string, Value>)

  /** The exceptions the decoding code can raise. */
  datatype Fault =
    | JsonDecodeError   // json.loads on a text that is not JSON
    | TypeError         // an operation on a value of the wrong type
    | IndexError        // [0] on an empty list or string
    | KeyError          // a missing key; [0] on a dict
    | AttributeError    // .get on a value that is not a dict

  /** Parsing as an uninterpreted partial function: `parse(text)` is None
      exactly when `json.loads(text)` raises. */
  function Parse(parse: string -> Option<Value>, text: string): (r: Result<Value, Fault>)
    ensures r.Ok? <==> parse(text).Some?
    ensures r.Ok? ==> parse(text) == Some(r.value)
    ensures r.Err? ==> r.error == JsonDecodeError
  {
    match parse(text)
    case None => Err(JsonDecodeError)
    case Some(v) => Ok(v)
  }

  predicate IsPrefix(needle: string, hay: string) {
    |needle| <= |hay| && hay[..|needle|] == needle
  }

  /** Python's `needle in hay` for two str values. */
  predicate IsSubstring(needle: string, hay: string)
    decreases |hay|
  {
    IsPrefix(needle, hay) || (hay != [] && IsSubstring(needle, hay[1..]))
  }

  /** `needle` occurs in `hay` starting at index `i`. */
  ghost predicate OccursAt(needle: string, hay: string, i: int) {
    0 <= i && i + |needle| <= |hay| && hay[i..i + |needle|] == needle
  }

  /** The substring test holds exactly when the needle occurs at some index. */
  lemma {:induction false} IsSubstringOccurs(needle: string, hay: string)
    ensures IsSubstring(needle, hay) <==> exists i :: OccursAt(needle, hay, i)
    decreases |hay|
  {
    if hay != [] {
      IsSubstringOccurs(needle, hay[1..]);
      forall i | OccursAt(needle, hay[1..], i) ensures OccursAt(needle, hay, i + 1) {
        assert hay[1..][i..i + |needle|] == hay[i + 1..i + 1 + |needle|];
      }
      forall i | OccursAt(needle, hay, i) && i > 0 ensures OccursAt(needle, hay[1..], i - 1) {
        assert hay[1..][i - 1..i - 1 + |needle|] == hay[i..i + |needle|];
      }
    }
    if IsPrefix(needle, hay) {
      assert OccursAt(needle, hay, 0);
    }
    if OccursAt(needle, hay, 0) {
      assert IsPrefix(needle, hay);
    }
  }

  /** `key in v`: a key test on a dict, a substring test on a str, an
      element test on a list; a TypeError on anything else. */
  function Contains(v: Value, key: string): (r: Result<bool, Fault>)
    ensures r.Ok? <==> v.Object? || v.Str? || v.Array?
    ensures r.Err? ==> r.error == TypeError
    ensures v.Object? ==> r == Ok(key in v.fields)
    ensures v.Str? ==> r.Ok? && (r.value <==> exists i :: OccursAt(key, v.s, i))
    ensures v.Array? ==> r == Ok(Str(key) in v.items)
  {
    match v
    case Object(m) => Ok(key in m)
    case Str(s) => IsSubstringOccurs(key, s); Ok(IsSubstring(key, s))
    case Array(items) => Ok(Str(key) in items)
    case _ => Err(TypeError)
  }

  /** `v[key]` with a str key. */
  function Subscript(v: Value, key: string): (r: Result<Value, Fault>)
    ensures r.Ok? <==> v.Object? && key in v.fields
    ensures r.Ok? ==> r.value == v.fields[key]
    ensures r.Err? ==> r.error == (if v.Object? then KeyError else TypeError)
  {
    match v
    case Object(m) => if key in m then Ok(m[key]) else Err(KeyError)
    case _ => Err(TypeError)
  }

  /** `v[0]`. */
  function First(v: Value): (r: Result<Value, Fault>)
    ensures r.Ok? <==> (v.Array? && v.items != []) || (v.Str? && v.s != [])
    ensures v.Array? && v.items != [] ==> r.value == v.items[0]
    ensures v.Str? && v.s != [] ==> r.value == Str(v.s[..1])
    ensures r.Err? ==> r.error == (if v.Object? then KeyError else if v.Array? || v.Str? then IndexError else TypeError)
  {
    match v
    case Array(items) => if |items| > 0 then Ok(items[0]) else Err(IndexError)
    case Str(s) => if |s| > 0 then Ok(Str(s[..1])) else Err(IndexError)
    case Object(_) => Err(KeyError)
    case _ => Err(TypeError)
  }

  /** `v.get(key, default)`. */
  function Get(v: Value, key: string, default: Value): (r: Result<Value, Fault>)
    ensures r.Ok? <==> v.Object?
    ensures r.Err? ==> r.error == AttributeError
    ensures v.Object? ==> r.value == (if key in v.fields then v.fields[key] else default)
  {
    match v
    case Object(m) => Ok(if key in m then m[key] else default)
    case _ => Err(AttributeError)
  }

  /** Python's `bool(v)`: false exactly for the six empty or zero values. */
  predicate Truthy(v: Value): (b: bool)
    ensures b <==> v !in {Null, Bool(false), Number(0.0), Str(""), Array([]), Object(map[])}
  {
    match v
    case Null => false
    case Bool(b) => b
    case Number(n) => n != 0.0
    case Str(s) => s != ""
    case Array(items) => items != []
    case Object(m) => m != map[]
  }
}
