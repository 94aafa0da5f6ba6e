/** Values threaded between the pipeline's stages: the JSON-like dictionaries the
    handlers receive and return, and the exceptions a handler can raise instead of
    returning one. */
module Values {

  datatype Option<+T> = None | Some(value: T)

  /** The Python exception kinds the handlers can raise.  Any of them fails the
      state-machine task that ran the handler. */
  datatype Error =
    | KeyError(key: string)       // a dictionary lookup of a missing key
    | IndexError                  // a list index beyond the end
    | TypeError                   // an operation applied to a value of the wrong shape
    | AttributeError              // a method called on a value that has no such method
    | NameError(name: string)     // a local variable read before any assignment
    | ValueError(message: string) // `raise ValueError(message)`
    | ZeroDivisionError
    | Raised(message: string)     // `raise Exception(message)`
    | StatesRuntime               // Step Functions' own `States.Runtime` error

  /** Either the value a handler returned or the exception it raised. */
  datatype Result<+T> = Ok(value: T) | Raise(error: Error) {
    predicate IsFailure() { Raise? }
    function PropagateFailure<U>(): Result<U> requires Raise? { Raise(error) }
    function Extract(): T requires Ok? { value }
  }

  /** A decoded JSON document. */
  datatype Value =
    | Null
    | Bool(b: bool)
    | Int(i: int)
    | Num(x: real, text: string)  // a number with a fraction or exponent; `text` is what `str()` prints for it
    | Str(s: string)
    | List(items: seq<Value>)
    | Obj(fields: map<string, Value>)

  /** `v[key]` on a dictionary. */
  function Get(v: Value, key: string): (r: Result<Value>)
    ensures r.Ok? <==> v.Obj? && key in v.fields
    ensures r.Ok? ==> r.value == v.fields[key]
    ensures v.Obj? && key !in v.fields ==> r == Raise(KeyError(key))
  {
    match v
    case Obj(m) => if key in m then Ok(m[key]) else Raise(KeyError(key))
    case _ => Raise(TypeError)
  }

  /** `v[key]` concatenated with a string: `str + x` raises `TypeError` unless `x`
      is a string too. */
  function GetStr(v: Value, key: string): (r: Result<string>)
    ensures r.Ok? <==> v.Obj? && key in v.fields && v.fields[key].Str?
    ensures r.Ok? ==> r.value == v.fields[key].s
    ensures v.Obj? && key in v.fields && !v.fields[key].Str? ==> r == Raise(TypeError)
  {
    var x :- Get(v, key);
    if x.Str? then Ok(x.s) else Raise(TypeError)
  }

  /** `v[key].split(...)`: only a string has `split`, so any other value raises
      `AttributeError`. */
  function GetSplit(v: Value, key: string): (r: Result<string>)
    ensures r.Ok? <==> v.Obj? && key in v.fields && v.fields[key].Str?
    ensures r.Ok? ==> r.value == v.fields[key].s
    ensures v.Obj? && key in v.fields && !v.fields[key].Str? ==> r == Raise(AttributeError)
  {
    var x :- Get(v, key);
    if x.Str? then Ok(x.s) else Raise(AttributeError)
  }

  /** `v[i]` on a list. */
  function At(v: Value, i: nat): (r: Result<Value>)
    ensures r.Ok? <==> v.List? && i < |v.items|
    ensures r.Ok? ==> r.value == v.items[i]
  {
    match v
    case List(xs) => if i < |xs| then Ok(xs[i]) else Raise(IndexError)
    case _ => Raise(TypeError)
  }

  /** What `for x in v` iterates over. A string yields its characters; an empty
      dictionary yields nothing. A non-empty dictionary would yield its keys in
      insertion order, which a map does not record, so it is refused. */
  function Elements(v: Value): (r: Result<seq<Value>>)
    ensures v.List? ==> r == Ok(v.items)
    ensures r.Ok? && v.Str? ==> |r.value| == |v.s|
    ensures r.Ok? && v.Obj? ==> r.value == []
    ensures r.Ok? <==> v.List? || v.Str? || v == Obj(map[])
  {
    match v
    case List(xs) => Ok(xs)
    case Str(s) => Ok(seq(|s|, i requires 0 <= i < |s| => Str([s[i]])))
    case Obj(m) => if m == map[] then Ok([]) else Raise(TypeError)
    case _ => Raise(TypeError)
  }

  /** Decoded audio, one element per millisecond: `len()` of an audio segment is
      the sequence's length and `+` is concatenation. */
  type Audio = seq<int>

  /** Concatenation regrouped. */
  lemma AppendAssoc<T>(a: seq<T>, b: seq<T>, c: seq<T>)
    ensures a + (b + c) == (a + b) + c
  {
  }

  /** Indexing a sequence with one more element appended. */
  lemma SnocIndex<T>(xs: seq<T>, x: T)
    ensures |xs + [x]| == |xs| + 1 && (xs + [x])[|xs|] == x
    ensures forall i :: 0 <= i < |xs| ==> (xs + [x])[i] == xs[i]
  {
  }

  /** Indexing a non-empty sequence's prefix without its last element. */
  lemma InitIndex<T>(xs: seq<T>)
    requires |xs| > 0
    ensures forall i :: 0 <= i < |xs| - 1 ==> xs[..|xs| - 1][i] == xs[i]
  {
  }
}
