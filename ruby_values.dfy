/**
 * Ruby values as a parsed stack file hands them to the stack tooling
 * (nil, booleans, integers, strings, arrays and insertion-ordered hashes),
 * the exceptions the tooling can raise, and the Hash and Object methods it
 * uses on them.
 */
module RubyValues {
  import opened RubyStrings

  /** The outcome of Ruby code that may raise. */
  datatype Result<+T> = Ok(value: T) | Err(error: RubyError)
  {
    predicate IsFailure() { Err? }

    function PropagateFailure<U>(): Result<U>
      requires Err?
    {
      Err(error)
    }

    function Extract(): T
      requires Ok?
    {
      value
    }
  }

  /** The exceptions that reach the caller of the modelled code. */
  datatype RubyError =
    | NoMethodError(name: string)     // the receiver has no method `name` (nil.split, 5.each, ...)
    | TypeError                       // a core method got an argument of the wrong class
    | IndexError                      // an index before the start of an array
    | ArgumentError(message: string)  // raised explicitly, as parse_links does
    | RuntimeError(message: string)   // `raise "<message>"`
    | FileNotFound(path: string)      // Errno::ENOENT from reading a file
    | StackTooDeep                    // SystemStackError from endless recursion

  /** How a method that works by side effect ended. */
  datatype Outcome = Completed | Raised(error: RubyError)

  datatype Value =
    | Nil
    | Bool(b: bool)
    | Int(i: int)
    | Float(text: string)   // a floating-point number, kept as the text Ruby prints for it
    | Str(s: string)
    | List(items: seq<Value>)
    | Hash(entries: seq<(Value, Value)>)

  /** The entries of a Ruby Hash, in insertion order. */
  type Dict = seq<(Value, Value)>

  /** Everything but `nil` and `false` counts as true in a Ruby condition. */
  predicate Truthy(v: Value)
  {
    !v.Nil? && v != Bool(false)
  }

  /** `v || default` */
  function Or(v: Value, default: Value): Value
  {
    if Truthy(v) then v else default
  }

  /** `v.empty?`, which only strings, arrays and hashes answer. */
  function IsEmpty(v: Value): (r: Result<bool>)
    ensures r.Ok? <==> (v.Str? || v.List? || v.Hash?)
  {
    match v
    case Str(s) => Ok(s == [])
    case List(items) => Ok(items == [])
    case Hash(entries) => Ok(entries == [])
    case _ => Err(NoMethodError("empty?"))
  }

  /** The keys of a hash, in insertion order. */
  function Keys(d: Dict): (ks: seq<Value>)
    ensures |ks| == |d|
    decreases |d|
  {
    if d == [] then [] else [d[0].0] + Keys(d[1..])
  }

  lemma {:induction false} KeyAt(d: Dict, i: nat)
    requires i < |d|
    ensures Keys(d)[i] == d[i].0
    decreases i
  {
    if i > 0 {
      KeyAt(d[1..], i - 1);
    }
  }

  /** `h.has_key?(k)` */
  predicate HasKey(d: Dict, k: Value)
    decreases |d|
  {
    d != [] && (d[0].0 == k || HasKey(d[1..], k))
  }

  lemma {:induction false} HasKeyAt(d: Dict, k: Value)
    ensures HasKey(d, k) <==> exists i :: 0 <= i < |d| && d[i].0 == k
    decreases |d|
  {
    if d != [] {
      HasKeyAt(d[1..], k);
      if HasKey(d[1..], k) {
        var i :| 0 <= i < |d[1..]| && d[1..][i].0 == k;
        assert d[i + 1].0 == k;
      }
      if exists i :: 0 <= i < |d| && d[i].0 == k {
        var i :| 0 <= i < |d| && d[i].0 == k;
        if i > 0 {
          assert d[1..][i - 1].0 == k;
        }
      }
    }
  }

  lemma {:induction false} HasKeyInKeys(d: Dict, k: Value)
    ensures HasKey(d, k) <==> k in Keys(d)
    decreases |d|
  {
    if d != [] {
      HasKeyInKeys(d[1..], k);
      assert Keys(d) == [d[0].0] + Keys(d[1..]);
    }
  }

  /** `h[k]`: the value stored under `k`, or nil when there is none. */
  function Get(d: Dict, k: Value): (v: Value)
    ensures !HasKey(d, k) ==> v == Nil
    decreases |d|
  {
    if d == [] then Nil
    else if d[0].0 == k then d[0].1
    else Get(d[1..], k)
  }

  /** `h[k] = v`: replaces the value of an existing key in place, or appends a new entry. */
  function Put(d: Dict, k: Value, v: Value): (r: Dict)
    ensures Get(r, k) == v
    ensures forall k' {:trigger Get(r, k')} :: k' != k ==> Get(r, k') == Get(d, k')
    ensures forall k' {:trigger HasKey(r, k')} :: HasKey(r, k') <==> HasKey(d, k') || k' == k
    decreases |d|
  {
    if d == [] then [(k, v)]
    else if d[0].0 == k then [(k, v)] + d[1..]
    else [d[0]] + Put(d[1..], k, v)
  }

  /** An existing key keeps its place; a new one is added at the end. */
  lemma {:induction false} PutKeys(d: Dict, k: Value, v: Value)
    ensures Keys(Put(d, k, v)) == if HasKey(d, k) then Keys(d) else Keys(d) + [k]
    decreases |d|
  {
    if d != [] && d[0].0 != k {
      var r := Put(d, k, v);
      PutKeys(d[1..], k, v);
      assert Keys(r) == [d[0].0] + Keys(r[1..]);
      assert Keys(d) == [d[0].0] + Keys(d[1..]);
    }
  }

  /** Assigning a key twice leaves the second value, in the first one's place. */
  lemma {:induction false} PutPut(d: Dict, k: Value, a: Value, b: Value)
    ensures Put(Put(d, k, a), k, b) == Put(d, k, b)
    decreases |d|
  {
    if d != [] && d[0].0 != k {
      PutPut(d[1..], k, a, b);
    }
  }

  /** Writing back the value a key already has changes nothing. */
  lemma {:induction false} PutGet(d: Dict, k: Value)
    requires HasKey(d, k)
    ensures Put(d, k, Get(d, k)) == d
    decreases |d|
  {
    if d[0].0 != k {
      PutGet(d[1..], k);
    }
  }

  /** A new key goes to the end. */
  lemma {:induction false} PutNew(d: Dict, k: Value, v: Value)
    requires !HasKey(d, k)
    ensures Put(d, k, v) == d + [(k, v)]
    decreases |d|
  {
    if d != [] {
      PutNew(d[1..], k, v);
    }
  }

  /** Looking a key up in a hash with one more entry at the end. */
  lemma {:induction false} GetAppend(d: Dict, k: Value, v: Value, k': Value)
    ensures Get(d + [(k, v)], k') == if HasKey(d, k') then Get(d, k') else if k' == k then v else Nil
    ensures HasKey(d + [(k, v)], k') <==> HasKey(d, k') || k' == k
    decreases |d|
  {
    if d != [] {
      assert (d + [(k, v)])[1..] == d[1..] + [(k, v)];
      GetAppend(d[1..], k, v, k');
    }
  }

  /** `ks` without the occurrences of `k`. */
  function Without(ks: seq<Value>, k: Value): (r: seq<Value>)
    ensures forall x :: x in r <==> x in ks && x != k
    decreases |ks|
  {
    if ks == [] then []
    else if ks[0] == k then Without(ks[1..], k)
    else [ks[0]] + Without(ks[1..], k)
  }

  /** `h.delete(k)` */
  function Delete(d: Dict, k: Value): (r: Dict)
    ensures !HasKey(r, k)
    ensures forall k' {:trigger Get(r, k')} :: k' != k ==> Get(r, k') == Get(d, k')
    ensures forall k' {:trigger HasKey(r, k')} :: HasKey(r, k') <==> HasKey(d, k') && k' != k
    decreases |d|
  {
    if d == [] then []
    else if d[0].0 == k then Delete(d[1..], k)
    else [d[0]] + Delete(d[1..], k)
  }

  /** The other keys keep their order. */
  lemma {:induction false} DeleteKeys(d: Dict, k: Value)
    ensures Keys(Delete(d, k)) == Without(Keys(d), k)
    decreases |d|
  {
    if d != [] {
      DeleteKeys(d[1..], k);
      assert Keys(d) == [d[0].0] + Keys(d[1..]);
      if d[0].0 != k {
        var r := Delete(d, k);
        assert Keys(r) == [d[0].0] + Keys(r[1..]);
      }
    }
  }

  /** `t` occurs somewhere in `s`. */
  predicate Contains(s: string, t: string)
  {
    exists i :: 0 <= i <= |s| && t <= s[i..]
  }

  /**
   * `v[key]` for a String `key`: a hash looks the key up, a string answers
   * with `key` itself when it occurs in it, nil, booleans and floats have no
   * `[]`, and integers and arrays refuse a String index.
   */
  function Index(v: Value, key: string): (r: Result<Value>)
    ensures v.Hash? ==> r == Ok(Get(v.entries, Str(key)))
    ensures v.Str? ==> r == Ok(if Contains(v.s, key) then Str(key) else Nil)
    ensures r.Ok? <==> v.Hash? || v.Str?
  {
    match v
    case Hash(entries) => Ok(Get(entries, Str(key)))
    case Str(s) => Ok(if Contains(s, key) then Str(key) else Nil)
    case Nil => Err(NoMethodError("[]"))
    case Bool(_) => Err(NoMethodError("[]"))
    case Float(_) => Err(NoMethodError("[]"))
    case _ => Err(TypeError)
  }

  function JoinWith(parts: seq<string>, sep: string): string
    decreases |parts|
  {
    if parts == [] then ""
    else if |parts| == 1 then parts[0]
    else parts[0] + sep + JoinWith(parts[1..], sep)
  }

  /**
   * `v.inspect` (the form arrays and hashes also give for `to_s`), with the
   * `=>` hash form of the Ruby releases of the time.
   */
  function Inspect(v: Value): string
    decreases v
  {
    match v
    case Nil => "nil"
    case Bool(b) => if b then "true" else "false"
    case Int(i) => IntToString(i)
    case Float(text) => text
    case Str(s) => "\"" + s + "\""
    case List(items) =>
      "[" + JoinWith(seq(|items|, i requires 0 <= i < |items| => Inspect(items[i])), ", ") + "]"
    case Hash(entries) =>
      "{" + JoinWith(seq(|entries|, i requires 0 <= i < |entries| =>
                       Inspect(entries[i].0) + "=>" + Inspect(entries[i].1)), ", ") + "}"
  }

  /** `v.to_s`, as string interpolation `"#{v}"` applies it. */
  function ToS(v: Value): string
  {
    match v
    case Nil => ""
    case Str(s) => s
    case _ => Inspect(v)
  }
}
