/** The parts of Python's behaviour the client's branches depend on: exceptions, truth values,
    and the dict, list and string operations it applies to decoded JSON. */
module Python {
  import opened Json
  import opened Text

  datatype Option<+T> = None | Some(value: T)

  /** The exceptions the client's code can raise on unexpected response shapes. `StillLooping`
      stands for a loop that would not have finished within the fuel the model was given. */
  datatype PyError =
    | KeyError(key: string)
    | AttributeError(name: string)
    | TypeError(reason: string)
    | UnboundLocalError(variable: string)
    | StillLooping

  /** A Python computation: a value, or an exception propagating to the caller. */
  datatype Outcome<+T> = Ok(value: T) | Raise(error: PyError) {
    predicate IsFailure() { Raise? }
    function PropagateFailure<U>(): Outcome<U>
      requires Raise?
    {
      Raise(error)
    }
    function Extract(): T
      requires Ok?
    {
      value
    }
  }

  /** `bool(v)`: empty containers, zero, the empty string, `None` and `False` are false. */
  predicate Truthy(v: Value)
  {
    match v
    case Null => false
    case Bool(b) => b
    case Num(n) => n != 0
    case Str(s) => s != ""
    case Arr(items) => items != []
    case Obj(fields) => fields != map[]
  }

  /** `v.keys()`: only dicts have it. */
  function Keys(v: Value): Outcome<map<string, Value>>
  {
    if v.Obj? then Ok(v.fields) else Raise(AttributeError("keys"))
  }

  /** `v[k]` with a string key: a dict answers or raises KeyError; nothing else takes a string index. */
  function Index(v: Value, k: string): Outcome<Value>
  {
    match v
    case Obj(fields) => if k in fields then Ok(fields[k]) else Raise(KeyError(k))
    case _ => Raise(TypeError("string index"))
  }

  /** `item in container` for a string item: element test on a list, key test on a dict,
      substring test on a string; other values are not iterable. */
  function Contains(container: Value, item: string): Outcome<bool>
  {
    match container
    case Arr(items) => Ok(Str(item) in items)
    case Obj(fields) => Ok(item in fields)
    case Str(s) => Ok(Occurs(item, s))
    case _ => Raise(TypeError("not iterable"))
  }

  /** `container.append(x)`: only lists have it. */
  function Append(container: Value, x: Value): Outcome<Value>
  {
    if container.Arr? then Ok(Arr(container.items + [x])) else Raise(AttributeError("append"))
  }

  /** `list.remove(x)` when `x` is in the list: the first occurrence goes. */
  function RemoveFirst(items: seq<Value>, x: Value): (r: seq<Value>)
    requires x in items
  {
    if items[0] == x then items[1..] else [items[0]] + RemoveFirst(items[1..], x)
  }

  /** `container.remove(x)` guarded by `x in container`. */
  function Remove(container: Value, x: Value): Outcome<Value>
    requires container.Arr? ==> x in container.items
  {
    if container.Arr? then Ok(Arr(RemoveFirst(container.items, x))) else Raise(AttributeError("remove"))
  }

  /** `list.remove` takes out exactly the first occurrence and keeps the order of the rest. */
  lemma {:induction false} RemoveFirstIsSplice(items: seq<Value>, x: Value)
    requires x in items
    ensures RemoveFirst(items, x) == items[..IndexOf(items, x)] + items[IndexOf(items, x) + 1..]
  {
    if items[0] != x {
      RemoveFirstIsSplice(items[1..], x);
      assert items[1..][..IndexOf(items[1..], x)] == items[1..IndexOf(items, x)];
    }
  }

  /** Removing what was just appended at the end of a list that lacked it gives the list back. */
  lemma {:induction false} RemoveFirstAfterAppend(items: seq<Value>, x: Value)
    requires x !in items
    ensures RemoveFirst(items + [x], x) == items
  {
    if items != [] {
      assert (items + [x])[1..] == items[1..] + [x];
      RemoveFirstAfterAppend(items[1..], x);
    }
  }

  /** A value that can be a dict key: not a list and not a dict. */
  predicate Hashable(v: Value)
  {
    !v.Arr? && !v.Obj?
  }

  /** Every element of a list can be a dict key. */
  predicate AllHashable(s: seq<Value>)
  {
    s == [] || (AllHashable(s[..|s| - 1]) && Hashable(s[|s| - 1]))
  }

  lemma {:induction false} AllHashableElements(s: seq<Value>)
    ensures AllHashable(s) <==> forall j | 0 <= j < |s| :: Hashable(s[j])
  {
    if s != [] {
      var n := |s| - 1;
      AllHashableElements(s[..n]);
      assert forall j | 0 <= j < n :: s[..n][j] == s[j];
    }
  }

  /** The value with every boolean replaced by the integer Python treats it as (`True == 1`). */
  function Canon(v: Value): Value
  {
    match v
    case Bool(b) => Num(if b then 1 else 0)
    case Arr(items) => Arr(seq(|items|, i requires 0 <= i < |items| => Canon(items[i])))
    case Obj(fields) => Obj(map k | k in fields :: Canon(fields[k]))
    case _ => v
  }

  /** Python's `==` on JSON values: booleans equal the integers 1 and 0, lists compare element
      by element and dicts key by key. */
  predicate PyEq(a: Value, b: Value)
  {
    Canon(a) == Canon(b)
  }

  /** A boolean equals itself and the integer it stands for, and nothing else. */
  lemma PyEqBool(b: bool, v: Value)
    ensures PyEq(Bool(b), v) <==> v == Bool(b) || v == Num(if b then 1 else 0)
  {
  }

  /** A string or `None` equals only itself. */
  lemma PyEqExact(a: Value, v: Value)
    requires a.Str? || a.Null?
    ensures PyEq(a, v) <==> v == a
  {
  }

  /** What an f-string writes for a value. Strings, numbers, booleans and `None` are written as
      Python writes them; lists and dicts are written as fixed placeholders. */
  function Format(v: Value): string
  {
    match v
    case Null => "None"
    case Bool(b) => if b then "True" else "False"
    case Num(n) => IntText(n)
    case Str(s) => s
    case Arr(_) => "[...]"
    case Obj(_) => "{...}"
  }
}
