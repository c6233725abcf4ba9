/// The five built-in functions of `add_builtins`, applied to their already evaluated
/// arguments (in parameter order). `print`'s output is not modelled: it returns `None`.
module Builtins {
  import opened Results
  import opened Text
  import opened Values
  import opened Operators

  /// A slice bound: an int, or `None` for the default.
  function BoundOf(v: Value): Result<Option<int>, Fault> {
    match v
    case NoneV => Ok(None)
    case IntV(i) => Ok(Some(i))
    case BoolV(_) => Err(Fault(NotModelled, "bool slice index"))
    case _ => Err(Fault(TypeError, "slice indices must be integers or None"))
  }

  /// A bound adjusted to a sequence of length `n`: a negative bound counts from the end,
  /// and the result is clamped to `0..n`; `None` stands for `default`.
  function Clamp(k: Option<int>, default: nat, n: nat): (r: nat)
    requires default <= n
    ensures r <= n
    ensures k.Some? && 0 <= k.value <= n ==> r == k.value
    ensures k.Some? && -(n as int) <= k.value < 0 ==> r == k.value + n
  {
    match k
    case None => default
    case Some(i) =>
      if i < 0 then (if i + n < 0 then 0 else i + n)
      else if i > n then n else i
  }

  /// `s[start:stop]` with step 1.
  function SliceOf<T>(s: seq<T>, start: Option<int>, stop: Option<int>): (r: seq<T>)
    ensures var lo, hi := Clamp(start, 0, |s|), Clamp(stop, |s|, |s|);
      |r| == (if lo < hi then hi - lo else 0) && forall i :: 0 <= i < |r| ==> r[i] == s[lo + i]
  {
    var lo, hi := Clamp(start, 0, |s|), Clamp(stop, |s|, |s|);
    if lo < hi then s[lo..hi] else []
  }

  /// The items of `list(s)` for a string: its characters, each a one-character string.
  function Chars(s: string): (r: seq<Value>)
    ensures |r| == |s| && forall i :: 0 <= i < |s| ==> r[i] == StrV([s[i]])
  {
    seq(|s|, i requires 0 <= i < |s| => StrV([s[i]]))
  }

  /// The ints of `range(lo, hi)`, in order.
  function RangeItems(lo: int, hi: int): (r: seq<Value>)
    ensures |r| == (if lo < hi then hi - lo else 0)
    ensures forall i :: 0 <= i < |r| ==> r[i] == IntV(lo + i)
  {
    seq(if lo < hi then hi - lo else 0, i requires 0 <= i => IntV(lo + i))
  }

  /// The items of a string, a list or a range, in order, as `list(v)` gives them.
  function ItemsOf(v: Value, store: seq<Obj>): (r: seq<Value>)
    requires StoreOk(store) && ValueIn(v, |store|)
    requires v.StrV? || v.RangeV? || (v.RefV? && store[v.ref].ListObj?)
    ensures ValuesIn(r, |store|)
  {
    if v.StrV? then Chars(v.s)
    else if v.RangeV? then RangeItems(v.lo, v.hi)
    else
      assert ObjIn(store[v.ref], |store|);
      store[v.ref].items
  }

  /// `list(iter[start:stop])`: a new list.
  function SliceList(st: State, iter: Value, start: Value, stop: Value): (r: Outcome<Value>)
    requires Wf(st) && ValueIn(iter, |st.store|)
    ensures r.st.frames == st.frames && st.store <= r.st.store && Wf(r.st)
    ensures r.sig.Normal? || r.sig.Raised?
    ensures SignalIn(r.sig, |r.st.store|)
  {
    if iter.FuncV? || iter.BuiltinV? then Raise(st, NotModelled, "tuple slice")
    else if !(iter.StrV? || iter.RefV? || iter.RangeV?) then Raise(st, TypeError, "object is not subscriptable")
    else if iter.RefV? && st.store[iter.ref].DictObj? then Raise(st, NotModelled, "dictionary slice")
    else match (BoundOf(start), BoundOf(stop))
      case (Err(f), _) => Outcome(st, Raised(f))
      case (_, Err(f)) => Outcome(st, Raised(f))
      case (Ok(lo), Ok(hi)) => Alloc(st, ListObj(SliceOf(ItemsOf(iter, st.store), lo, hi)))
  }

  /// `len(v)`.
  function Length(v: Value, store: seq<Obj>): (r: Result<int, Fault>)
    requires ValueIn(v, |store|)
    ensures r.Ok? ==> r.value >= 0
  {
    match v
    case StrV(s) => Ok(|s|)
    case RefV(x) => Ok(match store[x] case ListObj(items) => |items| case DictObj(entries) => |entries|)
    case RangeV(lo, hi) => Ok(if lo < hi then hi - lo else 0)
    case FuncV(_, _, _) => Err(Fault(NotModelled, "tuple length"))
    case BuiltinV(_) => Err(Fault(NotModelled, "tuple length"))
    case _ => Err(Fault(TypeError, "object has no len()"))
  }

  /// `str(v)` for the scalars; the text of containers and functions is not modelled.
  function ToStr(v: Value): Result<string, Fault> {
    match v
    case NoneV => Ok("None")
    case BoolV(b) => Ok(if b then "True" else "False")
    case IntV(i) => Ok(ShowInt(i))
    case StrV(s) => Ok(s)
    case _ => Err(Fault(NotModelled, "text of a container or function"))
  }

  /// `int(v)`: ints and bools as numbers, strings in the host's decimal syntax (a
  /// ValueError otherwise), and a TypeError for anything else.
  function ToInt(v: Value): Result<int, Fault> {
    match v
    case IntV(i) => Ok(i)
    case BoolV(b) => Ok(if b then 1 else 0)
    case StrV(s) =>
      (match ParseInt(s)
       case Some(i) => Ok(i)
       case None => Err(Fault(ValueError, "invalid literal for int() with base 10")))
    case _ => Err(Fault(TypeError, "int() argument must be a string or a number"))
  }

  /// The call of a built-in on arguments bound to its parameters in order.
  function ApplyBuiltin(st: State, b: Builtin, args: seq<Value>): (r: Outcome<Value>)
    requires Wf(st) && |args| == |b.Params()| && ValuesIn(args, |st.store|)
    ensures r.st.frames == st.frames && st.store <= r.st.store && Wf(r.st)
    ensures r.sig.Normal? || r.sig.Raised?
    ensures SignalIn(r.sig, |r.st.store|)
  {
    assert ValueIn(args[0], |st.store|);
    match b
    case Print => Outcome(st, Normal(NoneV))
    case Len => Outcome(st, match Length(args[0], st.store) case Ok(n) => Normal(IntV(n)) case Err(f) => Raised(f))
    case Slice => SliceList(st, args[0], args[1], args[2])
    case StrOf => Outcome(st, match ToStr(args[0]) case Ok(s) => Normal(StrV(s)) case Err(f) => Raised(f))
    case IntOf => Outcome(st, match ToInt(args[0]) case Ok(i) => Normal(IntV(i)) case Err(f) => Raised(f))
  }
}
