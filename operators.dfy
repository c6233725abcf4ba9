/// The host operations the interpreter applies to evaluated values: the operator tables
/// of `eval_binary_operator` and `eval_unary_operator`, item access and update
/// (`eval_getitem`, `eval_setitem`), and the built-ins of `add_builtins`.
module Operators {
  import opened Results
  import opened Text
  import opened Values

  // ----- objects ----------------------------------------------------------------------

  /// A new object at the end of the store, and the reference to it.
  function Alloc(st: State, o: Obj): (r: Outcome<Value>)
    requires Wf(st) && ObjIn(o, |st.store|)
    ensures r.st.frames == st.frames && r.st.store == st.store + [o]
    ensures r.sig == Normal(RefV(|st.store|))
    ensures Wf(r.st)
  {
    var st' := State(st.frames, st.store + [o]);
    StoreGrows(st.store, o);
    FramesGrow(st.frames, |st.store|, |st.store| + 1);
    Outcome(st', Normal(RefV(|st.store|)))
  }

  lemma StoreGrows(store: seq<Obj>, o: Obj)
    requires StoreOk(store) && ObjIn(o, |store|)
    ensures StoreOk(store + [o])
  {
    forall r | 0 <= r < |store| + 1 ensures ObjIn((store + [o])[r], |store| + 1) {
      ObjGrows((store + [o])[r], |store|, |store| + 1);
    }
  }

  lemma ObjGrows(o: Obj, n: nat, m: nat)
    requires ObjIn(o, n) && n <= m
    ensures ObjIn(o, m)
  {
  }

  lemma FramesGrow(frames: seq<Frame>, n: nat, m: nat)
    requires FramesIn(frames, n) && n <= m
    ensures FramesIn(frames, m)
  {
    forall k | 0 <= k < |frames| ensures FrameIn(frames[k], m) {
      assert FrameIn(frames[k], n);
    }
  }

  /// The store with object `r` replaced by `o`.
  lemma StoreUpdate(store: seq<Obj>, r: nat, o: Obj)
    requires StoreOk(store) && r < |store| && ObjIn(o, |store|)
    ensures StoreOk(store[r := o])
  {
  }

  /// A value that is not a reference, a range or a plain scalar: a declared function is a
  /// host tuple and a built-in a host named tuple, and a bool is an int to the host;
  /// operations on these are outside the model.
  predicate Outside(v: Value) {
    v.BoolV? || v.FuncV? || v.BuiltinV?
  }

  // ----- arithmetic -------------------------------------------------------------------

  /// The host's `a % b` on ints: the remainder of floor division, which takes the sign
  /// of the divisor.
  function FloorMod(a: int, b: int): (r: int)
    requires b != 0
    ensures b > 0 ==> 0 <= r < b
    ensures b < 0 ==> b < r <= 0
  {
    var e := a % b;
    if b < 0 && e != 0 then e + b else e
  }

  /// The host's `a // b`: the quotient rounded toward minus infinity.
  function FloorDiv(a: int, b: int): int
    requires b != 0
  {
    if b < 0 && a % b != 0 then a / b - 1 else a / b
  }

  /// `a == b * (a // b) + a % b`: the remainder is the one of floor division.
  lemma FloorDivMod(a: int, b: int)
    requires b != 0
    ensures a == b * FloorDiv(a, b) + FloorMod(a, b)
  {
    var q := a / b;
    assert a == b * q + a % b;
    if b < 0 && a % b != 0 {
      assert b * (q - 1) == b * q - b;
    }
  }

  /// `s * n` for a sequence: `n` copies of `s` one after the other, none when `n <= 0`.
  function Repeated<T>(s: seq<T>, n: int): (r: seq<T>)
    ensures |r| == if n <= 0 then 0 else n * |s|
    decreases n
  {
    if n <= 0 then [] else RepeatedStep(s, n); s + Repeated(s, n - 1)
  }

  lemma RepeatedStep<T>(s: seq<T>, n: int)
    requires n > 0
    ensures (n - 1) * |s| + |s| == n * |s|
  {
  }

  lemma {:induction false} RepeatedIn(xs: seq<Value>, n: int, m: nat)
    requires ValuesIn(xs, m)
    ensures ValuesIn(Repeated(xs, n), m)
    decreases n
  {
    if n > 0 {
      RepeatedIn(xs, n - 1, m);
      var r := Repeated(xs, n);
      assert r == xs + Repeated(xs, n - 1);
      forall i | 0 <= i < |r| ensures ValueIn(r[i], m) {
        if i >= |xs| {
          assert r[i] == Repeated(xs, n - 1)[i - |xs|];
        }
      }
    }
  }

  /// Code-point order on strings, the host's `<` on str: a proper prefix comes first,
  /// otherwise the first differing character decides.
  predicate StrLess(a: string, b: string)
    decreases |a|
  {
    if a == [] then b != []
    else if b == [] then false
    else if a[0] != b[0] then a[0] < b[0]
    else StrLess(a[1..], b[1..])
  }

  // ----- binary operators -------------------------------------------------------------

  /// The host's `==` on two values. A bool equals the int 0 or 1 it stands for; two
  /// ranges are equal when they hold the same ints; a built-in equals only itself;
  /// values of unrelated types are unequal. Comparing two lists, two dictionaries or two
  /// declared functions compares their contents deeply, which the model leaves out.
  function ValuesEqual(a: Value, b: Value, store: seq<Obj>): (r: Result<bool, Fault>)
    requires ValueIn(a, |store|) && ValueIn(b, |store|)
    ensures r.Err? ==> r.error.kind == NotModelled
    ensures r.Ok? && a.IntV? && b.IntV? ==> r.value == (a.i == b.i)
    ensures r.Ok? && a.StrV? && b.StrV? ==> r.value == (a.s == b.s)
  {
    match (a, b)
    case (RefV(x), RefV(y)) =>
      if store[x].ListObj? != store[y].ListObj? then Ok(false) else Err(Fault(NotModelled, "container equality"))
    case (FuncV(_, _, _), FuncV(_, _, _)) => Err(Fault(NotModelled, "function equality"))
    case (BoolV(x), IntV(y)) => Ok((if x then 1 else 0) == y)
    case (IntV(x), BoolV(y)) => Ok(x == (if y then 1 else 0))
    case (RangeV(l1, h1), RangeV(l2, h2)) => Ok((l1 >= h1 && l2 >= h2) || (l1 == l2 && h1 == h2))
    case _ => Ok(a == b)
  }

  /// The operators of `simple_operations`: both operands are evaluated, left first.
  const SimpleOperators: set<string> := {"+", "-", "*", "/", "%", ">", ">=", "<", "<=", "==", "!=", "..", "..."}

  /// The outcome of `a <op> b` for an operator of the simple table, both operands
  /// evaluated.
  function ApplyBinary(st: State, op: string, a: Value, b: Value): (r: Outcome<Value>)
    requires op in SimpleOperators
    requires Wf(st) && ValueIn(a, |st.store|) && ValueIn(b, |st.store|)
    ensures r.st.frames == st.frames && st.store <= r.st.store && Wf(r.st)
    ensures r.sig.Normal? || r.sig.Raised?
    ensures SignalIn(r.sig, |r.st.store|)
  {
    if op == "+" then Add(st, a, b)
    else if op == "*" then Multiply(st, a, b)
    else Outcome(st, ApplyPure(op, a, b, st.store))
  }

  /// `a + b`: ints add, strings and lists concatenate (a new list).
  function Add(st: State, a: Value, b: Value): (r: Outcome<Value>)
    requires Wf(st) && ValueIn(a, |st.store|) && ValueIn(b, |st.store|)
    ensures r.st.frames == st.frames && st.store <= r.st.store && Wf(r.st)
    ensures r.sig.Normal? || r.sig.Raised?
    ensures SignalIn(r.sig, |r.st.store|)
  {
    if Outside(a) || Outside(b) then Raise(st, NotModelled, "operand of +")
    else match (a, b)
      case (IntV(x), IntV(y)) => Outcome(st, Normal(IntV(x + y)))
      case (StrV(x), StrV(y)) => Outcome(st, Normal(StrV(x + y)))
      case (RefV(x), RefV(y)) =>
        (match (st.store[x], st.store[y])
         case (ListObj(xs), ListObj(ys)) => Alloc(st, ListObj(xs + ys))
         case _ => Raise(st, TypeError, "unsupported operand type(s) for +"))
      case _ => Raise(st, TypeError, "unsupported operand type(s) for +")
  }

  /// `a * b`: ints multiply, a string or a list times an int repeats it (a new list).
  function Multiply(st: State, a: Value, b: Value): (r: Outcome<Value>)
    requires Wf(st) && ValueIn(a, |st.store|) && ValueIn(b, |st.store|)
    ensures r.st.frames == st.frames && st.store <= r.st.store && Wf(r.st)
    ensures r.sig.Normal? || r.sig.Raised?
    ensures SignalIn(r.sig, |r.st.store|)
  {
    if Outside(a) || Outside(b) then Raise(st, NotModelled, "operand of *")
    else match (a, b)
      case (IntV(x), IntV(y)) => Outcome(st, Normal(IntV(x * y)))
      case (StrV(x), IntV(n)) => Outcome(st, Normal(StrV(Repeated(x, n))))
      case (IntV(n), StrV(x)) => Outcome(st, Normal(StrV(Repeated(x, n))))
      case (RefV(x), IntV(n)) => RepeatList(st, x, n)
      case (IntV(n), RefV(x)) => RepeatList(st, x, n)
      case _ => Raise(st, TypeError, "unsupported operand type(s) for *")
  }

  function RepeatList(st: State, x: nat, n: int): (r: Outcome<Value>)
    requires Wf(st) && x < |st.store|
    ensures r.st.frames == st.frames && st.store <= r.st.store && Wf(r.st)
    ensures r.sig.Normal? || r.sig.Raised?
    ensures SignalIn(r.sig, |r.st.store|)
  {
    match st.store[x]
    case ListObj(xs) =>
      assert ObjIn(st.store[x], |st.store|);
      RepeatedIn(xs, n, |st.store|);
      Alloc(st, ListObj(Repeated(xs, n)))
    case DictObj(_) => Raise(st, TypeError, "unsupported operand type(s) for *")
  }

  /// The operators of the simple table that allocate nothing.
  function ApplyPure(op: string, a: Value, b: Value, store: seq<Obj>): (r: Signal<Value>)
    requires op in SimpleOperators - {"+", "*"}
    requires ValueIn(a, |store|) && ValueIn(b, |store|)
    ensures r.Normal? || r.Raised?
    ensures r.Normal? ==> !r.value.RefV?
    ensures (op == "==" || op == "!=") && ValuesEqual(a, b, store).Ok? ==>
      r == Normal(BoolV(ValuesEqual(a, b, store).value == (op == "==")))
    ensures op == "-" && a.IntV? && b.IntV? ==> r == Normal(IntV(a.i - b.i))
    ensures op == "/" && a.IntV? && b.IntV? ==> r.Raised? && (r.fault.kind == ZeroDivisionError <==> b.i == 0)
  {
    if op == "==" || op == "!=" then
      match ValuesEqual(a, b, store)
      case Ok(e) => Normal(BoolV(if op == "==" then e else !e))
      case Err(f) => Raised(f)
    else if op in ["<", "<=", ">", ">="] then Compare(op, a, b, store)
    else if op == "-" then
      if Outside(a) || Outside(b) then Raised(Fault(NotModelled, "operand of -"))
      else if a.IntV? && b.IntV? then Normal(IntV(a.i - b.i))
      else Raised(Fault(TypeError, "unsupported operand type(s) for -"))
    else if op == "/" then
      if Outside(a) || Outside(b) then Raised(Fault(NotModelled, "operand of /"))
      else if a.IntV? && b.IntV? then
        if b.i == 0 then Raised(Fault(ZeroDivisionError, "division by zero"))
        else Raised(Fault(NotModelled, "true division"))
      else Raised(Fault(TypeError, "unsupported operand type(s) for /"))
    else if op == "%" then
      if a.StrV? then Raised(Fault(NotModelled, "string formatting"))
      else if Outside(a) || Outside(b) then Raised(Fault(NotModelled, "operand of %"))
      else if a.IntV? && b.IntV? then
        if b.i == 0 then Raised(Fault(ZeroDivisionError, "integer modulo by zero"))
        else Normal(IntV(FloorMod(a.i, b.i)))
      else Raised(Fault(TypeError, "unsupported operand type(s) for %"))
    else
      // `..` and `...`
      if Outside(a) || Outside(b) then Raised(Fault(NotModelled, "bound of a range"))
      else if a.IntV? && b.IntV? then Normal(RangeV(a.i, if op == ".." then b.i else b.i + 1))
      else Raised(Fault(TypeError, "range bounds must be integers"))
  }

  /// `a < b`, `a <= b`, `a > b`, `a >= b`: ints by value, strings in code-point order.
  function Compare(op: string, a: Value, b: Value, store: seq<Obj>): (r: Signal<Value>)
    requires op in ["<", "<=", ">", ">="] && ValueIn(a, |store|) && ValueIn(b, |store|)
    ensures r.Normal? ==> r.value.BoolV?
    ensures r.Normal? || r.Raised?
    ensures a.IntV? && b.IntV? ==> r == Normal(BoolV(match op case "<" => a.i < b.i case "<=" => a.i <= b.i
                                                     case ">" => a.i > b.i case _ => a.i >= b.i))
  {
    if a.IntV? && b.IntV? then
      Normal(BoolV(if op == "<" then a.i < b.i else if op == "<=" then a.i <= b.i
                   else if op == ">" then a.i > b.i else a.i >= b.i))
    else if a.StrV? && b.StrV? then
      var less, more := StrLess(a.s, b.s), StrLess(b.s, a.s);
      Normal(BoolV(if op == "<" then less else if op == "<=" then !more
                   else if op == ">" then more else !less))
    else if Outside(a) || Outside(b) then Raised(Fault(NotModelled, "ordering of these values"))
    else if a.RefV? && b.RefV? && store[a.ref].ListObj? && store[b.ref].ListObj? then
      Raised(Fault(NotModelled, "list ordering"))
    else Raised(Fault(TypeError, "'" + op + "' not supported between these values"))
  }

  /// `-v` and `!v`; the operator is looked up before the operand is evaluated, so an
  /// unknown one is a KeyError (see `UnaryKnown`).
  function ApplyUnary(op: string, v: Value, store: seq<Obj>): (r: Signal<Value>)
    requires op == "-" || op == "!"
    requires ValueIn(v, |store|)
    ensures r.Normal? || r.Raised?
    ensures op == "!" ==> r == Normal(BoolV(!Truthy(v, store)))
    ensures op == "-" && v.IntV? ==> r == Normal(IntV(-v.i))
  {
    if op == "!" then Normal(BoolV(!Truthy(v, store)))
    else if v.IntV? then Normal(IntV(-v.i))
    else if v.BoolV? then Raised(Fault(NotModelled, "negated bool"))
    else Raised(Fault(TypeError, "bad operand type for unary -"))
  }

  predicate UnaryKnown(op: string) {
    op == "-" || op == "!"
  }

  // ----- items ------------------------------------------------------------------------

  /// The host's index into a sequence of length `n`: a negative index counts from the
  /// end; `None` when the index is out of range.
  function Index(k: int, n: nat): (r: Option<nat>)
    ensures r.Some? <==> -(n as int) <= k < n
    ensures r.Some? ==> r.value < n && (r.value == k || r.value == k + n)
  {
    var j := if k < 0 then k + n else k;
    if 0 <= j < n then Some(j) else None
  }

  /// `collection[key]`.
  function GetItem(coll: Value, key: Value, store: seq<Obj>): (r: Result<Value, Fault>)
    requires ValueIn(coll, |store|) && StoreOk(store)
    ensures r.Ok? ==> ValueIn(r.value, |store|)
  {
    match coll
    case RefV(x) =>
      (match store[x]
       case ListObj(items) =>
         assert ObjIn(store[x], |store|);
         (match key
          case IntV(k) => (match Index(k, |items|)
                           case Some(j) => Ok(items[j])
                           case None => Err(Fault(IndexError, "list index out of range")))
          case BoolV(_) => Err(Fault(NotModelled, "bool index"))
          case _ => Err(Fault(TypeError, "list indices must be integers or slices")))
       case DictObj(entries) =>
         assert ObjIn(store[x], |store|);
         (match KeyOf(key)
          case Err(f) => Err(f)
          case Ok(k) => (match FindKey(entries, k)
                         case Some(j) => Ok(entries[j].1)
                         case None => Err(Fault(KeyError, "key not found")))))
    case StrV(s) =>
      (match key
       case IntV(k) => (match Index(k, |s|)
                        case Some(j) => Ok(StrV([s[j]]))
                        case None => Err(Fault(IndexError, "string index out of range")))
       case BoolV(_) => Err(Fault(NotModelled, "bool index"))
       case _ => Err(Fault(TypeError, "string indices must be integers")))
    case RangeV(lo, hi) =>
      (match key
       case IntV(k) => (match Index(k, if lo < hi then hi - lo else 0)
                        case Some(j) => Ok(IntV(lo + j))
                        case None => Err(Fault(IndexError, "range object index out of range")))
       case BoolV(_) => Err(Fault(NotModelled, "bool index"))
       case _ => Err(Fault(TypeError, "range indices must be integers or slices")))
    case FuncV(_, _, _) => Err(Fault(NotModelled, "tuple subscript"))
    case BuiltinV(_) => Err(Fault(NotModelled, "tuple subscript"))
    case _ => Err(Fault(TypeError, "object is not subscriptable"))
  }

  /// `collection[key] = value`: a list slot in range or a dictionary entry is updated in
  /// the store; strings, ranges and tuples are immutable.
  function SetItem(coll: Value, key: Value, v: Value, store: seq<Obj>): (r: Result<seq<Obj>, Fault>)
    requires ValueIn(coll, |store|) && ValueIn(v, |store|) && StoreOk(store)
    ensures r.Ok? ==> |r.value| == |store| && StoreOk(r.value) && coll.RefV?
    ensures r.Ok? ==> forall j :: 0 <= j < |store| && j != coll.ref ==> r.value[j] == store[j]
  {
    match coll
    case RefV(x) =>
      (match store[x]
       case ListObj(items) =>
         (match key
          case IntV(k) => (match Index(k, |items|)
                           case Some(j) =>
                             assert ObjIn(store[x], |store|);
                             StoreUpdate(store, x, ListObj(items[j := v]));
                             Ok(store[x := ListObj(items[j := v])])
                           case None => Err(Fault(IndexError, "list assignment index out of range")))
          case BoolV(_) => Err(Fault(NotModelled, "bool index"))
          case _ => Err(Fault(TypeError, "list indices must be integers or slices")))
       case DictObj(entries) =>
         (match KeyOf(key)
          case Err(f) => Err(f)
          case Ok(k) =>
            assert ObjIn(store[x], |store|);
            var entries' := PutKey(entries, k, v);
            StoreUpdate(store, x, DictObj(entries'));
            Ok(store[x := DictObj(entries')])))
    case FuncV(_, _, _) => Err(Fault(TypeError, "object does not support item assignment"))
    case BuiltinV(_) => Err(Fault(TypeError, "object does not support item assignment"))
    case _ => Err(Fault(TypeError, "object does not support item assignment"))
  }
}
