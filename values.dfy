/// The run-time values of abrvalg/interpreter.py and the state they live in: a stack of
/// environment frames and a store of the mutable objects (lists and dictionaries) that
/// values refer to, so that two names bound to one list see each other's updates.
module Values {
  import opened Results
  import opened Text
  import opened Lexer
  import opened Ast

  /// The built-in functions `add_builtins` binds in the global environment.
  datatype Builtin = Print | Len | Slice | StrOf | IntOf
  {
    /// The parameter names the built-in is declared with.
    function Params(): seq<string> {
      match this
      case Print => ["value"]
      case Len => ["iter"]
      case Slice => ["iter", "start", "stop"]
      case StrOf => ["in"]
      case IntOf => ["in"]
    }

    /// The global name the built-in is bound to.
    function Name(): string {
      match this
      case Print => "print"
      case Len => "len"
      case Slice => "slice"
      case StrOf => "str"
      case IntOf => "int"
    }
  }

  /// A host value: `None`, a bool, an int, a str, a reference to a list or dictionary
  /// object in the store, a `range(lo, hi)`, a declared function (the `Function` node
  /// itself), or a built-in.
  datatype Value =
    | NoneV
    | BoolV(b: bool)
    | IntV(i: int)
    | StrV(s: string)
    | RefV(ref: nat)
    | RangeV(lo: int, hi: int)
    | FuncV(name: string, params: seq<string>, body: seq<Node>)
    | BuiltinV(builtin: Builtin)

  /// A dictionary key: the hashable values the model covers.
  datatype Key = NoneKey | IntKey(i: int) | StrKey(s: string)

  /// A mutable object: a list, or a dictionary as its entries in insertion order with
  /// no key twice.
  datatype Obj = ListObj(items: seq<Value>) | DictObj(entries: seq<(Key, Value)>)

  /// A key of an environment: `set` is called with the `value` field of an assignment's
  /// left side, which is a name for an identifier or a string and a number for a number.
  datatype EnvKey = Name(name: string) | NumberName(numeral: Numeral)

  type Frame = map<EnvKey, Value>

  /// The environment chain, outermost (global) frame first, and the object store.
  datatype State = State(frames: seq<Frame>, store: seq<Obj>)

  /// The exceptions evaluation raises, by class. `NotModelled` stands for host behaviour
  /// outside the model (floats, bool-as-int arithmetic, comparing containers, ...).
  datatype FaultKind =
    | NameError | TypeError | IndexError | KeyError | ValueError | ZeroDivisionError
    | RuntimeError | AttributeError | PlainException | NotModelled

  datatype Fault = Fault(kind: FaultKind, message: string)

  /// How an evaluation ends: normally with a value, with one of the three control-flow
  /// exceptions (`Break`, `Continue`, `Return(value)`), with a raised exception, or, in
  /// the model only, when it ran out of fuel.
  datatype Signal<+T> = Normal(value: T) | Brk | Cont | Ret(result: Value) | Raised(fault: Fault) | OutOfFuel
  {
    /// The same abnormal ending, for a computation of another result type.
    function Pass<U>(): (s: Signal<U>)
      requires !Normal?
      ensures !s.Normal?
    {
      match this
      case Brk => Brk
      case Cont => Cont
      case Ret(v) => Ret(v)
      case Raised(f) => Raised(f)
      case OutOfFuel => OutOfFuel
    }
  }

  datatype Outcome<+T> = Outcome(st: State, sig: Signal<T>)

  function Raise<T>(st: State, kind: FaultKind, message: string): Outcome<T> {
    Outcome(st, Raised(Fault(kind, message)))
  }

  // ----- well-formed states -----------------------------------------------------------

  /// The value refers to no object outside a store of `n` objects.
  predicate ValueIn(v: Value, n: nat) {
    v.RefV? ==> v.ref < n
  }

  predicate ValuesIn(vs: seq<Value>, n: nat) {
    forall i :: 0 <= i < |vs| ==> ValueIn(vs[i], n)
  }

  predicate EntriesIn(es: seq<(Key, Value)>, n: nat) {
    forall i :: 0 <= i < |es| ==> ValueIn(es[i].1, n)
  }

  predicate ObjIn(o: Obj, n: nat) {
    match o
    case ListObj(items) => ValuesIn(items, n)
    case DictObj(entries) => EntriesIn(entries, n)
  }

  predicate FrameIn(f: Frame, n: nat) {
    forall key :: key in f ==> ValueIn(f[key], n)
  }

  predicate FramesIn(frames: seq<Frame>, n: nat) {
    forall k :: 0 <= k < |frames| ==> FrameIn(frames[k], n)
  }

  predicate StoreOk(store: seq<Obj>) {
    forall r :: 0 <= r < |store| ==> ObjIn(store[r], |store|)
  }

  /// A state evaluation can start from: there is a current frame, and every reference
  /// in a frame or an object names an object of the store.
  predicate Wf(st: State) {
    |st.frames| > 0 && FramesIn(st.frames, |st.store|) && StoreOk(st.store)
  }

  predicate SignalIn(sig: Signal<Value>, n: nat) {
    (sig.Normal? ==> ValueIn(sig.value, n)) && (sig.Ret? ==> ValueIn(sig.result, n))
  }

  predicate SignalsIn(sig: Signal<seq<Value>>, n: nat) {
    (sig.Normal? ==> ValuesIn(sig.value, n)) && (sig.Ret? ==> ValueIn(sig.result, n))
  }

  predicate EntriesSignalIn(sig: Signal<seq<(Key, Value)>>, n: nat) {
    (sig.Normal? ==> EntriesIn(sig.value, n)) && (sig.Ret? ==> ValueIn(sig.result, n))
  }

  /// What every evaluation step keeps, from `st` to `st'`: the frames below the current
  /// one are untouched and there are as many (a call pushes a frame and pops it again),
  /// the store only grows, and the state stays well-formed.
  predicate Follows(st: State, st': State)
    requires |st.frames| > 0
  {
    && |st'.frames| == |st.frames|
    && st'.frames[..|st.frames| - 1] == st.frames[..|st.frames| - 1]
    && |st.store| <= |st'.store|
    && Wf(st')
  }

  // ----- the environment chain --------------------------------------------------------

  /// `Environment.get`: the innermost frame binding `key` to something other than `None`
  /// gives the value; a frame that lacks the key or binds it to `None` passes the lookup
  /// on to its parent, and the outermost one answers `None`.
  function Lookup(frames: seq<Frame>, key: EnvKey): (v: Value)
    decreases |frames|
  {
    if frames == [] then NoneV
    else
      var top := frames[|frames| - 1];
      if key in top && top[key] != NoneV then top[key] else Lookup(frames[..|frames| - 1], key)
  }

  /// `Environment.set`: binds `key` in the current (innermost) frame only.
  function SetLocal(frames: seq<Frame>, key: EnvKey, v: Value): (r: seq<Frame>)
    requires |frames| > 0
    ensures |r| == |frames| && r[..|r| - 1] == frames[..|frames| - 1]
    ensures key in r[|r| - 1] && r[|r| - 1][key] == v
  {
    frames[|frames| - 1 := frames[|frames| - 1][key := v]]
  }

  /// The frame of a call: `dict(zip(params, args))`, where a later repeated parameter
  /// name wins.
  function BindArgs(params: seq<string>, args: seq<Value>): (f: Frame)
    requires |params| == |args|
    ensures forall i :: 0 <= i < |params| ==> Name(params[i]) in f
    ensures forall key :: key in f ==> f[key] in args
    decreases |params|
  {
    if params == [] then map[]
    else
      var f := BindArgs(params[..|params| - 1], args[..|args| - 1]);
      f[Name(params[|params| - 1]) := args[|args| - 1]]
  }

  /// Every binding of a call's frame is some parameter bound to the argument at the same
  /// position.
  lemma {:induction false} BindArgsKeys(params: seq<string>, args: seq<Value>, key: EnvKey)
    requires |params| == |args| && key in BindArgs(params, args)
    ensures exists i :: 0 <= i < |params| && key == Name(params[i]) && BindArgs(params, args)[key] == args[i]
    decreases |params|
  {
    var n := |params| - 1;
    var m := BindArgs(params[..n], args[..n]);
    if key != Name(params[n]) {
      BindArgsKeys(params[..n], args[..n], key);
      var i :| 0 <= i < n && key == Name(params[..n][i]) && m[key] == args[..n][i];
      assert key == Name(params[i]) && BindArgs(params, args)[key] == args[i];
    } else {
      assert key == Name(params[n]) && BindArgs(params, args)[key] == args[n];
    }
  }

  /// The global frame `create_global_env` builds: the five built-ins.
  function GlobalFrame(): (f: Frame)
    ensures forall b: Builtin :: Name(b.Name()) in f && f[Name(b.Name())] == BuiltinV(b)
  {
    map[Name("print") := BuiltinV(Print), Name("len") := BuiltinV(Len), Name("slice") := BuiltinV(Slice),
        Name("str") := BuiltinV(StrOf), Name("int") := BuiltinV(IntOf)]
  }

  // ----- host conversions -------------------------------------------------------------

  /// `bool(v)`: `None`, `False`, 0, the empty string, an empty list or dictionary and an
  /// empty range are false; everything else is true.
  function Truthy(v: Value, store: seq<Obj>): bool
    requires ValueIn(v, |store|)
  {
    match v
    case NoneV => false
    case BoolV(b) => b
    case IntV(i) => i != 0
    case StrV(s) => s != []
    case RefV(r) => (match store[r] case ListObj(items) => items != [] case DictObj(entries) => entries != [])
    case RangeV(lo, hi) => lo < hi
    case FuncV(_, _, _) => true
    case BuiltinV(_) => true
  }

  /// The dictionary key of a value: lists, dictionaries, functions and built-ins are
  /// unhashable (a declared function is a tuple holding lists); bools and ranges are
  /// hashable but not keys this model covers.
  function KeyOf(v: Value): Result<Key, Fault> {
    match v
    case NoneV => Ok(NoneKey)
    case IntV(i) => Ok(IntKey(i))
    case StrV(s) => Ok(StrKey(s))
    case BoolV(_) => Err(Fault(NotModelled, "bool key"))
    case RangeV(_, _) => Err(Fault(NotModelled, "range key"))
    case _ => Err(Fault(TypeError, "unhashable type"))
  }

  function KeyValue(k: Key): (v: Value)
    ensures KeyOf(v) == Ok(k)
  {
    match k
    case NoneKey => NoneV
    case IntKey(i) => IntV(i)
    case StrKey(s) => StrV(s)
  }

  /// The position of `k` among the entries, if present (the last one, were it there
  /// twice).
  function FindKey(entries: seq<(Key, Value)>, k: Key): (r: Option<nat>)
    ensures r.Some? ==> r.value < |entries| && entries[r.value].0 == k
    ensures r.Some? ==> forall i :: r.value < i < |entries| ==> entries[i].0 != k
    ensures r.None? ==> forall i :: 0 <= i < |entries| ==> entries[i].0 != k
    decreases |entries|
  {
    if entries == [] then None
    else if entries[|entries| - 1].0 == k then Some(|entries| - 1)
    else FindKey(entries[..|entries| - 1], k)
  }

  /// `d[k] = v` on the entries: an existing key keeps its place, a new one goes last.
  function PutKey(entries: seq<(Key, Value)>, k: Key, v: Value): (r: seq<(Key, Value)>)
    ensures FindKey(r, k).Some? && r[FindKey(r, k).value].1 == v
    ensures forall i :: 0 <= i < |entries| && entries[i].0 != k ==> i < |r| && r[i] == entries[i]
    ensures forall i :: 0 <= i < |r| ==> r[i] == (k, v) || (i < |entries| && r[i] == entries[i])
    ensures |r| == |entries| + (if FindKey(entries, k).Some? then 0 else 1)
  {
    match FindKey(entries, k)
    case Some(i) =>
      var r := entries[i := (k, v)];
      PutKeyFound(entries, r, k, i);
      r
    case None =>
      var r := entries + [(k, v)];
      assert r[|entries|].0 == k;
      PutKeyFound(entries, r, k, |entries|);
      r
  }

  lemma PutKeyFound(entries: seq<(Key, Value)>, r: seq<(Key, Value)>, k: Key, i: nat)
    requires i < |r| && r[i].0 == k
    requires forall j :: i < j < |r| ==> r[j].0 != k
    ensures FindKey(r, k) == Some(i)
  {
  }

  // ----- keeping states well-formed ---------------------------------------------------

  lemma LookupIn(frames: seq<Frame>, key: EnvKey, n: nat)
    requires FramesIn(frames, n)
    ensures ValueIn(Lookup(frames, key), n)
    decreases |frames|
  {
    if frames != [] {
      assert FrameIn(frames[|frames| - 1], n);
      LookupIn(frames[..|frames| - 1], key, n);
    }
  }

  lemma SetLocalWf(st: State, key: EnvKey, v: Value)
    requires Wf(st) && ValueIn(v, |st.store|)
    ensures Wf(State(SetLocal(st.frames, key, v), st.store))
    ensures Follows(st, State(SetLocal(st.frames, key, v), st.store))
  {
    var frames := SetLocal(st.frames, key, v);
    forall k | 0 <= k < |frames| ensures FrameIn(frames[k], |st.store|) {
      assert FrameIn(st.frames[k], |st.store|);
    }
  }

  lemma ValueGrows(v: Value, n: nat, m: nat)
    requires ValueIn(v, n) && n <= m
    ensures ValueIn(v, m)
  {
  }

  lemma AppendIn(vs: seq<Value>, v: Value, n: nat, m: nat)
    requires ValuesIn(vs, n) && ValueIn(v, m) && n <= m
    ensures ValuesIn(vs + [v], m)
  {
    forall i | 0 <= i < |vs| + 1 ensures ValueIn((vs + [v])[i], m) {
      if i < |vs| {
        assert ValueIn(vs[i], n);
      }
    }
  }

  lemma PutIn(es: seq<(Key, Value)>, k: Key, v: Value, n: nat, m: nat)
    requires EntriesIn(es, n) && ValueIn(v, m) && n <= m
    ensures EntriesIn(PutKey(es, k, v), m)
  {
    var r := PutKey(es, k, v);
    forall i | 0 <= i < |r| ensures ValueIn(r[i].1, m) {
      if r[i] != (k, v) {
        assert ValueIn(es[i].1, n);
      }
    }
  }

  /// Pushing the frame of a call keeps the state well-formed.
  lemma PushWf(st: State, params: seq<string>, args: seq<Value>)
    requires Wf(st) && |params| == |args| && ValuesIn(args, |st.store|)
    ensures Wf(State(st.frames + [BindArgs(params, args)], st.store))
  {
    var f := BindArgs(params, args);
    forall key | key in f ensures ValueIn(f[key], |st.store|) {
      BindArgsKeys(params, args, key);
    }
    var frames := st.frames + [f];
    forall k | 0 <= k < |frames| ensures FrameIn(frames[k], |st.store|) {
      if k < |st.frames| {
        assert FrameIn(st.frames[k], |st.store|);
      }
    }
  }
}
