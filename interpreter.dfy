/// The parts of abrvalg/interpreter.py that work by updating things step by step: the
/// environment that `set` updates in place, the loop that builds the global environment,
/// the loop of `_from_dict` that fills a call's environment, and the loops of
/// `eval_statements`, `eval_while_loop` and `eval_for_loop`. Each method is proved to do
/// what the corresponding function of `Evaluator` says.
///
/// One `Environment` object holds the whole chain of environments as a stack of frames,
/// the current one last, together with the store of list and dictionary objects that
/// values refer to. A call pushes the callee's frame on this stack and drops it on
/// return, where the host allocates a new environment whose parent is the caller's.
module Interpreter {
  import opened Results
  import opened Ast
  import opened Values
  import opened Evaluator

  /// The built-ins in the order `add_builtins` binds them.
  const BuiltinOrder: seq<Builtin> := [Print, Len, Slice, StrOf, IntOf]

  /// The frame binding the built-ins `bs`, one after the other.
  function BuiltinsFrame(bs: seq<Builtin>): Frame
    decreases |bs|
  {
    if bs == [] then map[]
    else BuiltinsFrame(bs[..|bs| - 1])[Name(bs[|bs| - 1].Name()) := BuiltinV(bs[|bs| - 1])]
  }

  /// Binding the five built-ins in order gives the global frame.
  lemma BuiltinsFrameIsGlobal()
    ensures BuiltinsFrame(BuiltinOrder) == GlobalFrame()
  {
    var bs := BuiltinOrder;
    assert bs[..4] == [Print, Len, Slice, StrOf];
    assert bs[..4][..3] == [Print, Len, Slice];
    assert bs[..4][..3][..2] == [Print, Len];
    assert bs[..4][..3][..2][..1] == [Print];
    assert [Print][..0] == [];
    var f1 := BuiltinsFrame([Print]);
    assert f1 == map[Name("print") := BuiltinV(Print)];
    var f2 := BuiltinsFrame([Print, Len]);
    assert f2 == f1[Name("len") := BuiltinV(Len)];
    var f3 := BuiltinsFrame([Print, Len, Slice]);
    assert f3 == f2[Name("slice") := BuiltinV(Slice)];
    var f4 := BuiltinsFrame([Print, Len, Slice, StrOf]);
    assert f4 == f3[Name("str") := BuiltinV(StrOf)];
    assert BuiltinsFrame(bs) == f4[Name("int") := BuiltinV(IntOf)];
  }

  /// Binding one more argument adds it to the frame of the ones before.
  lemma BindArgsStep(params: seq<string>, args: seq<Value>, i: nat)
    requires |params| == |args| && i < |params|
    ensures BindArgs(params[..i + 1], args[..i + 1]) == BindArgs(params[..i], args[..i])[Name(params[i]) := args[i]]
  {
    assert params[..i + 1][..i] == params[..i] && args[..i + 1][..i] == args[..i];
  }

  /// One step of a for loop, unfolded.
  lemma ForFromStep(fuel: nat, st: State, n: Node, coll: Value, size: nat, i: nat)
    requires Wf(st) && n.ForLoop? && ValueIn(coll, |st.store|) && (coll.StrV? || coll.RangeV? || coll.RefV?)
    ensures NextItem(coll, st.store, size, i).Err? ==>
      ForFrom(fuel, st, n, coll, size, i) == Outcome(st, Raised(NextItem(coll, st.store, size, i).error))
    ensures NextItem(coll, st.store, size, i) == Ok(None) ==>
      ForFrom(fuel, st, n, coll, size, i) == Outcome(st, Normal(NoneV))
    ensures NextItem(coll, st.store, size, i).Ok? && NextItem(coll, st.store, size, i).value.Some? ==>
      var v := NextItem(coll, st.store, size, i).value.value;
      ValueIn(v, |st.store|) && Wf(State(SetLocal(st.frames, Name(n.varName), v), st.store)) &&
      ForFrom(fuel, st, n, coll, size, i)
        == ForNext(fuel, n, coll, size, i, ExecBody(fuel, State(SetLocal(st.frames, Name(n.varName), v), st.store), n.body, 0, NoneV))
  {
    match NextItem(coll, st.store, size, i)
    case Err(_) =>
    case Ok(None) =>
    case Ok(Some(v)) => SetLocalWf(st, Name(n.varName), v);
  }

  /// What a for loop does after its body, unfolded.
  lemma ForNextStep(fuel: nat, n: Node, coll: Value, size: nat, i: nat, b: Outcome<Value>)
    requires Wf(b.st) && n.ForLoop? && ValueIn(coll, |b.st.store|) && (coll.StrV? || coll.RangeV? || coll.RefV?)
    requires SignalIn(b.sig, |b.st.store|)
    ensures b.sig.Brk? ==> ForNext(fuel, n, coll, size, i, b) == Outcome(b.st, Normal(NoneV))
    ensures !b.sig.Brk? && !(b.sig.Normal? || b.sig.Cont?) ==> ForNext(fuel, n, coll, size, i, b) == b
    ensures (b.sig.Normal? || b.sig.Cont?) && fuel == 0 ==> ForNext(fuel, n, coll, size, i, b) == Outcome(b.st, OutOfFuel)
    ensures (b.sig.Normal? || b.sig.Cont?) && fuel > 0 ==>
      ForNext(fuel, n, coll, size, i, b) == ForFrom(fuel - 1, b.st, n, coll, size, i + 1)
  {
  }

  class Environment {
    /// The chain of frames, the global one first and the current one last.
    var frames: seq<Frame>
    /// The list and dictionary objects the values refer to.
    var store: seq<Obj>

    /// The environment as the state the evaluator works on.
    function Snapshot(): State
      reads this
    {
      State(frames, store)
    }

    ghost predicate Valid()
      reads this
    {
      Wf(Snapshot())
    }

    /// `create_global_env`: an environment without a parent in which `add_builtins`
    /// binds each built-in under its name.
    constructor Global()
      ensures frames == [GlobalFrame()] && store == [] && Valid()
    {
      frames := [map[]];
      store := [];
      new;
      var i := 0;
      while i < |BuiltinOrder|
        invariant i <= |BuiltinOrder|
        invariant frames == [BuiltinsFrame(BuiltinOrder[..i])] && store == []
      {
        var b := BuiltinOrder[i];
        Set(Name(b.Name()), BuiltinV(b));
        assert BuiltinOrder[..i + 1][..i] == BuiltinOrder[..i];
        i := i + 1;
      }
      assert BuiltinOrder[..i] == BuiltinOrder;
      BuiltinsFrameIsGlobal();
      assert FrameIn(GlobalFrame(), 0);
    }

    /// `Environment.set`: binds the key in the current frame; nothing else changes.
    method Set(key: EnvKey, v: Value)
      requires |frames| > 0
      modifies this
      ensures frames == SetLocal(old(frames), key, v) && store == old(store)
    {
      frames := frames[|frames| - 1 := frames[|frames| - 1][key := v]];
    }

    /// `Environment.get`: walks the chain from the current frame outwards and answers the
    /// first value that is not `None`, or `None`.
    method Get(key: EnvKey) returns (v: Value)
      ensures v == Lookup(frames, key)
    {
      var k := |frames|;
      assert frames[..k] == frames;
      while k > 0
        invariant 0 <= k <= |frames|
        invariant Lookup(frames[..k], key) == Lookup(frames, key)
      {
        var top := frames[k - 1];
        assert frames[..k][..k - 1] == frames[..k - 1];
        if key in top && top[key] != NoneV {
          return top[key];
        }
        k := k - 1;
      }
      return NoneV;
    }

    /// `Environment(env, args)` for a call: a new frame on top of the current one, into
    /// which `_from_dict` sets the arguments one by one.
    method Enter(params: seq<string>, args: seq<Value>)
      requires |params| == |args|
      modifies this
      ensures frames == old(frames) + [BindArgs(params, args)] && store == old(store)
    {
      frames := frames + [map[]];
      var i := 0;
      while i < |params|
        invariant i <= |params|
        invariant frames == old(frames) + [BindArgs(params[..i], args[..i])] && store == old(store)
      {
        Set(Name(params[i]), args[i]);
        BindArgsStep(params, args, i);
        i := i + 1;
      }
      assert params[..i] == params && args[..i] == args;
    }

    /// The end of a call: the callee's frame is dropped.
    method Exit()
      requires |frames| > 1
      modifies this
      ensures frames == old(frames)[..|old(frames)| - 1] && store == old(store)
    {
      frames := frames[..|frames| - 1];
    }

    /// The body of a declared function run on evaluated arguments: its frame is
    /// entered, its statements run, the frame is left, and a `Return` becomes the
    /// call's value.
    method Invoke(fuel: nat, params: seq<string>, body: seq<Node>, args: seq<Value>) returns (sig: Signal<Value>)
      requires Valid() && |params| == |args| && ValuesIn(args, |store|)
      modifies this
      ensures Valid()
      ensures var callee := State(old(frames) + [BindArgs(params, args)], old(store));
        Outcome(Snapshot(), sig) == Returned(old(Snapshot()), callee, ExecBody(fuel, callee, body, 0, NoneV))
    {
      ghost var st := Snapshot();
      PushWf(st, params, args);
      Enter(params, args);
      ghost var callee := Snapshot();
      var b := ExecStatements(fuel, body);
      Exit();
      assert frames == st.frames;
      sig := if b.Ret? then Normal(b.result) else b;
    }

    /// `eval_statements`: the statements in order, each evaluated in this environment;
    /// a `break` or `continue` statement raises its signal, a `return` statement raises
    /// `Return` with its value, and otherwise the last statement's value is the result.
    method ExecStatements(fuel: nat, body: seq<Node>) returns (sig: Signal<Value>)
      requires Valid()
      modifies this
      ensures Valid()
      ensures Outcome(Snapshot(), sig) == ExecBody(fuel, old(Snapshot()), body, 0, NoneV)
    {
      var ret := NoneV;
      var i := 0;
      while i < |body|
        invariant i <= |body| && Valid() && ValueIn(ret, |store|)
        invariant ExecBody(fuel, Snapshot(), body, i, ret) == ExecBody(fuel, old(Snapshot()), body, 0, NoneV)
      {
        if body[i].Break? {
          return Brk;
        }
        if body[i].Continue? {
          return Cont;
        }
        var o := Eval(fuel, Snapshot(), body[i]);
        frames, store := o.st.frames, o.st.store;
        if !o.sig.Normal? {
          return o.sig;
        }
        if body[i].Return? {
          return Ret(o.sig.value);
        }
        ret := o.sig.value;
        i := i + 1;
      }
      return Normal(ret);
    }

    /// `eval_while_loop`: while the test is true the body runs; `Break` ends the loop and
    /// `Continue` goes on with the next test. Each iteration spends one unit of fuel.
    method WhileLoop(fuel: nat, n: Node) returns (sig: Signal<Value>)
      requires Valid() && n.WhileLoop?
      modifies this
      ensures Valid()
      ensures Outcome(Snapshot(), sig) == EvalWhile(fuel, old(Snapshot()), n)
    {
      var f := fuel;
      while true
        invariant Valid()
        invariant EvalWhile(f, Snapshot(), n) == EvalWhile(fuel, old(Snapshot()), n)
        decreases f
      {
        ghost var before := Snapshot();
        var t := Eval(f, Snapshot(), n.test);
        frames, store := t.st.frames, t.st.store;
        if !t.sig.Normal? {
          return t.sig;
        }
        if !Truthy(t.sig.value, store) {
          return Normal(NoneV);
        }
        var b := ExecStatements(f, n.body);
        assert EvalWhile(f, before, n) == WhileNext(f, n, Outcome(Snapshot(), b));
        if b.Brk? {
          return Normal(NoneV);
        }
        if !(b.Normal? || b.Cont?) {
          return b;
        }
        if f == 0 {
          return OutOfFuel;
        }
        f := f - 1;
      }
    }

    /// `eval_for_loop`: the collection once, then for each of its elements the loop
    /// variable is set in this environment and the body runs, with `Break` and
    /// `Continue` as in a while loop. Each iteration spends one unit of fuel.
    method ForLoop(fuel: nat, n: Node) returns (sig: Signal<Value>)
      requires Valid() && n.ForLoop?
      modifies this
      ensures Valid()
      ensures Outcome(Snapshot(), sig) == EvalFor(fuel, old(Snapshot()), n)
    {
      if n.collection.None? {
        return Raised(Fault(PlainException, "Unknown node"));
      }
      var c := Eval(fuel, Snapshot(), n.collection.value);
      frames, store := c.st.frames, c.st.store;
      if !c.sig.Normal? {
        return c.sig;
      }
      var coll := c.sig.value;
      var bad := Iterable(coll, store);
      if bad.Some? {
        return Raised(bad.value);
      }
      sig := ForEach(fuel, n, coll, SizeOf(coll, store));
    }

    /// One iteration of `eval_for_loop`: the loop variable is set to `v`, then the body
    /// runs.
    method Iterate(fuel: nat, n: Node, v: Value) returns (b: Signal<Value>)
      requires Valid() && n.ForLoop? && ValueIn(v, |store|)
      modifies this
      ensures Valid()
      ensures Outcome(Snapshot(), b)
        == ExecBody(fuel, State(SetLocal(old(frames), Name(n.varName), v), old(store)), n.body, 0, NoneV)
    {
      SetLocalWf(Snapshot(), Name(n.varName), v);
      Set(Name(n.varName), v);
      b := ExecStatements(fuel, n.body);
    }

    /// One iteration of `eval_for_loop` on the `i`-th element of `coll`: either the loop
    /// is over (`done`), or it goes on with the next element and one unit of fuel less.
    method ForStep(fuel: nat, n: Node, coll: Value, size: nat, i: nat) returns (done: bool, sig: Signal<Value>)
      requires Valid() && n.ForLoop? && ValueIn(coll, |store|) && (coll.StrV? || coll.RangeV? || coll.RefV?)
      modifies this
      ensures Valid() && ValueIn(coll, |store|)
      ensures done ==> Outcome(Snapshot(), sig) == ForFrom(fuel, old(Snapshot()), n, coll, size, i)
      ensures !done ==> fuel > 0 && ForFrom(fuel - 1, Snapshot(), n, coll, size, i + 1) == ForFrom(fuel, old(Snapshot()), n, coll, size, i)
    {
      ForFromStep(fuel, Snapshot(), n, coll, size, i);
      var next := NextItem(coll, store, size, i);
      if next.Err? {
        return true, Raised(next.error);
      }
      if next.value.None? {
        return true, Normal(NoneV);
      }
      var b := Iterate(fuel, n, next.value.value);
      ForNextStep(fuel, n, coll, size, i, Outcome(Snapshot(), b));
      if b.Brk? {
        return true, Normal(NoneV);
      }
      if !(b.Normal? || b.Cont?) {
        return true, b;
      }
      if fuel == 0 {
        return true, OutOfFuel;
      }
      return false, b;
    }

    /// The iterations of `eval_for_loop` over `coll` (a dictionary of `size` entries when
    /// the loop started).
    method ForEach(fuel: nat, n: Node, coll: Value, size: nat) returns (sig: Signal<Value>)
      requires Valid() && n.ForLoop? && ValueIn(coll, |store|) && (coll.StrV? || coll.RangeV? || coll.RefV?)
      modifies this
      ensures Valid()
      ensures Outcome(Snapshot(), sig) == ForFrom(fuel, old(Snapshot()), n, coll, size, 0)
    {
      var f, i := fuel, 0;
      while true
        invariant Valid() && ValueIn(coll, |store|)
        invariant ForFrom(f, Snapshot(), n, coll, size, i) == ForFrom(fuel, old(Snapshot()), n, coll, size, 0)
        decreases f
      {
        var done;
        done, sig := ForStep(f, n, coll, size, i);
        if done {
          return;
        }
        f, i := f - 1, i + 1;
      }
    }
  }
}
