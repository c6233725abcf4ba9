/// Properties of the interpreter model: how the environment chain answers lookups, the
/// host operations the operators stand for, and the evaluation order the evaluator keeps
/// (what is evaluated before what, and what is not evaluated at all).
module InterpreterLemmas {
  import opened Results
  import opened Text
  import opened Ast
  import opened Values
  import opened Operators
  import opened Builtins
  import opened Evaluator

  // ----- the environment chain --------------------------------------------------------

  /// `get` finds a value exactly when some frame of the chain binds the key to something
  /// other than `None`.
  lemma {:induction false} LookupFound(frames: seq<Frame>, key: EnvKey)
    ensures Lookup(frames, key) != NoneV <==>
      exists k :: 0 <= k < |frames| && key in frames[k] && frames[k][key] != NoneV
    decreases |frames|
  {
    if frames != [] {
      var n := |frames| - 1;
      var below := frames[..n];
      LookupFound(below, key);
      if Lookup(below, key) != NoneV {
        var k :| 0 <= k < n && key in below[k] && below[k][key] != NoneV;
        assert frames[k] == below[k];
      }
      if exists k :: 0 <= k < |frames| && key in frames[k] && frames[k][key] != NoneV {
        var k :| 0 <= k < |frames| && key in frames[k] && frames[k][key] != NoneV;
        if k < n {
          assert below[k] == frames[k];
        }
      }
    }
  }

  /// The value `get` finds is the one of the innermost frame that binds the key to
  /// something other than `None`.
  lemma {:induction false} LookupInnermost(frames: seq<Frame>, key: EnvKey, k: nat)
    requires k < |frames| && key in frames[k] && frames[k][key] != NoneV
    requires forall j :: k < j < |frames| ==> key !in frames[j] || frames[j][key] == NoneV
    ensures Lookup(frames, key) == frames[k][key]
    decreases |frames|
  {
    var n := |frames| - 1;
    if k < n {
      var below := frames[..n];
      assert below[k] == frames[k];
      forall j | k < j < |below| ensures key !in below[j] || below[j][key] == NoneV {
        assert below[j] == frames[j];
      }
      LookupInnermost(below, key, k);
    }
  }

  /// After `set(key, v)` a `get(key)` answers `v`, unless `v` is `None`: then the lookup
  /// passes on to the enclosing frames, as if the key were unbound in the current one.
  /// Other keys answer what they answered before.
  lemma SetThenLookup(frames: seq<Frame>, key: EnvKey, v: Value, other: EnvKey)
    requires |frames| > 0
    ensures v != NoneV ==> Lookup(SetLocal(frames, key, v), key) == v
    ensures v == NoneV ==> Lookup(SetLocal(frames, key, v), key) == Lookup(frames[..|frames| - 1], key)
    ensures other != key ==> Lookup(SetLocal(frames, key, v), other) == Lookup(frames, other)
  {
    var r := SetLocal(frames, key, v);
    assert r[..|r| - 1] == frames[..|frames| - 1];
  }

  /// In a call's frame each parameter is bound to the argument at the last position the
  /// parameter name occurs at (`dict(zip(params, args))`).
  lemma {:induction false} BindArgsLast(params: seq<string>, args: seq<Value>, i: nat)
    requires |params| == |args| && i < |params|
    requires forall j :: i < j < |params| ==> params[j] != params[i]
    ensures Name(params[i]) in BindArgs(params, args)
    ensures BindArgs(params, args)[Name(params[i])] == args[i]
    decreases |params|
  {
    var n := |params| - 1;
    if i < n {
      var ps, vs := params[..n], args[..n];
      forall j | i < j < |ps| ensures ps[j] != ps[i] {
        assert ps[j] == params[j] && ps[i] == params[i];
      }
      BindArgsLast(ps, vs, i);
      assert ps[i] == params[i] && vs[i] == args[i];
      BindArgsKeep(params, args, i);
    } else {
      BindArgsUnfold(params, args);
    }
  }

  /// The frame of all the arguments is the frame of all but the last, with the last one
  /// bound.
  lemma BindArgsUnfold(params: seq<string>, args: seq<Value>)
    requires |params| == |args| && |params| > 0
    ensures BindArgs(params, args)
      == BindArgs(params[..|params| - 1], args[..|args| - 1])[Name(params[|params| - 1]) := args[|args| - 1]]
  {
  }

  /// A parameter other than the last is bound in the call's frame as it is in the frame
  /// of all but the last argument.
  lemma BindArgsKeep(params: seq<string>, args: seq<Value>, i: nat)
    requires |params| == |args| && i < |params| - 1 && params[|params| - 1] != params[i]
    requires Name(params[i]) in BindArgs(params[..|params| - 1], args[..|args| - 1])
    ensures Name(params[i]) in BindArgs(params, args)
    ensures BindArgs(params, args)[Name(params[i])]
      == BindArgs(params[..|params| - 1], args[..|args| - 1])[Name(params[i])]
  {
    BindArgsUnfold(params, args);
  }

  // ----- host operations --------------------------------------------------------------

  /// The string order is irreflexive.
  lemma {:induction false} StrLessIrreflexive(a: string)
    ensures !StrLess(a, a)
    decreases |a|
  {
    if a != [] {
      StrLessIrreflexive(a[1..]);
    }
  }

  /// The string order is transitive.
  lemma {:induction false} StrLessTransitive(a: string, b: string, c: string)
    requires StrLess(a, b) && StrLess(b, c)
    ensures StrLess(a, c)
    decreases |a|
  {
    if a != [] && a[0] == b[0] && b[0] == c[0] {
      StrLessTransitive(a[1..], b[1..], c[1..]);
    }
  }

  /// Of two different strings exactly one comes first.
  lemma {:induction false} StrLessTotal(a: string, b: string)
    ensures a == b || StrLess(a, b) || StrLess(b, a)
    ensures !(StrLess(a, b) && StrLess(b, a))
    decreases |a|
  {
    if a != [] && b != [] && a[0] == b[0] {
      StrLessTotal(a[1..], b[1..]);
      if a[1..] == b[1..] {
        assert a == [a[0]] + a[1..] && b == [b[0]] + b[1..];
      }
    }
  }

  /// `==` does not depend on the order of its operands.
  lemma ValuesEqualSymmetric(a: Value, b: Value, store: seq<Obj>)
    requires ValueIn(a, |store|) && ValueIn(b, |store|)
    ensures ValuesEqual(a, b, store) == ValuesEqual(b, a, store)
  {
  }

  /// `int(str(i))` gives back `i`.
  lemma IntOfStrOfInt(i: int)
    ensures ToStr(IntV(i)).Ok? && ToInt(StrV(ToStr(IntV(i)).value)) == Ok(i)
  {
    ParseIntShowInt(i);
  }

  /// `s * n` holds `s` over and over: it starts with `s`, and each element further on
  /// repeats the one `|s|` places before it.
  lemma {:induction false} RepeatedAt<T>(s: seq<T>, n: int, i: nat)
    requires i < |Repeated(s, n)|
    ensures i < |s| ==> Repeated(s, n)[i] == s[i]
    ensures i >= |s| ==> Repeated(s, n)[i] == Repeated(s, n)[i - |s|]
  {
    var rest := Repeated(s, n - 1);
    assert Repeated(s, n) == s + rest;
    if i >= |s| {
      RepeatedPrefix(s, n);
      assert Repeated(s, n)[i] == rest[i - |s|];
    }
  }

  /// `s * (n - 1)` is a prefix of `s * n`.
  lemma {:induction false} RepeatedPrefix<T>(s: seq<T>, n: int)
    ensures Repeated(s, n - 1) <= Repeated(s, n)
    decreases n
  {
    if n > 1 {
      RepeatedPrefix(s, n - 1);
      assert Repeated(s, n - 1) == s + Repeated(s, n - 2);
      assert Repeated(s, n) == s + Repeated(s, n - 1);
    }
  }

  /// `a % b` with the host's sign rule agrees with floor division, and a zero divisor is
  /// a ZeroDivisionError.
  lemma ModuloOperator(a: int, b: int, store: seq<Obj>)
    ensures b == 0 ==>
      ApplyPure("%", IntV(a), IntV(b), store).Raised? && ApplyPure("%", IntV(a), IntV(b), store).fault.kind == ZeroDivisionError
    ensures b != 0 ==> ApplyPure("%", IntV(a), IntV(b), store) == Normal(IntV(a - b * FloorDiv(a, b)))
  {
    if b != 0 {
      FloorDivMod(a, b);
    }
  }

  /// `a..b` is `range(a, b)` and `a...b` is `range(a, b + 1)`, which ends with `b`.
  lemma RangeOperators(a: int, b: int, store: seq<Obj>)
    ensures ApplyPure("..", IntV(a), IntV(b), store) == Normal(RangeV(a, b))
    ensures ApplyPure("...", IntV(a), IntV(b), store) == Normal(RangeV(a, b + 1))
    ensures |RangeItems(a, b)| == (if a < b then b - a else 0)
    ensures a <= b ==> RangeItems(a, b + 1)[b - a] == IntV(b) && RangeItems(a, b + 1)[0] == IntV(a)
  {
  }

  /// A list index counts from the end when it is negative.
  lemma ListIndex(x: nat, k: int, store: seq<Obj>)
    requires StoreOk(store) && x < |store| && store[x].ListObj?
    requires -|store[x].items| <= k < |store[x].items|
    ensures GetItem(RefV(x), IntV(k), store) == Ok(store[x].items[if k < 0 then k + |store[x].items| else k])
  {
  }

  /// What `collection[key] = v` stores, `collection[key]` reads back.
  lemma GetAfterSet(coll: Value, key: Value, v: Value, store: seq<Obj>)
    requires ValueIn(coll, |store|) && ValueIn(v, |store|) && StoreOk(store)
    requires SetItem(coll, key, v, store).Ok?
    ensures GetItem(coll, key, SetItem(coll, key, v, store).value) == Ok(v)
  {
    var store' := SetItem(coll, key, v, store).value;
    match store[coll.ref]
    case ListObj(items) =>
      var j := Index(key.i, |items|).value;
      assert store'[coll.ref] == ListObj(items[j := v]);
    case DictObj(entries) =>
      var k := KeyOf(key).value;
      assert store'[coll.ref] == DictObj(PutKey(entries, k, v));
  }

  // ----- evaluation order -------------------------------------------------------------

  /// `l && r` with a false left operand is `False` and never evaluates `r`.
  lemma AndShortCircuits(fuel: nat, st: State, l: Node, r: Node)
    requires Wf(st)
    requires Eval(fuel, st, l).sig.Normal?
    requires !Truthy(Eval(fuel, st, l).sig.value, Eval(fuel, st, l).st.store)
    ensures EvalBinary(fuel, st, BinaryOperator("&&", l, r)) == Outcome(Eval(fuel, st, l).st, Normal(BoolV(false)))
  {
    assert "&&" !in SimpleOperators;
  }

  /// `l || r` with a true left operand is `True` and never evaluates `r`.
  lemma OrShortCircuits(fuel: nat, st: State, l: Node, r: Node)
    requires Wf(st)
    requires Eval(fuel, st, l).sig.Normal?
    requires Truthy(Eval(fuel, st, l).sig.value, Eval(fuel, st, l).st.store)
    ensures EvalBinary(fuel, st, BinaryOperator("||", l, r)) == Outcome(Eval(fuel, st, l).st, Normal(BoolV(true)))
  {
    assert "||" !in SimpleOperators;
  }

  /// `l && r` with a true left operand evaluates `r` in the state `l` left, and is
  /// `bool(r)`.
  lemma AndEvaluatesRight(fuel: nat, st: State, l: Node, r: Node)
    requires Wf(st)
    requires Eval(fuel, st, l).sig.Normal?
    requires Truthy(Eval(fuel, st, l).sig.value, Eval(fuel, st, l).st.store)
    ensures var b := Eval(fuel, Eval(fuel, st, l).st, r);
      && (!b.sig.Normal? ==> EvalBinary(fuel, st, BinaryOperator("&&", l, r)) == b)
      && (b.sig.Normal? ==>
            EvalBinary(fuel, st, BinaryOperator("&&", l, r)) == Outcome(b.st, Normal(BoolV(Truthy(b.sig.value, b.st.store)))))
  {
    assert "&&" !in SimpleOperators;
  }

  /// `l || r` with a false left operand evaluates `r` in the state `l` left, and is
  /// `bool(r)`.
  lemma OrEvaluatesRight(fuel: nat, st: State, l: Node, r: Node)
    requires Wf(st)
    requires Eval(fuel, st, l).sig.Normal?
    requires !Truthy(Eval(fuel, st, l).sig.value, Eval(fuel, st, l).st.store)
    ensures var b := Eval(fuel, Eval(fuel, st, l).st, r);
      && (!b.sig.Normal? ==> EvalBinary(fuel, st, BinaryOperator("||", l, r)) == b)
      && (b.sig.Normal? ==>
            EvalBinary(fuel, st, BinaryOperator("||", l, r)) == Outcome(b.st, Normal(BoolV(Truthy(b.sig.value, b.st.store)))))
  {
    assert "||" !in SimpleOperators;
  }

  /// An operator of the simple table evaluates the left operand, then the right one in
  /// the state the left one left, stopping at the first that does not end normally, and
  /// then applies the operator to the two values.
  lemma SimpleOperatorOrder(fuel: nat, st: State, op: string, l: Node, r: Node)
    requires Wf(st) && op in SimpleOperators
    ensures var res := EvalBinary(fuel, st, BinaryOperator(op, l, r));
      var a := Eval(fuel, st, l);
      var b := Eval(fuel, a.st, r);
      && (!a.sig.Normal? ==> res == a)
      && (a.sig.Normal? && !b.sig.Normal? ==> res == b)
      && (a.sig.Normal? && b.sig.Normal? ==> res == ApplyBinary(b.st, op, a.sig.value, b.sig.value))
  {
  }

  /// A binary operator outside both tables raises before either operand is evaluated:
  /// the state is untouched.
  lemma UnknownBinaryOperator(fuel: nat, st: State, op: string, l: Node, r: Node)
    requires Wf(st) && op !in SimpleOperators && op != "&&" && op != "||"
    ensures EvalBinary(fuel, st, BinaryOperator(op, l, r)) == Outcome(st, Raised(Fault(PlainException, "Invalid operator " + op)))
  {
  }

  /// A unary operator other than `-` and `!` is a KeyError raised before the operand is
  /// evaluated.
  lemma UnknownUnaryOperator(fuel: nat, st: State, op: string, e: Node)
    requires Wf(st) && op != "-" && op != "!"
    ensures Eval(fuel, st, UnaryOperator(op, e)) == Outcome(st, Raised(Fault(KeyError, op)))
  {
  }

  /// A call with the wrong number of arguments raises a TypeError once the callee is
  /// evaluated, before any argument is.
  lemma ArityCheckedFirst(fuel: nat, st: State, callee: Node, args: seq<Node>)
    requires Wf(st)
    requires var f := Eval(fuel, st, callee).sig;
      f.Normal? && ((f.value.FuncV? && |f.value.params| != |args|) || (f.value.BuiltinV? && |f.value.builtin.Params()| != |args|))
    ensures EvalCall(fuel, st, Call(callee, args)).st == Eval(fuel, st, callee).st
    ensures EvalCall(fuel, st, Call(callee, args)).sig.Raised?
    ensures EvalCall(fuel, st, Call(callee, args)).sig.fault.kind == TypeError
  {
  }

  /// A `break` statement ends a body with `Break` and the statements after it never run.
  lemma BreakEndsBody(fuel: nat, st: State, body: seq<Node>, i: nat, last: Value)
    requires Wf(st) && i < |body| && body[i].Break? && ValueIn(last, |st.store|)
    ensures ExecBody(fuel, st, body, i, last) == Outcome(st, Brk)
  {
  }

  /// A while loop whose test is false at once never runs its body: its value is `None`
  /// in the state the test left.
  lemma WhileFalseTest(fuel: nat, st: State, n: Node)
    requires Wf(st) && n.WhileLoop?
    requires Eval(fuel, st, n.test).sig.Normal?
    requires !Truthy(Eval(fuel, st, n.test).sig.value, Eval(fuel, st, n.test).st.store)
    ensures EvalWhile(fuel, st, n) == Outcome(Eval(fuel, st, n.test).st, Normal(NoneV))
  {
  }

  /// An identifier evaluates to what `get` finds; when that is `None` it is a NameError
  /// and nothing changes.
  lemma IdentifierLookup(fuel: nat, st: State, name: string)
    requires Wf(st)
    ensures Lookup(st.frames, Name(name)) == NoneV ==>
      Eval(fuel, st, Identifier(name)) == Outcome(st, Raised(Fault(NameError, "Name \"" + name + "\" is not defined")))
    ensures Lookup(st.frames, Name(name)) != NoneV ==>
      Eval(fuel, st, Identifier(name)) == Outcome(st, Normal(Lookup(st.frames, Name(name))))
  {
  }

  /// `x = e` binds `x` to the value of `e` in the current frame only, and its own value
  /// is `None`.
  lemma AssignmentBinds(fuel: nat, st: State, x: string, e: Node)
    requires Wf(st) && Eval(fuel, st, e).sig.Normal?
    ensures var o := Eval(fuel, st, e);
      Eval(fuel, st, Assignment(Identifier(x), Some(e)))
        == Outcome(State(SetLocal(o.st.frames, Name(x), o.sig.value), o.st.store), Normal(NoneV))
  {
    var n := Assignment(Identifier(x), Some(e));
    assert Eval(fuel, st, n) == EvalAssignment(fuel, st, n);
    assert EvalAssignment(fuel, st, n) == Bind(fuel, st, n, Name(x));
  }

  /// In a call's frame, a name that is not a parameter is looked up in the caller's
  /// chain: the callee sees the caller's bindings.
  lemma CalleeSeesCaller(frames: seq<Frame>, params: seq<string>, args: seq<Value>, key: EnvKey)
    requires |params| == |args| && key !in BindArgs(params, args)
    ensures Lookup(frames + [BindArgs(params, args)], key) == Lookup(frames, key)
  {
    var chain := frames + [BindArgs(params, args)];
    assert chain[..|chain| - 1] == frames;
  }

  /// A call of a declared function with the right number of evaluated arguments runs its
  /// body in a new frame above the caller's; a `Return` from the body is the call's
  /// value, any other ending is the call's, and the caller's frames are restored.
  lemma CallOfFunction(fuel: nat, st: State, callee: Node, args: seq<Node>)
    requires Wf(st) && fuel > 0
    requires var f := Eval(fuel, st, callee); f.sig.Normal? && f.sig.value.FuncV? && |f.sig.value.params| == |args|
    requires EvalItems(fuel, Eval(fuel, st, callee).st, args, 0, []).sig.Normal?
    ensures var f := Eval(fuel, st, callee).sig.value;
      var a := EvalItems(fuel, Eval(fuel, st, callee).st, args, 0, []);
      var callee' := State(a.st.frames + [BindArgs(f.params, a.sig.value)], a.st.store);
      var b := ExecBody(fuel - 1, callee', f.body, 0, NoneV);
      var r := EvalCall(fuel, st, Call(callee, args));
      && r.st == State(a.st.frames, b.st.store)
      && (b.sig.Ret? ==> r.sig == Normal(b.sig.result))
      && (!b.sig.Ret? ==> r.sig == b.sig)
  {
  }

  /// A `return` statement raises `Return` with the value of its expression, and the
  /// statements after it never run.
  lemma ReturnStatement(fuel: nat, st: State, body: seq<Node>, i: nat, last: Value)
    requires Wf(st) && i < |body| && body[i].Return? && body[i].value.Some? && ValueIn(last, |st.store|)
    requires Eval(fuel, st, body[i].value.value).sig.Normal?
    ensures var o := Eval(fuel, st, body[i].value.value);
      ExecBody(fuel, st, body, i, last) == Outcome(o.st, Ret(o.sig.value))
  {
  }

  /// A statement after the last one of a body, when it is not `break`, `continue` or
  /// `return`: after a body that ended normally it runs in the state the body left and
  /// its ending is the longer body's (so a body's value is its last statement's); after
  /// a body that ended otherwise it never runs.
  lemma {:induction false} AppendedStatement(fuel: nat, st: State, body: seq<Node>, s: Node, i: nat, last: Value)
    requires Wf(st) && i <= |body| && ValueIn(last, |st.store|)
    requires !s.Break? && !s.Continue? && !s.Return?
    ensures var p := ExecBody(fuel, st, body, i, last);
      ExecBody(fuel, st, body + [s], i, last) == if p.sig.Normal? then Eval(fuel, p.st, s) else p
    decreases |body| - i
  {
    var full := body + [s];
    if i == |body| {
      assert full[i] == s;
      var o := Eval(fuel, st, s);
      if o.sig.Normal? {
        assert ExecBody(fuel, o.st, full, i + 1, o.sig.value) == Outcome(o.st, Normal(o.sig.value));
      }
    } else {
      assert full[i] == body[i];
      if !body[i].Break? && !body[i].Continue? {
        var o := Eval(fuel, st, body[i]);
        if o.sig.Normal? && !body[i].Return? {
          AppendedStatement(fuel, o.st, body, s, i + 1, o.sig.value);
        }
      }
    }
  }

  /// An empty body is `None`; a body of one statement that is not `break`, `continue`
  /// or `return` ends as that statement does.
  lemma SingleStatementBody(fuel: nat, st: State, s: Node)
    requires Wf(st) && !s.Break? && !s.Continue? && !s.Return?
    ensures ExecBody(fuel, st, [], 0, NoneV) == Outcome(st, Normal(NoneV))
    ensures ExecBody(fuel, st, [s], 0, NoneV) == Eval(fuel, st, s)
  {
    AppendedStatement(fuel, st, [], s, 0, NoneV);
    assert [] + [s] == [s];
  }

  /// A while loop whose test is true runs its body: `Break` ends the loop with `None`, a
  /// normal end or `Continue` goes back to the test (one unit of fuel less), and a
  /// `Return` or an exception ends the loop with it.
  lemma WhileTrueTest(fuel: nat, st: State, n: Node)
    requires Wf(st) && n.WhileLoop?
    requires Eval(fuel, st, n.test).sig.Normal?
    requires Truthy(Eval(fuel, st, n.test).sig.value, Eval(fuel, st, n.test).st.store)
    ensures var t := Eval(fuel, st, n.test);
      var b := ExecBody(fuel, t.st, n.body, 0, NoneV);
      var r := EvalWhile(fuel, st, n);
      && (b.sig.Brk? ==> r == Outcome(b.st, Normal(NoneV)))
      && ((b.sig.Normal? || b.sig.Cont?) && fuel > 0 ==> r == EvalWhile(fuel - 1, b.st, n))
      && (b.sig.Ret? || b.sig.Raised? ==> r == b)
  {
  }

  // ----- conditionals and matches -----------------------------------------------------

  /// An expression that evaluates to a value and leaves the state as it was (a literal,
  /// a name that is bound, ...).
  predicate Quiet(fuel: nat, st: State, e: Node)
    requires Wf(st)
  {
    Eval(fuel, st, e).st == st && Eval(fuel, st, e).sig.Normal?
  }

  /// The `if` test decides between the `if` body and the `elif` branches.
  lemma ConditionTest(fuel: nat, st: State, n: Node)
    requires Wf(st) && n.Condition? && Quiet(fuel, st, n.test)
    ensures Truthy(Eval(fuel, st, n.test).sig.value, st.store) ==>
      EvalCondition(fuel, st, n) == ExecBody(fuel, st, n.ifBody, 0, NoneV)
    ensures !Truthy(Eval(fuel, st, n.test).sig.value, st.store) ==>
      EvalCondition(fuel, st, n) == EvalElifs(fuel, st, n, 0)
  {
  }

  /// With tests that change nothing, the `elif` branches are tried in order and the
  /// first whose test is true runs; the ones before it only have their tests evaluated.
  lemma {:induction false} FirstTrueElif(fuel: nat, st: State, n: Node, i: nat, j: nat)
    requires Wf(st) && n.Condition? && i <= j < |n.elifs|
    requires forall k :: i <= k < j ==>
      Quiet(fuel, st, n.elifs[k].test) && !Truthy(Eval(fuel, st, n.elifs[k].test).sig.value, st.store)
    requires Quiet(fuel, st, n.elifs[j].test) && Truthy(Eval(fuel, st, n.elifs[j].test).sig.value, st.store)
    ensures EvalElifs(fuel, st, n, i) == ExecBody(fuel, st, n.elifs[j].body, 0, NoneV)
    decreases j - i
  {
    if i < j {
      assert Quiet(fuel, st, n.elifs[i].test);
      FirstTrueElif(fuel, st, n, i + 1, j);
    }
  }

  /// With tests that change nothing and are all false, the else-body runs, and without
  /// one the conditional is `None`.
  lemma {:induction false} NoTrueElif(fuel: nat, st: State, n: Node, i: nat)
    requires Wf(st) && n.Condition? && i <= |n.elifs|
    requires forall k :: i <= k < |n.elifs| ==>
      Quiet(fuel, st, n.elifs[k].test) && !Truthy(Eval(fuel, st, n.elifs[k].test).sig.value, st.store)
    ensures EvalElifs(fuel, st, n, i) == EvalElse(fuel, st, n.elseBody)
    ensures n.elseBody.NoElse? ==> EvalElifs(fuel, st, n, i) == Outcome(st, Normal(NoneV))
    decreases |n.elifs| - i
  {
    if i < |n.elifs| {
      assert Quiet(fuel, st, n.elifs[i].test);
      NoTrueElif(fuel, st, n, i + 1);
    }
  }

  /// With patterns that change nothing, the `when` clauses are tried in order against
  /// the subject, evaluated once before them, and the first equal one runs.
  lemma {:induction false} FirstEqualPattern(fuel: nat, st: State, n: Node, subject: Value, i: nat, j: nat)
    requires Wf(st) && n.Match? && i <= j < |n.patterns| && ValueIn(subject, |st.store|)
    requires forall k :: i <= k < j ==>
      && Quiet(fuel, st, n.patterns[k].pattern)
      && ValuesEqual(Eval(fuel, st, n.patterns[k].pattern).sig.value, subject, st.store) == Ok(false)
    requires Quiet(fuel, st, n.patterns[j].pattern) &&
      ValuesEqual(Eval(fuel, st, n.patterns[j].pattern).sig.value, subject, st.store) == Ok(true)
    ensures EvalWhens(fuel, st, n, subject, i) == ExecBody(fuel, st, n.patterns[j].body, 0, NoneV)
    decreases j - i
  {
    if i < j {
      assert Quiet(fuel, st, n.patterns[i].pattern);
      FirstEqualPattern(fuel, st, n, subject, i + 1, j);
    }
  }

  /// With patterns that change nothing and none equal to the subject, the else-body
  /// runs, and without one the match is `None`.
  lemma {:induction false} NoEqualPattern(fuel: nat, st: State, n: Node, subject: Value, i: nat)
    requires Wf(st) && n.Match? && i <= |n.patterns| && ValueIn(subject, |st.store|)
    requires forall k :: i <= k < |n.patterns| ==>
      && Quiet(fuel, st, n.patterns[k].pattern)
      && ValuesEqual(Eval(fuel, st, n.patterns[k].pattern).sig.value, subject, st.store) == Ok(false)
    ensures EvalWhens(fuel, st, n, subject, i) == EvalElse(fuel, st, n.elseBody)
    ensures n.elseBody.NoElse? ==> EvalWhens(fuel, st, n, subject, i) == Outcome(st, Normal(NoneV))
    decreases |n.patterns| - i
  {
    if i < |n.patterns| {
      assert Quiet(fuel, st, n.patterns[i].pattern);
      NoEqualPattern(fuel, st, n, subject, i + 1);
    }
  }

  // ----- declarations and subscript assignment ----------------------------------------

  /// A function declaration binds its name to the function node in the current frame,
  /// touches nothing else, and is `None`.
  lemma DeclarationBinds(fuel: nat, st: State, name: string, params: seq<string>, body: seq<Node>)
    requires Wf(st)
    ensures var r := Eval(fuel, st, Function(name, params, body));
      && r.sig == Normal(NoneV) && r.st.store == st.store
      && |r.st.frames| == |st.frames| && r.st.frames[..|st.frames| - 1] == st.frames[..|st.frames| - 1]
      && Lookup(r.st.frames, Name(name)) == FuncV(name, params, body)
  {
    SetThenLookup(st.frames, Name(name), FuncV(name, params, body), Name(name));
  }

  /// `c[k] = e` evaluates the collection, then the key, then the value, stopping at the
  /// first that does not end normally; then the value is stored (see `GetAfterSet` for
  /// reading it back) and the assignment is `None`.
  lemma SetItemOrder(fuel: nat, st: State, coll: Node, key: Node, e: Node)
    requires Wf(st)
    ensures var r := Eval(fuel, st, Assignment(SubscriptOperator(coll, key), Some(e)));
      var c := Eval(fuel, st, coll);
      var k := Eval(fuel, c.st, key);
      var v := Eval(fuel, k.st, e);
      && (!c.sig.Normal? ==> r == c)
      && (c.sig.Normal? && !k.sig.Normal? ==> r == k)
      && (c.sig.Normal? && k.sig.Normal? && !v.sig.Normal? ==> r == v)
      && (c.sig.Normal? && k.sig.Normal? && v.sig.Normal? ==>
            var put := SetItem(c.sig.value, k.sig.value, v.sig.value, v.st.store);
            && (put.Err? ==> r == Outcome(v.st, Raised(put.error)))
            && (put.Ok? ==> r == Outcome(State(v.st.frames, put.value), Normal(NoneV))))
  {
    var n := Assignment(SubscriptOperator(coll, key), Some(e));
    SetItemUnfold(fuel, st, n);
    SetItemSteps(fuel, st, n);
  }

  /// An assignment to a subscript is evaluated by `eval_setitem`.
  lemma SetItemUnfold(fuel: nat, st: State, n: Node)
    requires Wf(st) && n.Assignment? && n.left.SubscriptOperator?
    ensures Eval(fuel, st, n) == EvalSetItem(fuel, st, n)
  {
    assert Eval(fuel, st, n) == EvalAssignment(fuel, st, n);
  }

  /// The steps of `eval_setitem` on an assignment to a subscript with a value.
  lemma SetItemSteps(fuel: nat, st: State, n: Node)
    requires Wf(st) && n.Assignment? && n.left.SubscriptOperator? && n.rhs.Some?
    ensures var r := EvalSetItem(fuel, st, n);
      var c := Eval(fuel, st, n.left.left);
      var k := Eval(fuel, c.st, n.left.key);
      var v := Eval(fuel, k.st, n.rhs.value);
      && (!c.sig.Normal? ==> r == c)
      && (c.sig.Normal? && !k.sig.Normal? ==> r == k)
      && (c.sig.Normal? && k.sig.Normal? && !v.sig.Normal? ==> r == v)
      && (c.sig.Normal? && k.sig.Normal? && v.sig.Normal? ==>
            var put := SetItem(c.sig.value, k.sig.value, v.sig.value, v.st.store);
            && (put.Err? ==> r == Outcome(v.st, Raised(put.error)))
            && (put.Ok? ==> r == Outcome(State(v.st.frames, put.value), Normal(NoneV))))
  {
  }
}
