/// The tree-walking evaluator of abrvalg/interpreter.py as functions over a state. The
/// host's exceptions are the `Signal` an evaluation ends with: `Break`, `Continue` and
/// `Return` travel outwards like any other exception until a loop or a call catches
/// them. A call and a loop iteration each spend one unit of `fuel`, so that a program
/// that runs forever ends with `OutOfFuel` instead.
///
/// Every evaluation keeps the state well-formed, leaves the frames below the current one
/// untouched and only adds objects to the store (`Follows`).
module Evaluator {
  import opened Results
  import opened Text
  import opened Lexer
  import opened Ast
  import opened Values
  import opened Operators
  import opened Builtins

  /// The exception `eval_node` raises for a node it has no evaluator for (or for the
  /// `None` that stands in for a missing expression).
  function UnknownNode<T>(st: State): Outcome<T> {
    Raise(st, PlainException, "Unknown node")
  }

  /// `eval_node`: one node, dispatched on its shape.
  function Eval(fuel: nat, st: State, n: Node): (r: Outcome<Value>)
    requires Wf(st)
    ensures Follows(st, r.st) && SignalIn(r.sig, |r.st.store|)
    decreases fuel, n, 2
  {
    match n
    case Number(numeral) =>
      Outcome(st, match numeral case Integer(i) => Normal(IntV(i)) case Decimal(_) => Raised(Fault(NotModelled, "float")))
    case String(text) => Outcome(st, Normal(StrV(text)))
    case Identifier(name) => EvalIdentifier(st, name)
    case Assignment(_, _) => EvalAssignment(fuel, st, n)
    case BinaryOperator(_, _, _) => EvalBinary(fuel, st, n)
    case UnaryOperator(_, _) => EvalUnary(fuel, st, n)
    case Call(_, _) => EvalCall(fuel, st, n)
    case Function(name, params, body) => Declare(st, name, params, body)
    case Condition(_, _, _, _) => EvalCondition(fuel, st, n)
    case Match(_, _, _) => EvalMatch(fuel, st, n)
    case WhileLoop(_, _) => EvalWhile(fuel, st, n)
    case ForLoop(_, _, _) => EvalFor(fuel, st, n)
    case Return(value) => (match value case None => Outcome(st, Normal(NoneV)) case Some(e) => Eval(fuel, st, e))
    case Array(_) => EvalArray(fuel, st, n)
    case Dictionary(_) => EvalDict(fuel, st, n)
    case SubscriptOperator(_, _) => EvalGetItem(fuel, st, n)
    case Break => UnknownNode(st)
    case Continue => UnknownNode(st)
  }

  /// `eval_identifier`: the environment's value for the name, a NameError when it is
  /// unbound or bound to `None`.
  function EvalIdentifier(st: State, name: string): (r: Outcome<Value>)
    requires Wf(st)
    ensures Follows(st, r.st) && SignalIn(r.sig, |r.st.store|)
  {
    var v := Lookup(st.frames, Name(name));
    LookupIn(st.frames, Name(name), |st.store|);
    if v == NoneV then Raise(st, NameError, "Name \"" + name + "\" is not defined")
    else Outcome(st, Normal(v))
  }

  /// `eval_function_declaration`: the function node itself is bound in the current frame.
  function Declare(st: State, name: string, params: seq<string>, body: seq<Node>): (r: Outcome<Value>)
    requires Wf(st)
    ensures Follows(st, r.st) && SignalIn(r.sig, |r.st.store|)
  {
    SetLocalWf(st, Name(name), FuncV(name, params, body));
    Outcome(State(SetLocal(st.frames, Name(name), FuncV(name, params, body)), st.store), Normal(NoneV))
  }

  /// `eval_assignment`: a subscript on the left stores into the collection; any other
  /// left side is bound in the current frame under its `value` field, which only
  /// identifiers, strings and numbers have.
  function EvalAssignment(fuel: nat, st: State, n: Node): (r: Outcome<Value>)
    requires Wf(st) && n.Assignment?
    ensures Follows(st, r.st) && SignalIn(r.sig, |r.st.store|)
    decreases fuel, n, 1
  {
    match n.left
    case SubscriptOperator(_, _) => EvalSetItem(fuel, st, n)
    case Identifier(name) => Bind(fuel, st, n, Name(name))
    case String(text) => Bind(fuel, st, n, Name(text))
    case Number(numeral) => Bind(fuel, st, n, NumberName(numeral))
    case Return(_) => Raise(st, NotModelled, "a return node as a key")
    case _ => Raise(st, AttributeError, "object has no attribute 'value'")
  }

  /// `env.set(key, eval_expression(right))`.
  function Bind(fuel: nat, st: State, n: Node, key: EnvKey): (r: Outcome<Value>)
    requires Wf(st) && n.Assignment?
    ensures Follows(st, r.st) && SignalIn(r.sig, |r.st.store|)
    decreases fuel, n, 0
  {
    match n.rhs
    case None => UnknownNode(st)
    case Some(e) =>
      var v := Eval(fuel, st, e);
      if !v.sig.Normal? then v
      else
        SetLocalWf(v.st, key, v.sig.value);
        Outcome(State(SetLocal(v.st.frames, key, v.sig.value), v.st.store), Normal(NoneV))
  }

  /// `eval_setitem`: the collection, then the key, then the value are evaluated, and the
  /// value is stored.
  function EvalSetItem(fuel: nat, st: State, n: Node): (r: Outcome<Value>)
    requires Wf(st) && n.Assignment? && n.left.SubscriptOperator?
    ensures Follows(st, r.st) && SignalIn(r.sig, |r.st.store|)
    decreases fuel, n, 0
  {
    var c := Eval(fuel, st, n.left.left);
    if !c.sig.Normal? then c
    else
      var k := Eval(fuel, c.st, n.left.key);
      if !k.sig.Normal? then k
      else match n.rhs
        case None => UnknownNode(k.st)
        case Some(e) =>
          var v := Eval(fuel, k.st, e);
          if !v.sig.Normal? then v
          else match SetItem(c.sig.value, k.sig.value, v.sig.value, v.st.store)
            case Err(f) => Outcome(v.st, Raised(f))
            case Ok(store) => Outcome(State(v.st.frames, store), Normal(NoneV))
  }

  /// `eval_binary_operator`: an operator of the simple table evaluates both operands;
  /// `&&` and `||` evaluate the right operand only when the left one does not decide,
  /// and give a bool; any other operator raises before anything is evaluated.
  function EvalBinary(fuel: nat, st: State, n: Node): (r: Outcome<Value>)
    requires Wf(st) && n.BinaryOperator?
    ensures Follows(st, r.st) && SignalIn(r.sig, |r.st.store|)
    decreases fuel, n, 1
  {
    if n.operator in SimpleOperators then
      var a := Eval(fuel, st, n.left);
      if !a.sig.Normal? then a
      else
        var b := Eval(fuel, a.st, n.right);
        if !b.sig.Normal? then b
        else ApplyBinary(b.st, n.operator, a.sig.value, b.sig.value)
    else if n.operator == "&&" || n.operator == "||" then EvalLazy(fuel, st, n)
    else Raise(st, PlainException, "Invalid operator " + n.operator)
  }

  /// `&&` and `||`: `bool(left) and bool(right)`, `bool(left) or bool(right)`.
  function EvalLazy(fuel: nat, st: State, n: Node): (r: Outcome<Value>)
    requires Wf(st) && n.BinaryOperator? && (n.operator == "&&" || n.operator == "||")
    ensures Follows(st, r.st) && SignalIn(r.sig, |r.st.store|)
    decreases fuel, n, 0
  {
    var a := Eval(fuel, st, n.left);
    if !a.sig.Normal? then a
    else
      var left := Truthy(a.sig.value, a.st.store);
      if n.operator == "&&" && !left then Outcome(a.st, Normal(BoolV(false)))
      else if n.operator == "||" && left then Outcome(a.st, Normal(BoolV(true)))
      else
        var b := Eval(fuel, a.st, n.right);
        if !b.sig.Normal? then b
        else Outcome(b.st, Normal(BoolV(Truthy(b.sig.value, b.st.store))))
  }

  /// `eval_unary_operator`: the operator is looked up first, so an unknown one raises a
  /// KeyError without evaluating the operand.
  function EvalUnary(fuel: nat, st: State, n: Node): (r: Outcome<Value>)
    requires Wf(st) && n.UnaryOperator?
    ensures Follows(st, r.st) && SignalIn(r.sig, |r.st.store|)
    decreases fuel, n, 1
  {
    if !UnaryKnown(n.operator) then Raise(st, KeyError, n.operator)
    else
      var a := Eval(fuel, st, n.right);
      if !a.sig.Normal? then a
      else Outcome(a.st, ApplyUnary(n.operator, a.sig.value, a.st.store))
  }

  /// `eval_getitem`: the collection, then the key.
  function EvalGetItem(fuel: nat, st: State, n: Node): (r: Outcome<Value>)
    requires Wf(st) && n.SubscriptOperator?
    ensures Follows(st, r.st) && SignalIn(r.sig, |r.st.store|)
    decreases fuel, n, 1
  {
    var c := Eval(fuel, st, n.left);
    if !c.sig.Normal? then c
    else
      var k := Eval(fuel, c.st, n.key);
      if !k.sig.Normal? then k
      else Outcome(k.st, match GetItem(c.sig.value, k.sig.value, k.st.store) case Ok(v) => Normal(v) case Err(f) => Raised(f))
  }

  /// `eval_array`: the items left to right, then a new list.
  function EvalArray(fuel: nat, st: State, n: Node): (r: Outcome<Value>)
    requires Wf(st) && n.Array?
    ensures Follows(st, r.st) && SignalIn(r.sig, |r.st.store|)
    decreases fuel, n, 1
  {
    var items := EvalItems(fuel, st, n.items, 0, []);
    if !items.sig.Normal? then Outcome(items.st, items.sig.Pass())
    else Alloc(items.st, ListObj(items.sig.value))
  }

  /// The values of `nodes[i..]`, evaluated left to right, after `acc`.
  function EvalItems(fuel: nat, st: State, nodes: seq<Node>, i: nat, acc: seq<Value>): (r: Outcome<seq<Value>>)
    requires Wf(st) && i <= |nodes| && ValuesIn(acc, |st.store|)
    ensures Follows(st, r.st) && SignalsIn(r.sig, |r.st.store|)
    ensures r.sig.Normal? ==> |r.sig.value| == |acc| + |nodes| - i
    decreases fuel, nodes, |nodes| - i
  {
    if i == |nodes| then Outcome(st, Normal(acc))
    else
      var v := Eval(fuel, st, nodes[i]);
      if !v.sig.Normal? then Outcome(v.st, v.sig.Pass())
      else
        AppendIn(acc, v.sig.value, |st.store|, |v.st.store|);
        EvalItems(fuel, v.st, nodes, i + 1, acc + [v.sig.value])
  }

  /// `eval_dict`: for each entry its key, then its value; a repeated key keeps its first
  /// place and takes the last value.
  function EvalDict(fuel: nat, st: State, n: Node): (r: Outcome<Value>)
    requires Wf(st) && n.Dictionary?
    ensures Follows(st, r.st) && SignalIn(r.sig, |r.st.store|)
    decreases fuel, n, 1
  {
    var es := EvalEntries(fuel, st, n, 0, []);
    if !es.sig.Normal? then Outcome(es.st, es.sig.Pass())
    else Alloc(es.st, DictObj(es.sig.value))
  }

  /// The entries of the dictionary literal `n` from the `i`-th on, put into `acc`.
  function EvalEntries(fuel: nat, st: State, n: Node, i: nat, acc: seq<(Key, Value)>)
    : (r: Outcome<seq<(Key, Value)>>)
    requires Wf(st) && n.Dictionary? && i <= |n.entries| && EntriesIn(acc, |st.store|)
    ensures Follows(st, r.st) && EntriesSignalIn(r.sig, |r.st.store|)
    decreases fuel, n, 0, |n.entries| - i
  {
    if i == |n.entries| then Outcome(st, Normal(acc))
    else
      match n.entries[i]
      case Entry(keyNode, valueNode) =>
        var k := Eval(fuel, st, keyNode);
        if !k.sig.Normal? then Outcome(k.st, k.sig.Pass())
        else
          var v := Eval(fuel, k.st, valueNode);
          if !v.sig.Normal? then Outcome(v.st, v.sig.Pass())
          else match KeyOf(k.sig.value)
            case Err(f) => Outcome(v.st, Raised(f))
            case Ok(key) =>
              PutIn(acc, key, v.sig.value, |st.store|, |v.st.store|);
              EvalEntries(fuel, v.st, n, i + 1, PutKey(acc, key, v.sig.value))
  }

  /// `eval_call`: the callee, then its arity against the number of arguments (before
  /// any argument is evaluated), then the arguments left to right in the caller's
  /// environment; a built-in is applied to them, a declared function runs its body in a
  /// new frame on top of the caller's.
  function EvalCall(fuel: nat, st: State, n: Node): (r: Outcome<Value>)
    requires Wf(st) && n.Call?
    ensures Follows(st, r.st) && SignalIn(r.sig, |r.st.store|)
    decreases fuel, n, 1
  {
    var f := Eval(fuel, st, n.left);
    if !f.sig.Normal? then f
    else if !(f.sig.value.FuncV? || f.sig.value.BuiltinV?) then
      Raise(f.st, AttributeError, "object has no attribute 'params'")
    else
      var params := if f.sig.value.FuncV? then f.sig.value.params else f.sig.value.builtin.Params();
      if |params| != |n.arguments| then
        Raise(f.st, TypeError, "Expected " + ShowInt(|params|) + " arguments, got " + ShowInt(|n.arguments|))
      else
        var args := EvalItems(fuel, f.st, n.arguments, 0, []);
        if !args.sig.Normal? then Outcome(args.st, args.sig.Pass())
        else if f.sig.value.BuiltinV? then ApplyBuiltin(args.st, f.sig.value.builtin, args.sig.value)
        else if fuel == 0 then Outcome(args.st, OutOfFuel)
        else
          PushWf(args.st, params, args.sig.value);
          var callee := State(args.st.frames + [BindArgs(params, args.sig.value)], args.st.store);
          var b := ExecBody(fuel - 1, callee, f.sig.value.body, 0, NoneV);
          Returned(args.st, callee, b)
  }

  /// The end of a call: its frame is dropped, a `Return` becomes the call's value, and
  /// every other ending passes to the caller unchanged.
  function Returned(st: State, callee: State, b: Outcome<Value>): (r: Outcome<Value>)
    requires Wf(st) && |callee.frames| == |st.frames| + 1 && callee.frames[..|st.frames|] == st.frames
    requires callee.store == st.store && Follows(callee, b.st) && SignalIn(b.sig, |b.st.store|)
    ensures Follows(st, r.st) && SignalIn(r.sig, |r.st.store|)
    ensures r.st == State(st.frames, b.st.store)
  {
    FramesGrow(st.frames, |st.store|, |b.st.store|);
    var back := State(st.frames, b.st.store);
    match b.sig
    case Ret(v) => Outcome(back, Normal(v))
    case _ => Outcome(back, b.sig)
  }

  /// `eval_condition`: the first test that is true selects its body; without one the
  /// else-body runs, and without an else-body the value is `None`.
  function EvalCondition(fuel: nat, st: State, n: Node): (r: Outcome<Value>)
    requires Wf(st) && n.Condition?
    ensures Follows(st, r.st) && SignalIn(r.sig, |r.st.store|)
    decreases fuel, n, 1
  {
    var t := Eval(fuel, st, n.test);
    if !t.sig.Normal? then t
    else if Truthy(t.sig.value, t.st.store) then ExecBody(fuel, t.st, n.ifBody, 0, NoneV)
    else EvalElifs(fuel, t.st, n, 0)
  }

  function EvalElifs(fuel: nat, st: State, n: Node, i: nat): (r: Outcome<Value>)
    requires Wf(st) && n.Condition? && i <= |n.elifs|
    ensures Follows(st, r.st) && SignalIn(r.sig, |r.st.store|)
    decreases fuel, n, 0, |n.elifs| - i
  {
    if i == |n.elifs| then EvalElse(fuel, st, n.elseBody)
    else
      var t := Eval(fuel, st, n.elifs[i].test);
      if !t.sig.Normal? then t
      else if Truthy(t.sig.value, t.st.store) then ExecBody(fuel, t.st, n.elifs[i].body, 0, NoneV)
      else EvalElifs(fuel, t.st, n, i + 1)
  }

  function EvalElse(fuel: nat, st: State, e: ElsePart): (r: Outcome<Value>)
    requires Wf(st)
    ensures Follows(st, r.st) && SignalIn(r.sig, |r.st.store|)
    decreases fuel, e, 0
  {
    match e
    case NoElse => Outcome(st, Normal(NoneV))
    case ElseBody(body) => ExecBody(fuel, st, body, 0, NoneV)
  }

  /// `eval_match`: the subject once, then each pattern in order until one equals it.
  function EvalMatch(fuel: nat, st: State, n: Node): (r: Outcome<Value>)
    requires Wf(st) && n.Match?
    ensures Follows(st, r.st) && SignalIn(r.sig, |r.st.store|)
    decreases fuel, n, 1
  {
    match n.subject
    case None => UnknownNode(st)
    case Some(e) =>
      var s := Eval(fuel, st, e);
      if !s.sig.Normal? then s
      else EvalWhens(fuel, s.st, n, s.sig.value, 0)
  }

  function EvalWhens(fuel: nat, st: State, n: Node, subject: Value, i: nat): (r: Outcome<Value>)
    requires Wf(st) && n.Match? && i <= |n.patterns| && ValueIn(subject, |st.store|)
    ensures Follows(st, r.st) && SignalIn(r.sig, |r.st.store|)
    decreases fuel, n, 0, |n.patterns| - i
  {
    if i == |n.patterns| then EvalElse(fuel, st, n.elseBody)
    else
      var p := Eval(fuel, st, n.patterns[i].pattern);
      if !p.sig.Normal? then p
      else match ValuesEqual(p.sig.value, subject, p.st.store)
        case Err(f) => Outcome(p.st, Raised(f))
        case Ok(true) => ExecBody(fuel, p.st, n.patterns[i].body, 0, NoneV)
        case Ok(false) => EvalWhens(fuel, p.st, n, subject, i + 1)
  }

  /// `eval_while_loop`: while the test is true the body runs; `Break` ends the loop,
  /// `Continue` goes on with the next test, and a `Return` or an exception passes
  /// through. The loop's value is `None`.
  function EvalWhile(fuel: nat, st: State, n: Node): (r: Outcome<Value>)
    requires Wf(st) && n.WhileLoop?
    ensures Follows(st, r.st) && SignalIn(r.sig, |r.st.store|)
    ensures r.sig.Normal? ==> r.sig.value == NoneV
    decreases fuel, n, 1
  {
    var t := Eval(fuel, st, n.test);
    if !t.sig.Normal? then t
    else if !Truthy(t.sig.value, t.st.store) then Outcome(t.st, Normal(NoneV))
    else
      WhileNext(fuel, n, ExecBody(fuel, t.st, n.body, 0, NoneV))
  }

  /// What a while loop does once its body has ended with `b`: `Break` ends the loop,
  /// a normal end or `Continue` goes on with the next iteration (which costs one unit of
  /// fuel), and anything else passes through.
  function WhileNext(fuel: nat, n: Node, b: Outcome<Value>): (r: Outcome<Value>)
    requires Wf(b.st) && n.WhileLoop? && SignalIn(b.sig, |b.st.store|)
    ensures Follows(b.st, r.st) && SignalIn(r.sig, |r.st.store|)
    ensures r.sig.Normal? ==> r.sig.value == NoneV
    decreases fuel, n, 0
  {
    if b.sig.Brk? then Outcome(b.st, Normal(NoneV))
    else if !(b.sig.Normal? || b.sig.Cont?) then b
    else if fuel == 0 then Outcome(b.st, OutOfFuel)
    else EvalWhile(fuel - 1, b.st, n)
  }

  /// `eval_for_loop`: the collection is evaluated once; each element is bound to the
  /// loop variable in the current frame and the body runs, with `Break` and `Continue`
  /// as in a while loop. The loop's value is `None`.
  function EvalFor(fuel: nat, st: State, n: Node): (r: Outcome<Value>)
    requires Wf(st) && n.ForLoop?
    ensures Follows(st, r.st) && SignalIn(r.sig, |r.st.store|)
    ensures r.sig.Normal? ==> r.sig.value == NoneV
    decreases fuel, n, 1
  {
    match n.collection
    case None => UnknownNode(st)
    case Some(e) =>
      var c := Eval(fuel, st, e);
      if !c.sig.Normal? then c
      else match Iterable(c.sig.value, c.st.store)
        case Some(f) => Outcome(c.st, Raised(f))
        case None => ForFrom(fuel, c.st, n, c.sig.value, SizeOf(c.sig.value, c.st.store), 0)
  }

  /// Why a value cannot be iterated over, if it cannot.
  function Iterable(v: Value, store: seq<Obj>): Option<Fault>
    requires ValueIn(v, |store|)
  {
    match v
    case StrV(_) => None
    case RangeV(_, _) => None
    case RefV(_) => None
    case FuncV(_, _, _) => Some(Fault(NotModelled, "iteration over a tuple"))
    case BuiltinV(_) => Some(Fault(NotModelled, "iteration over a tuple"))
    case _ => Some(Fault(TypeError, "object is not iterable"))
  }

  /// The size of a dictionary when its iteration starts (0 for other values).
  function SizeOf(v: Value, store: seq<Obj>): nat
    requires ValueIn(v, |store|)
  {
    if v.RefV? && store[v.ref].DictObj? then |store[v.ref].entries| else 0
  }

  /// The element at position `i` of an iteration over `v`, read from the current store
  /// (a list's slots may change while it is iterated over), or `None` when the iteration
  /// is over; a dictionary whose size changed raises a RuntimeError.
  function NextItem(v: Value, store: seq<Obj>, size: nat, i: nat): (r: Result<Option<Value>, Fault>)
    requires StoreOk(store) && ValueIn(v, |store|)
    requires v.StrV? || v.RangeV? || v.RefV?
    ensures r.Ok? && r.value.Some? ==> ValueIn(r.value.value, |store|)
  {
    if v.RefV? && store[v.ref].DictObj? then
      var entries := store[v.ref].entries;
      if |entries| != size then Err(Fault(RuntimeError, "dictionary changed size during iteration"))
      else if i < |entries| then Ok(Some(KeyValue(entries[i].0)))
      else Ok(None)
    else
      var items := ItemsOf(v, store);
      if i < |items| then Ok(Some(items[i])) else Ok(None)
  }

  /// The for loop from its `i`-th element on.
  function ForFrom(fuel: nat, st: State, n: Node, coll: Value, size: nat, i: nat): (r: Outcome<Value>)
    requires Wf(st) && n.ForLoop? && ValueIn(coll, |st.store|) && (coll.StrV? || coll.RangeV? || coll.RefV?)
    ensures Follows(st, r.st) && SignalIn(r.sig, |r.st.store|)
    ensures !r.sig.Brk? && !r.sig.Cont? && (r.sig.Normal? ==> r.sig.value == NoneV)
    decreases fuel, n, 0, 1
  {
    match NextItem(coll, st.store, size, i)
    case Err(f) => Outcome(st, Raised(f))
    case Ok(None) => Outcome(st, Normal(NoneV))
    case Ok(Some(v)) =>
      SetLocalWf(st, Name(n.varName), v);
      var st' := State(SetLocal(st.frames, Name(n.varName), v), st.store);
      ForNext(fuel, n, coll, size, i, ExecBody(fuel, st', n.body, 0, NoneV))
  }

  /// What a for loop does once its body has ended with `b` on the `i`-th element, as in
  /// a while loop.
  function ForNext(fuel: nat, n: Node, coll: Value, size: nat, i: nat, b: Outcome<Value>): (r: Outcome<Value>)
    requires Wf(b.st) && n.ForLoop? && ValueIn(coll, |b.st.store|) && (coll.StrV? || coll.RangeV? || coll.RefV?)
    requires SignalIn(b.sig, |b.st.store|)
    ensures Follows(b.st, r.st) && SignalIn(r.sig, |r.st.store|)
    ensures !r.sig.Brk? && !r.sig.Cont? && (r.sig.Normal? ==> r.sig.value == NoneV)
    decreases fuel, n, 0, 0
  {
    if b.sig.Brk? then Outcome(b.st, Normal(NoneV))
    else if !(b.sig.Normal? || b.sig.Cont?) then b
    else if fuel == 0 then Outcome(b.st, OutOfFuel)
    else ForFrom(fuel - 1, b.st, n, coll, size, i + 1)
  }

  /// `eval_statements` from the `i`-th statement on, `last` being the value of the one
  /// before: a `break` or `continue` statement raises its signal, a `return` statement
  /// raises `Return` with its value, and the value of the body is its last statement's
  /// (`None` for an empty body).
  function ExecBody(fuel: nat, st: State, body: seq<Node>, i: nat, last: Value): (r: Outcome<Value>)
    requires Wf(st) && i <= |body| && ValueIn(last, |st.store|)
    ensures Follows(st, r.st) && SignalIn(r.sig, |r.st.store|)
    decreases fuel, body, |body| - i
  {
    if i == |body| then Outcome(st, Normal(last))
    else if body[i].Break? then Outcome(st, Brk)
    else if body[i].Continue? then Outcome(st, Cont)
    else
      var o := Eval(fuel, st, body[i]);
      if !o.sig.Normal? then o
      else if body[i].Return? then Outcome(o.st, Ret(o.sig.value))
      else ExecBody(fuel, o.st, body, i + 1, o.sig.value)
  }
}
