/** The adapter that turns a submitted program into a strategy
    (tournament.py, UserAIAdapter): the search for an entry point in the
    namespace the program left behind, and place(board, stone), which calls
    that entry point and checks its answer. Running the program itself is
    not modelled: what it left behind, or that it failed, is an input. */
module Adapter {
  import opened Wrappers
  import opened Othello

  /** What a call into the submitted program gives back, as far as place
      looks at it: a pair of integers, any other value (None, a list, a
      tuple of another length, ...), or an exception. */
  datatype Answer = Pair(x: int, y: int) | Other | Raised

  /** A callable of the namespace: the number of parameters
      inspect.signature reports, and what a call with (board, stone) and a
      call with (board) answer. */
  datatype Callee = Callee(arity: nat, call2: (Board, int) -> Answer, call1: Board -> Answer)

  /** The three methods place looks for on an instance, where present.
      get_ai_move reads the board place stores on the instance just before. */
  datatype Methods = Methods(
    getBestMove: Option<(Board, int) -> Answer>,
    getAIMove: Option<Board -> Answer>,
    place: Option<(Board, int) -> Answer>)

  /** An object a class constructs: its methods and its truth value. */
  datatype Made = Made(methods: Methods, truthy: bool)

  /** A class of the namespace: what calling it like a function does, and
      what constructing it with no argument gives (None: the constructor
      raises). */
  datatype ClassDef = ClassDef(asCallee: Callee, made: Option<Made>)

  /** What a name of the namespace is bound to. A class is callable too. */
  datatype Binding = Func(f: Callee) | Class(c: ClassDef) | Plain

  type Namespace = map<string, Binding>

  /** How running the submitted program ended. */
  datatype ExecOutcome = ExecFailed | Executed(ns: Namespace)

  /** The two kinds of load error: the program raised (or timed out), or
      it defines no usable entry point. */
  datatype LoadError = ExecError | NoEntryPoint

  /** callable(value) */
  predicate IsCallable(b: Binding) { b.Func? || b.Class? }

  /** isinstance(value, type) */
  predicate IsClass(b: Binding) { b.Class? }

  function AsCallee(b: Binding): Callee
    requires IsCallable(b)
  {
    if b.Func? then b.f else b.c.asCallee
  }

  /** The function names tried, in order (tournament.py:93-94). */
  const FunctionNames: seq<string> :=
    ["myai", "othello_ai", "ai_move", "get_best_move", "greedy_place", "corner_place", "lookahead_place"]

  /** The class names tried, in order (tournament.py:102). */
  const ClassNames: seq<string> := ["OthelloAI", "AI", "MyAI"]

  /** names[j] is bound, to a value of the wanted kind. */
  predicate BoundAt(ns: Namespace, names: seq<string>, kind: Binding -> bool, j: nat)
    requires j < |names|
  {
    names[j] in ns && kind(ns[names[j]])
  }

  /** The position of the first name from i on that is bound to a value of
      the wanted kind. */
  function First(ns: Namespace, names: seq<string>, kind: Binding -> bool, i: nat): (r: Option<nat>)
    requires i <= |names|
    ensures r.Some? ==>
      i <= r.value < |names| && BoundAt(ns, names, kind, r.value) &&
      forall j :: i <= j < r.value ==> !BoundAt(ns, names, kind, j)
    ensures r.None? ==> forall j :: i <= j < |names| ==> !BoundAt(ns, names, kind, j)
    decreases |names| - i
  {
    if i == |names| then None
    else if BoundAt(ns, names, kind, i) then Some(i)
    else First(ns, names, kind, i + 1)
  }

  /** ai_function after the function search. */
  function ChosenFunction(ns: Namespace): Option<Callee>
  {
    var i := First(ns, FunctionNames, IsCallable, 0);
    if i.Some? then Some(AsCallee(ns[FunctionNames[i.value]])) else None
  }

  /** ai_instance after the class search, as a value: the search stops at
      the first name bound to a class, and a constructor that raises leaves
      no instance. */
  function ChosenInstance(ns: Namespace): Option<Made>
  {
    var i := First(ns, ClassNames, IsClass, 0);
    if i.Some? then ns[ClassNames[i.value]].c.made else None
  }

  /** The entry points an adapter holds: ai_function and ai_instance. */
  datatype Entry = Entry(callee: Option<Callee>, instance: Option<Made>)

  /** `self.ai_function or self.ai_instance` is true. */
  predicate Usable(en: Entry)
  {
    en.callee.Some? || (en.instance.Some? && en.instance.value.truthy)
  }

  /** The entry points after loading. */
  function LoadedEntry(o: ExecOutcome): Entry
  {
    if o.ExecFailed? then Entry(None, None) else Entry(ChosenFunction(o.ns), ChosenInstance(o.ns))
  }

  /** error after loading. */
  function LoadedError(o: ExecOutcome): Option<LoadError>
  {
    if o.ExecFailed? then Some(ExecError)
    else if !Usable(LoadedEntry(o)) then Some(NoEntryPoint)
    else None
  }

  /** The chosen function is the callable bound to the first listed function
      name that has one; names before it are unbound or not callable. */
  lemma ChosenFunctionIsFirst(ns: Namespace)
    ensures ChosenFunction(ns).None? <==>
      forall j :: 0 <= j < |FunctionNames| ==> !(FunctionNames[j] in ns && IsCallable(ns[FunctionNames[j]]))
    ensures ChosenFunction(ns).Some? ==>
      exists i :: 0 <= i < |FunctionNames| && FunctionNames[i] in ns && IsCallable(ns[FunctionNames[i]]) &&
        ChosenFunction(ns) == Some(AsCallee(ns[FunctionNames[i]])) &&
        forall j :: 0 <= j < i ==> !(FunctionNames[j] in ns && IsCallable(ns[FunctionNames[j]]))
  {
    var i := First(ns, FunctionNames, IsCallable, 0);
    if i.Some? {
      assert BoundAt(ns, FunctionNames, IsCallable, i.value);
    } else {
      forall j | 0 <= j < |FunctionNames|
        ensures !(FunctionNames[j] in ns && IsCallable(ns[FunctionNames[j]]))
      {
        assert !BoundAt(ns, FunctionNames, IsCallable, j);
      }
    }
  }

  /** The class search stops at the first listed class name bound to a
      class, even when its constructor raises and a later name would give an
      instance. */
  lemma ClassSearchStops(ns: Namespace, i: nat)
    requires i < |ClassNames| && ClassNames[i] in ns && ns[ClassNames[i]].Class?
    requires forall j :: 0 <= j < i ==> !(ClassNames[j] in ns && ns[ClassNames[j]].Class?)
    ensures ChosenInstance(ns) == ns[ClassNames[i]].c.made
  {
    assert BoundAt(ns, ClassNames, IsClass, i);
    assert forall j :: 0 <= j < i ==> !BoundAt(ns, ClassNames, IsClass, j);
  }

  /** Some listed function name is bound to a callable. */
  predicate HasFunction(ns: Namespace)
  {
    exists j :: 0 <= j < |FunctionNames| && FunctionNames[j] in ns && IsCallable(ns[FunctionNames[j]])
  }

  /** The first listed class name bound to a class constructs an object that
      is true. */
  predicate FirstClassIsTrue(ns: Namespace)
  {
    exists i :: 0 <= i < |ClassNames| && ClassNames[i] in ns && ns[ClassNames[i]].Class? &&
      (forall j :: 0 <= j < i ==> !(ClassNames[j] in ns && ns[ClassNames[j]].Class?)) &&
      ns[ClassNames[i]].c.made.Some? && ns[ClassNames[i]].c.made.value.truthy
  }

  /** error is set exactly when running the program failed or its namespace
      binds no listed function name to a callable and the first listed class
      does not construct a true object. */
  lemma LoadErrorIff(o: ExecOutcome)
    ensures LoadedError(o).None? <==> o.Executed? && (HasFunction(o.ns) || FirstClassIsTrue(o.ns))
    ensures LoadedError(o) == Some(NoEntryPoint) ==> o.Executed? && !HasFunction(o.ns)
  {
    if o.Executed? {
      var ns := o.ns;
      ChosenFunctionIsFirst(ns);
      var k := First(ns, ClassNames, IsClass, 0);
      if k.Some? {
        ClassSearchStops(ns, k.value);
        if FirstClassIsTrue(ns) {
          var i :| 0 <= i < |ClassNames| && ClassNames[i] in ns && ns[ClassNames[i]].Class? &&
            (forall j :: 0 <= j < i ==> !(ClassNames[j] in ns && ns[ClassNames[j]].Class?)) &&
            ns[ClassNames[i]].c.made.Some? && ns[ClassNames[i]].c.made.value.truthy;
          assert !BoundAt(ns, ClassNames, IsClass, i) || i == k.value;
        }
      } else {
        if FirstClassIsTrue(ns) {
          var i :| 0 <= i < |ClassNames| && ClassNames[i] in ns && ns[ClassNames[i]].Class?;
          assert BoundAt(ns, ClassNames, IsClass, i);
        }
      }
    }
  }

  /** The call place makes, in its order of preference: a true instance's
      get_best_move(board, stone), else its get_ai_move() on the board just
      stored, else its place(board, stone); otherwise the function, with
      (board, stone) for two parameters and (board) for one. None: place
      returns None without a call. */
  function Dispatch(en: Entry, board: Board, stone: int): Option<Answer>
  {
    if en.instance.Some? && en.instance.value.truthy then
      var m := en.instance.value.methods;
      if m.getBestMove.Some? then Some(m.getBestMove.value(board, stone))
      else if m.getAIMove.Some? then Some(m.getAIMove.value(board))
      else if m.place.Some? then Some(m.place.value(board, stone))
      else None
    else if en.callee.Some? then
      var f := en.callee.value;
      if f.arity == 2 then Some(f.call2(board, stone))
      else if f.arity == 1 then Some(f.call1(board))
      else None
    else None
  }

  /** The answer check of place, as written: a pair inside [0, size) on both
      axes is returned as it is, and the pair with its axes swapped under
      the same condition. */
  function Check(a: Answer, size: int): Option<(int, int)>
  {
    match a
    case Pair(x, y) =>
      if 0 <= x < size && 0 <= y < size then Some((x, y))
      else if 0 <= y < size && 0 <= x < size then Some((y, x))
      else None
    case _ => None
  }

  /** The swap branch is never taken: its guard is the first guard with the
      operands in another order. An answer is accepted exactly when it is a
      pair inside the board on both axes, and it is returned unchanged. */
  lemma CheckNeverSwaps(a: Answer, size: int)
    ensures Check(a, size).Some? <==> a.Pair? && 0 <= a.x < size && 0 <= a.y < size
    ensures Check(a, size).Some? ==> Check(a, size).value == (a.x, a.y)
  {
  }

  /** place(board, stone) as a value. */
  function PlaceValue(en: Entry, board: Board, stone: int): Option<(int, int)>
  {
    var a := Dispatch(en, board, stone);
    if a.Some? then Check(a.value, |board|) else None
  }

  /** place returns a cell exactly when the call it makes answers that cell
      as a pair inside the board; an exception from the call gives None. */
  lemma PlaceValueIff(en: Entry, board: Board, stone: int, x: int, y: int)
    ensures PlaceValue(en, board, stone) == Some((x, y)) <==>
      Dispatch(en, board, stone) == Some(Pair(x, y)) && 0 <= x < |board| && 0 <= y < |board|
    ensures Dispatch(en, board, stone) == Some(Answer.Raised) ==> PlaceValue(en, board, stone) == None
  {
    var a := Dispatch(en, board, stone);
    if a.Some? {
      CheckNeverSwaps(a.value, |board|);
    }
  }

  /** A true instance is used and the function is ignored. */
  lemma InstanceFirst(en: Entry, board: Board, stone: int, f: Option<Callee>)
    requires en.instance.Some? && en.instance.value.truthy
    ensures Dispatch(en, board, stone) == Dispatch(Entry(f, en.instance), board, stone)
  {
  }

  /** A submitted object, with the `board` attribute place sets before it
      calls get_ai_move. */
  class Instance {
    const methods: Methods
    const truthy: bool
    var board: Option<Board>

    constructor (made: Made)
      ensures methods == made.methods && truthy == made.truthy && board == None
    {
      methods := made.methods;
      truthy := made.truthy;
      board := None;
    }
  }

  /** The function search of _load_ai: the first listed name bound to a
      callable. */
  method FindFunction(ns: Namespace) returns (aiFunction: Option<Callee>)
    ensures aiFunction == ChosenFunction(ns)
  {
    aiFunction := None;
    for i := 0 to |FunctionNames|
      invariant First(ns, FunctionNames, IsCallable, 0) == First(ns, FunctionNames, IsCallable, i)
    {
      var name := FunctionNames[i];
      if name in ns && IsCallable(ns[name]) {
        aiFunction := Some(AsCallee(ns[name]));
        return;
      }
    }
  }

  /** The class search of _load_ai: the first listed name bound to a class
      is constructed, and the search stops there whether or not the
      constructor raises. */
  method FindInstance(ns: Namespace) returns (aiInstance: Option<Instance>)
    ensures aiInstance.None? <==> ChosenInstance(ns).None?
    ensures aiInstance.Some? ==>
      fresh(aiInstance.value) && aiInstance.value.board == None &&
      ChosenInstance(ns) == Some(Made(aiInstance.value.methods, aiInstance.value.truthy))
  {
    aiInstance := None;
    for i := 0 to |ClassNames|
      invariant First(ns, ClassNames, IsClass, 0) == First(ns, ClassNames, IsClass, i)
    {
      var name := ClassNames[i];
      if name in ns && IsClass(ns[name]) {
        var made := ns[name].c.made;
        if made.Some? {
          var instance := new Instance(made.value);
          aiInstance := Some(instance);
        }
        return;
      }
    }
  }

  class UserAIAdapter {
    const code: string
    const userId: string
    var aiFunction: Option<Callee>
    var aiInstance: Option<Instance>
    var error: Option<LoadError>

    /** The entry points as values. */
    function Current(): Entry
      reads this
    {
      Entry(aiFunction, if aiInstance.Some? then Some(Made(aiInstance.value.methods, aiInstance.value.truthy)) else None)
    }

    /** UserAIAdapter(code, user_id), where `outcome` is how running `code`
        ended. */
    constructor (code: string, userId: string, outcome: ExecOutcome)
      ensures this.code == code && this.userId == userId
      ensures Current() == LoadedEntry(outcome) && error == LoadedError(outcome)
      ensures aiInstance.Some? ==> fresh(aiInstance.value) && aiInstance.value.board == None
    {
      this.code := code;
      this.userId := userId;
      aiFunction := None;
      aiInstance := None;
      error := None;
      new;
      if outcome.ExecFailed? {
        error := Some(ExecError);
        return;
      }
      aiFunction := FindFunction(outcome.ns);
      aiInstance := FindInstance(outcome.ns);
      if aiFunction.None? && !(aiInstance.Some? && aiInstance.value.truthy) {
        error := Some(NoEntryPoint);
      }
    }

    /** place(board, stone): the call Dispatch describes, then the answer
        check; the instance's `board` attribute is set exactly when
        get_ai_move is the method called. */
    method Place(board: Board, stone: int) returns (r: Option<(int, int)>)
      modifies if aiInstance.Some? then {aiInstance.value} else {}
      ensures r == PlaceValue(Current(), board, stone)
      ensures aiInstance.Some? ==>
        aiInstance.value.board ==
          if aiInstance.value.truthy && aiInstance.value.methods.getBestMove.None? && aiInstance.value.methods.getAIMove.Some?
          then Some(board) else old(aiInstance.value.board)
    {
      var size := |board|;
      var result: Answer;
      if aiInstance.Some? && aiInstance.value.truthy {
        var instance := aiInstance.value;
        if instance.methods.getBestMove.Some? {
          result := instance.methods.getBestMove.value(board, stone);
        } else if instance.methods.getAIMove.Some? {
          instance.board := Some(board);
          result := instance.methods.getAIMove.value(board);
        } else if instance.methods.place.Some? {
          result := instance.methods.place.value(board, stone);
        } else {
          return None;
        }
      } else if aiFunction.Some? {
        var params := aiFunction.value.arity;
        if params == 2 {
          result := aiFunction.value.call2(board, stone);
        } else if params == 1 {
          result := aiFunction.value.call1(board);
        } else {
          return None;
        }
      } else {
        return None;
      }
      r := Check(result, size);
    }
  }
}
