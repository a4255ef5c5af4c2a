/** The script interpreter: it decodes and evaluates one statement at a
    time straight from a code chunk's bytecode, recursing for nested
    statements. Each code chunk keeps its own cursor, argument list and
    local slots; the global variables, the assets and the trace of handler
    runs are shared. */
module Interpreter {
  import opened Bytes
  import opened Results
  import opened Chunks
  import D = Datums
  import opened Script
  import AH = AssetHeaders
  import P = Paths

  /** The ids of the built-in functions and methods, declared in a header
      that is not part of this model, and the conversion of a FLOAT64
      duration in seconds to whole milliseconds, which is floating point. */
  datatype Builtins = Builtins(
    effectTransition: nat,
    mouseActivate: nat,
    mouseDeactivate: nat,
    timePlay: nat,
    setDuration: nat,
    percentComplete: nat,
    secondsToMilliseconds: seq<byte> -> nat)

  /** A code chunk: the chunk being run at top level, or the body of the
      registered function with this id. */
  datatype Who = Main | Routine(id: nat)

  /** The bytecode of every code chunk; it never changes while scripts run,
      and its `Routine` keys are the function registry. */
  type Program = map<Who, seq<byte>>

  /** A code chunk's state: the stream cursor, the bound argument list
      (`_args`, absent when null) and the local slots. */
  datatype Frame = Frame(pos: nat, args: Option<seq<Operand>>, locals: seq<Operand>)

  /** An asset as the interpreter sees it: its type code, and the path state
      for a PATH asset. */
  datatype AssetState = AssetState(kind: int, path: P.Path)

  /** What a built-in method set off: a movie started, or a path ran one of
      its handlers. */
  datatype Event = MoviePlayed(asset: nat) | PathRan(asset: nat, event: P.Event)

  /** The shared state: global variables, registered assets, and the trace. */
  datatype World = World(globals: map<nat, Operand>, assets: map<nat, AssetState>, trace: seq<Event>)

  /** The interpreter's state: the frame of the running code chunk, the
      shared state, and the frames of the other chunks as they were last
      left. A chunk without a saved frame has not run yet. */
  datatype State = State(frame: Frame, world: World, saved: map<Who, Frame>)

  /** A code chunk's frame before its first run. */
  const Fresh := Frame(0, None, [])

  function FrameOf(saved: map<Who, Frame>, who: Who): Frame {
    if who in saved then saved[who] else Fresh
  }

  /** The bytecode stream of a frame, as a chunk whose charge is its
      position, so that reading past the end fails. */
  function Cursor(code: seq<byte>, f: Frame): Chunk {
    Chunk(0, |code|, f.pos, code, f.pos)
  }

  /** Bytes left before the cursor reaches the end. */
  function Left(code: seq<byte>, f: Frame): nat {
    if f.pos <= |code| then |code| - f.pos else 0
  }

  /** `Datum(*_bytecode).u.i`: the next datum, read for its integer. Only
      the cursor moves. */
  function NextInt(p: Program, who: Who, s: State): (r: Result<(int, State)>)
    requires who in p
    ensures r.Ok? ==> r.value.1 == s.(frame := s.frame.(pos := r.value.1.frame.pos))
  {
    var d :- D.ReadInt(Cursor(p[who], s.frame));
    Ok((d.0, s.(frame := s.frame.(pos := d.1.pos))))
  }

  /** `Datum(*_bytecode).u.f`, as raw bytes. */
  function NextFloat(p: Program, who: Who, s: State): (r: Result<(seq<byte>, State)>)
    requires who in p
    ensures r.Ok? ==> r.value.1 == s.(frame := s.frame.(pos := r.value.1.frame.pos))
  {
    var d :- D.ReadDatum(Cursor(p[who], s.frame));
    var bits :- D.AsFloat(d.0);
    Ok((bits, s.(frame := s.frame.(pos := d.1.pos))))
  }

  /** The `type` field of an operand, reported when a method's `self` is
      not an asset. */
  function TypeOf(v: Operand): int {
    match v
    case Empty => EMPTY_OPERAND
    case Int(kind, _) => kind
    case Float(kind, _) => kind
    case Asset(_) => ASSET_ID
  }

  // ---------------------------------------------------------------------------
  // Variables.

  /** `getVariable`: a global absent from the store reads as the default
      operand; a local slot must exist; a parameter is argument `id - 1`
      (in 32 bits) of the bound list, which must be bound. */
  function GetVariable(w: World, args: Option<seq<Operand>>, locals: seq<Operand>, id: nat, scope: int): (r: Result<Operand>)
    ensures scope == GLOBAL ==> r == Ok(if id in w.globals then w.globals[id] else Empty)
    ensures scope == LOCAL ==> (r.Ok? <==> id < |locals|)
    ensures scope == LOCAL && r.Ok? ==> r.value == locals[id]
    ensures scope == PARAMETER && args.None? ==> r == Fail(NoParameters)
    ensures scope == PARAMETER && args.Some? && 1 <= id <= |args.value| && id <= TWO_32 ==> r == Ok(args.value[id - 1])
    ensures scope !in {GLOBAL, LOCAL, PARAMETER} ==> r == Fail(UnknownScope(scope))
  {
    if scope == GLOBAL then Ok(if id in w.globals then w.globals[id] else Empty)
    else if scope == LOCAL then
      if id < |locals| then Ok(locals[id]) else Fail(IndexOutOfRange(id))
    else if scope == PARAMETER then
      var index := ToUint32(id - 1);
      match args
      case None => Fail(NoParameters)
      case Some(bound) => if index < |bound| then Ok(bound[index]) else Fail(IndexOutOfRange(index))
    else Fail(UnknownScope(scope))
  }

  /** `putVariable`: a global is stored (replacing any earlier value), a
      local slot is overwritten, and a parameter cannot be written. The
      result is the new store and the new local slots. */
  function PutVariable(w: World, locals: seq<Operand>, id: nat, scope: int, v: Operand): (r: Result<(World, seq<Operand>)>)
    ensures scope == GLOBAL ==> r == Ok((w.(globals := w.globals[id := v]), locals))
    ensures scope == LOCAL ==> (r.Ok? <==> id < |locals|)
    ensures scope == LOCAL && r.Ok? ==> r.value == (w, locals[id := v])
    ensures scope == PARAMETER ==> r == Fail(AssignToParameter)
    ensures scope !in {GLOBAL, LOCAL, PARAMETER} ==> r == Fail(UnknownScope(scope))
  {
    if scope == GLOBAL then Ok((w.(globals := w.globals[id := v]), locals))
    else if scope == LOCAL then
      if id < |locals| then Ok((w, locals[id := v])) else Fail(IndexOutOfRange(id))
    else if scope == PARAMETER then Fail(AssignToParameter)
    else Fail(UnknownScope(scope))
  }

  /** A stored variable reads back, and every other variable of any scope
      reads as before. */
  lemma PutThenGet(w: World, args: Option<seq<Operand>>, locals: seq<Operand>, id: nat, scope: int, v: Operand,
                   id': nat, scope': int)
    requires PutVariable(w, locals, id, scope, v).Ok?
    ensures var (w', locals') := PutVariable(w, locals, id, scope, v).value;
      && GetVariable(w', args, locals', id, scope) == Ok(v)
      && (id' != id || scope' != scope ==>
            GetVariable(w', args, locals', id', scope') == GetVariable(w, args, locals, id', scope'))
  {
  }

  // ---------------------------------------------------------------------------
  // Built-ins.

  /** `callBuiltInFunction`: only the effect transition is known, and it
      does nothing yet. */
  function CallBuiltInFunction(b: Builtins, w: World, id: nat, args: seq<Operand>): (r: Result<(Operand, World)>)
    ensures r.Ok? <==> id == b.effectTransition
    ensures r.Ok? ==> r.value == (Empty, w)
    ensures r.Fail? ==> r.error == UnknownFunction(id)
  {
    if id == b.effectTransition then Ok((Empty, w)) else Fail(UnknownFunction(id))
  }

  /** The type of the asset a method is called on; the null asset cannot be
      dereferenced. */
  function SelfKind(w: World, self: nat): (r: Result<int>)
    ensures r.Ok? <==> self != 0 && self in w.assets
    ensures r.Ok? ==> r.value == w.assets[self].kind
    ensures self == 0 ==> r == Fail(NullAsset)
  {
    if self == 0 then Fail(NullAsset)
    else if self !in w.assets then Fail(NoSuchAsset(self))
    else Ok(w.assets[self].kind)
  }

  function PathEvents(asset: nat, es: seq<P.Event>): (r: seq<Event>)
    ensures |r| == |es|
    ensures forall i :: 0 <= i < |es| ==> r[i] == PathRan(asset, es[i])
  {
    seq(|es|, i requires 0 <= i < |es| => PathRan(asset, es[i]))
  }

  /** `callBuiltInMethod`, with each `assert` a failure at the point the
      source checks it. */
  function CallBuiltInMethod(b: Builtins, w: World, id: nat, self: nat, args: seq<Operand>): (r: Result<(Operand, World)>)
    ensures r.Ok? ==> r.value.1.assets.Keys == w.assets.Keys && r.value.1.globals == w.globals
    ensures r.Ok? ==> self != 0 && self in w.assets
    ensures r.Ok? && id in {b.mouseActivate, b.mouseDeactivate} ==>
      w.assets[self].kind == AH.HOTSPOT && args == [] && r.value == (Empty, w)
    ensures id !in {b.mouseActivate, b.mouseDeactivate, b.timePlay, b.setDuration, b.percentComplete} ==>
      r == Fail(UnknownMethod(id))
    ensures r.Ok? ==> w.trace <= r.value.1.trace
    // timePlay: a movie records that it started, a sound is unsupported, a
    // path plays synchronously, and any other type is fatal.
    ensures id == b.timePlay && id !in {b.mouseActivate, b.mouseDeactivate} && args == [] && self != 0 && self in w.assets ==>
      var a := w.assets[self];
      && (a.kind == AH.MOVIE ==> r == Ok((Empty, w.(trace := w.trace + [MoviePlayed(self)]))))
      && (a.kind == AH.SOUND ==> r == Fail(SoundNotSupported))
      && (a.kind == AH.PATH ==> (r.Ok? <==> P.PlaySpec(a.path).Ok?))
      && (a.kind == AH.PATH && r.Ok? ==>
            r.value.0 == Empty && r.value.1.globals == w.globals
            && r.value.1.assets == w.assets[self := a.(path := P.PlaySpec(a.path).value.0)]
            && r.value.1.trace == w.trace + PathEvents(self, P.PlaySpec(a.path).value.1))
      && (a.kind !in {AH.MOVIE, AH.SOUND, AH.PATH} ==> r == Fail(UnsupportedAsset(ToUint32(a.kind))))
    // setDuration: a path's duration becomes the FLOAT64 argument in whole
    // milliseconds, and nothing else changes.
    ensures id == b.setDuration && id !in {b.mouseActivate, b.mouseDeactivate, b.timePlay} && |args| == 1 && args[0].Float?
              && self != 0 && self in w.assets && w.assets[self].kind == AH.PATH ==>
      r == Ok((Empty, w.(assets := w.assets[self := w.assets[self].(
             path := P.SetDuration(w.assets[self].path, ToUint32(b.secondsToMilliseconds(args[0].bits))))])))
    // percentComplete: a path's progress, as a LITERAL1 integer operand.
    ensures id == b.percentComplete && id !in {b.mouseActivate, b.mouseDeactivate, b.timePlay, b.setDuration} && args == []
              && self != 0 && self in w.assets && w.assets[self].kind == AH.PATH ==>
      r == Ok((Int(LITERAL1, ToInt32(ToUint32(P.PercentComplete(w.assets[self].path)))), w))
  {
    if id == b.mouseActivate || id == b.mouseDeactivate then
      var kind :- SelfKind(w, self);
      if kind != AH.HOTSPOT || |args| != 0 then Fail(AssertionFailed)
      else Ok((Empty, w))
    else if id == b.timePlay then
      if |args| != 0 then Fail(AssertionFailed)
      else
        var kind :- SelfKind(w, self);
        if kind == AH.MOVIE then Ok((Empty, w.(trace := w.trace + [MoviePlayed(self)])))
        else if kind == AH.SOUND then Fail(SoundNotSupported)
        else if kind == AH.PATH then
          var played :- P.PlaySpec(w.assets[self].path);
          Ok((Empty, w.(assets := w.assets[self := w.assets[self].(path := played.0)],
                        trace := w.trace + PathEvents(self, played.1))))
        else Fail(UnsupportedAsset(ToUint32(kind)))
    else if id == b.setDuration then
      if |args| != 1 then Fail(AssertionFailed)
      else
        var kind :- SelfKind(w, self);
        if kind != AH.PATH then Fail(AssertionFailed)
        else if !args[0].Float? then Fail(PayloadPun(TypeOf(args[0])))
        else
          var ms := ToUint32(b.secondsToMilliseconds(args[0].bits));
          Ok((Empty, w.(assets := w.assets[self := w.assets[self].(path := P.SetDuration(w.assets[self].path, ms))])))
    else if id == b.percentComplete then
      if |args| != 0 then Fail(AssertionFailed)
      else
        var kind :- SelfKind(w, self);
        if kind != AH.PATH then Fail(AssertionFailed)
        else Ok((Int(LITERAL1, ToInt32(ToUint32(P.PercentComplete(w.assets[self].path)))), w))
    else Fail(UnknownMethod(id))
  }

  /** The built-in method ids name five different methods. */
  predicate DistinctMethods(b: Builtins) {
    && b.mouseActivate != b.mouseDeactivate && b.mouseActivate != b.timePlay
    && b.mouseActivate != b.setDuration && b.mouseActivate != b.percentComplete
    && b.mouseDeactivate != b.timePlay && b.mouseDeactivate != b.setDuration
    && b.mouseDeactivate != b.percentComplete && b.timePlay != b.setDuration
    && b.timePlay != b.percentComplete && b.setDuration != b.percentComplete
  }

  /** A script that sets a path's duration, plays it, then asks for its
      progress: the play runs the path's handlers for the new duration, in
      order after the earlier trace, and the progress then reads 0. */
  lemma PathMethodsCompose(b: Builtins, w: World, self: nat, kind: int, bits: seq<byte>)
    requires DistinctMethods(b)
    requires self != 0 && self in w.assets && w.assets[self].kind == AH.PATH && w.assets[self].path.stepRate != 0
    ensures
      var p := w.assets[self].path;
      var ms := ToUint32(b.secondsToMilliseconds(bits));
      var timed := CallBuiltInMethod(b, w, b.setDuration, self, [Float(kind, bits)]);
      && timed.Ok?
      && var played := CallBuiltInMethod(b, timed.value.1, b.timePlay, self, []);
      && played.Ok?
      && played.value.1.assets[self].path == p.(duration := ms, progress := 0)
      && played.value.1.trace ==
           w.trace + PathEvents(self, P.Trace(p.hasStepHandler, p.hasEndHandler, P.TotalSteps(ms, p.stepRate)))
      && CallBuiltInMethod(b, played.value.1, b.percentComplete, self, []) == Ok((Int(LITERAL1, 0), played.value.1))
  {
  }

  // ---------------------------------------------------------------------------
  // Statements.

  /** What running statements can do to the shared state: no asset is added
      or removed, and handler runs are only ever appended to the trace. */
  predicate Extends(w: World, w': World) {
    w'.assets.Keys == w.assets.Keys && w.trace <= w'.trace
  }

  /** `executeNextStatement`: the statement class, then its operands.
      `fuel` bounds the nesting of calls and the restarts of a loop whose
      cursor a nested call rewound; running out of it is `OutOfFuel`. */
  function Statement(b: Builtins, p: Program, fuel: nat, who: Who, s: State): (r: Result<(Operand, State)>)
    requires who in p
    ensures r.Ok? ==> Extends(s.world, r.value.1.world)
    ensures s.frame.pos >= |p[who]| ==> r == Fail(Overread)
    ensures NextInt(p, who, s).Ok? && NextInt(p, who, s).value.0 !in InstructionTypes
        ==> r == Fail(UnknownInstruction(NextInt(p, who, s).value.0))
    decreases fuel, 4, 0
  {
    var ty :- NextInt(p, who, s);
    if ty.0 == EMPTY then Ok((Empty, ty.1))
    else if ty.0 == FUNCTION_CALL then FunctionCall(b, p, fuel, who, ty.1)
    else if ty.0 == OPERAND then ReadOperand(p, who, ty.1)
    else if ty.0 == VARIABLE_REF then VariableRef(p, who, ty.1)
    else Fail(UnknownInstruction(ty.0))
  }

  /** The VARIABLE_REF class: a variable id, then its scope. */
  function VariableRef(p: Program, who: Who, s: State): (r: Result<(Operand, State)>)
    requires who in p
    ensures r.Ok? ==> Extends(s.world, r.value.1.world)
    ensures r.Ok? ==> r.value.1 == s.(frame := s.frame.(pos := r.value.1.frame.pos))
  {
    var id :- NextInt(p, who, s);
    var scope :- NextInt(p, who, id.1);
    var v :- GetVariable(s.world, s.frame.args, s.frame.locals, ToUint32(id.0), scope.0);
    Ok((v, scope.1))
  }

  /** The FUNCTION_CALL class: an opcode, then its operands. Opcodes other
      than assignment, routine call and method call have no case. */
  function FunctionCall(b: Builtins, p: Program, fuel: nat, who: Who, s: State): (r: Result<(Operand, State)>)
    requires who in p
    ensures r.Ok? ==> Extends(s.world, r.value.1.world)
    ensures fuel == 0 ==> r.Fail?
    ensures fuel > 0 && NextInt(p, who, s).Ok?
            && NextInt(p, who, s).value.0 !in {ASSIGN_VARIABLE, CALL_ROUTINE, CALL_METHOD}
        ==> r == Fail(UnknownOpcode(NextInt(p, who, s).value.0))
    decreases fuel, 3, 0
  {
    var op :- NextInt(p, who, s);
    if fuel == 0 then Fail(OutOfFuel)
    else if op.0 == ASSIGN_VARIABLE then Assign(b, p, fuel, who, op.1)
    else if op.0 == CALL_ROUTINE then CallRoutine(b, p, fuel, who, op.1)
    else if op.0 == CALL_METHOD then CallMethod(b, p, fuel, who, op.1)
    else Fail(UnknownOpcode(op.0))
  }

  /** ASSIGN_VARIABLE: a variable id, its scope, and the statement whose
      value is stored. The assignment itself yields the default operand. */
  function Assign(b: Builtins, p: Program, fuel: nat, who: Who, s: State): (r: Result<(Operand, State)>)
    requires who in p && fuel > 0
    ensures r.Ok? ==> Extends(s.world, r.value.1.world)
    ensures r.Ok? ==> r.value.0 == Empty
    decreases fuel, 2, 0
  {
    var id :- NextInt(p, who, s);
    var scope :- NextInt(p, who, id.1);
    var v :- Statement(b, p, fuel - 1, who, scope.1);
    var put :- PutVariable(v.1.world, v.1.frame.locals, ToUint32(id.0), scope.0, v.0);
    Ok((Empty, State(v.1.frame.(locals := put.1), put.0, v.1.saved)))
  }

  /** CALL_ROUTINE: a function id, an argument count, the arguments. A
      registered function runs its own code chunk, with the caller's frame
      saved until it returns; any other id is a built-in function. */
  function CallRoutine(b: Builtins, p: Program, fuel: nat, who: Who, s: State): (r: Result<(Operand, State)>)
    requires who in p && fuel > 0
    ensures r.Ok? ==> Extends(s.world, r.value.1.world)
    decreases fuel, 2, 0
  {
    var fn :- NextInt(p, who, s);
    var count :- NextInt(p, who, fn.1);
    var args :- Args(b, p, fuel, who, count.1, ToUint32(count.0));
    var id := ToUint32(fn.0);
    if Routine(id) in p then
      var saved := args.1.saved[who := args.1.frame];
      var called :- Execute(b, p, fuel - 1, Routine(id), State(FrameOf(saved, Routine(id)), args.1.world, saved), Some(args.0));
      var back := called.1.saved[Routine(id) := called.1.frame];
      Ok((called.0, State(FrameOf(back, who), called.1.world, back)))
    else
      var called :- CallBuiltInFunction(b, args.1.world, id, args.0);
      Ok((called.0, args.1.(world := called.1)))
  }

  /** CALL_METHOD: a method id, an argument count, the `self` statement,
      which must yield an asset, then the arguments. */
  function CallMethod(b: Builtins, p: Program, fuel: nat, who: Who, s: State): (r: Result<(Operand, State)>)
    requires who in p && fuel > 0
    ensures r.Ok? ==> Extends(s.world, r.value.1.world)
    decreases fuel, 2, 0
  {
    var meth :- NextInt(p, who, s);
    var count :- NextInt(p, who, meth.1);
    var self :- Statement(b, p, fuel - 1, who, count.1);
    if !self.0.Asset? then Fail(NotAnAsset(TypeOf(self.0)))
    else
      var args :- Args(b, p, fuel, who, self.1, ToUint32(count.0));
      var called :- CallBuiltInMethod(b, args.1.world, ToUint32(meth.0), self.0.id, args.0);
      Ok((called.0, args.1.(world := called.1)))
  }

  /** `n` argument statements, evaluated left to right. */
  function Args(b: Builtins, p: Program, fuel: nat, who: Who, s: State, n: nat): (r: Result<(seq<Operand>, State)>)
    requires who in p && fuel > 0
    ensures r.Ok? ==> |r.value.0| == n
    ensures r.Ok? ==> Extends(s.world, r.value.1.world)
    decreases fuel, 1, n
  {
    if n == 0 then Ok(([], s))
    else
      var v :- Statement(b, p, fuel - 1, who, s);
      var rest :- Args(b, p, fuel, who, v.1, n - 1);
      Ok(([v.0] + rest.0, rest.1))
  }

  /** The OPERAND class: an operand kind, then its value. An asset id of 0
      is the null asset; any other id must name a registered asset. */
  function ReadOperand(p: Program, who: Who, s: State): (r: Result<(Operand, State)>)
    requires who in p
    ensures r.Ok? ==> r.value.1.world == s.world && r.value.1.saved == s.saved
    ensures r.Ok? && r.value.0.Asset? ==> r.value.0.id == 0 || r.value.0.id in s.world.assets
    ensures NextInt(p, who, s).Ok?
            && NextInt(p, who, s).value.0 !in {ASSET_ID, LITERAL1, LITERAL2, DOLLAR_SIGN_VARIABLE, FLOAT1, FLOAT2}
        ==> r == Fail(UnknownOperand(NextInt(p, who, s).value.0))
  {
    var kind :- NextInt(p, who, s);
    if kind.0 == ASSET_ID then
      var id :- NextInt(p, who, kind.1);
      var a := ToUint32(id.0);
      if a == 0 then Ok((Asset(0), id.1))
      else if a !in s.world.assets then Fail(NoSuchAsset(a))
      else Ok((Asset(a), id.1))
    else if kind.0 == LITERAL1 || kind.0 == LITERAL2 || kind.0 == DOLLAR_SIGN_VARIABLE then
      var i :- NextInt(p, who, kind.1);
      Ok((Int(kind.0, i.0), i.1))
    else if kind.0 == FLOAT1 || kind.0 == FLOAT2 then
      var f :- NextFloat(p, who, kind.1);
      Ok((Float(kind.0, f.0), f.1))
    else Fail(UnknownOperand(kind.0))
  }

  /** `execute`: bind the argument list as given (`None` for the null
      list that a handler is started with), run statements until the cursor
      reaches the end, then rewind the cursor and unbind the arguments. The
      local slots are left as the run left them. */
  function Execute(b: Builtins, p: Program, fuel: nat, who: Who, s: State, args: Option<seq<Operand>>): (r: Result<(Operand, State)>)
    requires who in p
    ensures r.Ok? ==> r.value.1.frame.pos == 0 && r.value.1.frame.args.None?
    ensures r.Ok? ==> Extends(s.world, r.value.1.world)
    decreases fuel, 6, 0
  {
    var run :- Run(b, p, fuel, who, s.(frame := s.frame.(args := args)), Empty);
    Ok((run.0, run.1.(frame := run.1.frame.(pos := 0, args := None))))
  }

  /** The loop of `execute`, yielding the value of the last statement. */
  function Run(b: Builtins, p: Program, fuel: nat, who: Who, s: State, last: Operand): (r: Result<(Operand, State)>)
    requires who in p
    ensures r.Ok? ==> r.value.1.frame.pos >= |p[who]|
    ensures r.Ok? ==> Extends(s.world, r.value.1.world)
    decreases fuel, 5, Left(p[who], s.frame)
  {
    if s.frame.pos >= |p[who]| then Ok((last, s))
    else
      var next :- Statement(b, p, fuel, who, s);
      if next.1.frame.pos > s.frame.pos then Run(b, p, fuel, who, next.1, next.0)
      else if fuel == 0 then Fail(OutOfFuel)
      else Run(b, p, fuel - 1, who, next.1, next.0)
  }

  // ---------------------------------------------------------------------------
  // The reference semantics: statements as a tree, evaluated without a
  // cursor, and their bytecode.

  /** A statement the interpreter can run, as a tree. */
  datatype Expr =
    | Nop
    | Assignment(id: nat, scope: int, rhs: Expr)
    | RoutineCall(fn: nat, args: seq<Expr>)
    | MethodCall(meth: nat, self: Expr, args: seq<Expr>)
    | AssetRef(asset: nat)
    | Literal(kind: int, value: int)
    | FloatLiteral(kind: int, bits: seq<byte>)
    | VarRef(id: nat, scope: int)

  /** The values each field of a statement can carry in its bytecode. */
  predicate WF(e: Expr)
    decreases e
  {
    match e
    case Nop => true
    case Assignment(id, scope, rhs) => id < TWO_32 && IsI32(scope) && WF(rhs)
    case RoutineCall(fn, args) => fn < TWO_32 && |args| < TWO_31 && AllWF(args)
    case MethodCall(meth, self, args) => meth < TWO_32 && |args| < TWO_31 && WF(self) && AllWF(args)
    case AssetRef(asset) => asset < TWO_32
    case Literal(kind, value) => kind in {LITERAL1, LITERAL2, DOLLAR_SIGN_VARIABLE} && IsI32(value)
    case FloatLiteral(kind, bits) => kind in {FLOAT1, FLOAT2} && |bits| == 8
    case VarRef(id, scope) => id < TWO_32 && IsI32(scope)
  }

  predicate AllWF(es: seq<Expr>)
    decreases es
  {
    |es| > 0 ==> WF(es[0]) && AllWF(es[1..])
  }

  /** No call in the tree reaches a registered function of `p`. */
  predicate BuiltinOnly(p: Program, e: Expr)
    decreases e
  {
    match e
    case Assignment(_, _, rhs) => BuiltinOnly(p, rhs)
    case RoutineCall(fn, args) => Routine(fn) !in p && AllBuiltinOnly(p, args)
    case MethodCall(_, self, args) => BuiltinOnly(p, self) && AllBuiltinOnly(p, args)
    case _ => true
  }

  predicate AllBuiltinOnly(p: Program, es: seq<Expr>)
    decreases es
  {
    |es| > 0 ==> BuiltinOnly(p, es[0]) && AllBuiltinOnly(p, es[1..])
  }

  /** The nesting of calls and assignments, which bounds the fuel needed. */
  function Depth(e: Expr): nat
    decreases e
  {
    match e
    case Assignment(_, _, rhs) => 1 + Depth(rhs)
    case RoutineCall(_, args) => 1 + MaxDepth(args)
    case MethodCall(_, self, args) => 1 + Max(Depth(self), MaxDepth(args))
    case _ => 0
  }

  function MaxDepth(es: seq<Expr>): nat
    decreases es
  {
    if |es| == 0 then 0 else Max(Depth(es[0]), MaxDepth(es[1..]))
  }

  function Max(a: nat, b: nat): nat {
    if a < b then b else a
  }

  /** The reference evaluator, over the shared state, the bound arguments
      and the local slots: operands are values, a variable reference reads
      the variable, an assignment evaluates its right-hand side and stores
      it, and a call evaluates its arguments left to right and runs the
      built-in. */
  function Eval(b: Builtins, w: World, args: Option<seq<Operand>>, locals: seq<Operand>, e: Expr)
    : (r: Result<(Operand, World, seq<Operand>)>)
    decreases e
  {
    match e
    case Nop => Ok((Empty, w, locals))
    case Assignment(id, scope, rhs) =>
      var v :- Eval(b, w, args, locals, rhs);
      var put :- PutVariable(v.1, v.2, id, scope, v.0);
      Ok((Empty, put.0, put.1))
    case RoutineCall(fn, es) =>
      var vs :- EvalArgs(b, w, args, locals, es);
      var called :- CallBuiltInFunction(b, vs.1, fn, vs.0);
      Ok((called.0, called.1, vs.2))
    case MethodCall(meth, self, es) =>
      var s :- Eval(b, w, args, locals, self);
      if !s.0.Asset? then Fail(NotAnAsset(TypeOf(s.0)))
      else
        var vs :- EvalArgs(b, s.1, args, s.2, es);
        var called :- CallBuiltInMethod(b, vs.1, meth, s.0.id, vs.0);
        Ok((called.0, called.1, vs.2))
    case AssetRef(a) =>
      if a == 0 then Ok((Asset(0), w, locals))
      else if a !in w.assets then Fail(NoSuchAsset(a))
      else Ok((Asset(a), w, locals))
    case Literal(kind, value) => Ok((Int(kind, value), w, locals))
    case FloatLiteral(kind, bits) => Ok((Float(kind, bits), w, locals))
    case VarRef(id, scope) =>
      var v :- GetVariable(w, args, locals, id, scope);
      Ok((v, w, locals))
  }

  function EvalArgs(b: Builtins, w: World, args: Option<seq<Operand>>, locals: seq<Operand>, es: seq<Expr>)
    : (r: Result<(seq<Operand>, World, seq<Operand>)>)
    ensures r.Ok? ==> |r.value.0| == |es|
    decreases es
  {
    if |es| == 0 then Ok(([], w, locals))
    else
      var v :- Eval(b, w, args, locals, es[0]);
      var rest :- EvalArgs(b, v.1, args, v.2, es[1..]);
      Ok(([v.0] + rest.0, rest.1, rest.2))
  }

  /** A statement sequence run in order, yielding the last value. */
  function EvalSeq(b: Builtins, w: World, args: Option<seq<Operand>>, locals: seq<Operand>, es: seq<Expr>, last: Operand)
    : (r: Result<(Operand, World, seq<Operand>)>)
    decreases es
  {
    if |es| == 0 then Ok((last, w, locals))
    else
      var v :- Eval(b, w, args, locals, es[0]);
      EvalSeq(b, v.1, args, v.2, es[1..], v.0)
  }

  /** A 32-bit integer datum. */
  function Num(x: int): (s: seq<byte>)
    requires IsI32(x)
    ensures |s| == 6
  {
    D.EncodeInt(D.UINT32_1, x)
  }

  /** An unsigned 32-bit id, stored as the same bits. */
  function Id(x: nat): (s: seq<byte>)
    requires x < TWO_32
    ensures |s| == 6
  {
    Num(ToInt32(x))
  }

  function FloatDatum(bits: seq<byte>): (s: seq<byte>)
    requires |bits| == 8
    ensures |s| == 10
  {
    D.Encode(D.Datum(D.FLOAT64_1, D.FloatPayload(bits)))
  }

  /** The bytecode of a statement: its class, then the fields the
      interpreter reads, in the order it reads them. */
  function Encode(e: Expr): (s: seq<byte>)
    requires WF(e)
    ensures |s| >= 6
    decreases e
  {
    match e
    case Nop => Num(EMPTY)
    case Assignment(id, scope, rhs) =>
      Num(FUNCTION_CALL) + (Num(ASSIGN_VARIABLE) + (Id(id) + (Num(scope) + Encode(rhs))))
    case RoutineCall(fn, args) =>
      Num(FUNCTION_CALL) + (Num(CALL_ROUTINE) + (Id(fn) + (Num(|args|) + EncodeAll(args))))
    case MethodCall(meth, self, args) =>
      Num(FUNCTION_CALL) + (Num(CALL_METHOD) + (Id(meth) + (Num(|args|) + (Encode(self) + EncodeAll(args)))))
    case AssetRef(asset) => Num(OPERAND) + (Num(ASSET_ID) + Id(asset))
    case Literal(kind, value) => Num(OPERAND) + (Num(kind) + Num(value))
    case FloatLiteral(kind, bits) => Num(OPERAND) + (Num(kind) + FloatDatum(bits))
    case VarRef(id, scope) => Num(VARIABLE_REF) + (Id(id) + Num(scope))
  }

  function EncodeAll(es: seq<Expr>): seq<byte>
    requires AllWF(es)
    decreases es
  {
    if |es| == 0 then [] else Encode(es[0]) + EncodeAll(es[1..])
  }


  // ---------------------------------------------------------------------------
  // The interpreter runs the bytecode of a tree as the tree evaluates.

  /** `f` with its cursor `n` bytes further on. */
  function Fwd(f: Frame, n: nat): Frame {
    f.(pos := f.pos + n)
  }

  /** The outcome of running a statement of `n` bytes, in frame `f`, whose
      tree evaluates to `r`; the saved frames are untouched. */
  function Lift(f: Frame, sv: map<Who, Frame>, n: nat, r: Result<(Operand, World, seq<Operand>)>): Result<(Operand, State)> {
    match r
    case Ok(t) => Ok((t.0, State(f.(pos := f.pos + n, locals := t.2), t.1, sv)))
    case Fail(e) => Fail(e)
  }

  function LiftArgs(f: Frame, sv: map<Who, Frame>, n: nat, r: Result<(seq<Operand>, World, seq<Operand>)>)
    : Result<(seq<Operand>, State)>
  {
    match r
    case Ok(t) => Ok((t.0, State(f.(pos := f.pos + n, locals := t.2), t.1, sv)))
    case Fail(e) => Fail(e)
  }

  /** A held 32-bit datum is read as its value. */
  lemma NextAt(p: Program, who: Who, f: Frame, w: World, sv: map<Who, Frame>, k: nat, x: int, rest: seq<byte>)
    requires who in p && IsI32(x)
    requires HoldsAt(Cursor(p[who], Fwd(f, k)), Num(x) + rest)
    ensures NextInt(p, who, State(Fwd(f, k), w, sv)) == Ok((x, State(Fwd(f, k + 6), w, sv)))
    ensures HoldsAt(Cursor(p[who], Fwd(f, k + 6)), rest)
  {
    var c := Cursor(p[who], Fwd(f, k));
    HoldsAtSplit(c, Num(x), rest);
    D.IntRoundTrip(D.UINT32_1, x, c);
    assert Skip(c, 6) == Cursor(p[who], Fwd(f, k + 6));
  }

  /** The same, at the start of a statement. */
  lemma FirstAt(p: Program, who: Who, f: Frame, w: World, sv: map<Who, Frame>, x: int, rest: seq<byte>)
    requires who in p && IsI32(x)
    requires HoldsAt(Cursor(p[who], f), Num(x) + rest)
    ensures NextInt(p, who, State(f, w, sv)) == Ok((x, State(Fwd(f, 6), w, sv)))
    ensures HoldsAt(Cursor(p[who], Fwd(f, 6)), rest)
  {
    assert Fwd(f, 0) == f;
    NextAt(p, who, f, w, sv, 0, x, rest);
  }

  /** The same, for the last datum of a statement. */
  lemma LastAt(p: Program, who: Who, f: Frame, w: World, sv: map<Who, Frame>, k: nat, x: int)
    requires who in p && IsI32(x)
    requires HoldsAt(Cursor(p[who], Fwd(f, k)), Num(x))
    ensures NextInt(p, who, State(Fwd(f, k), w, sv)) == Ok((x, State(Fwd(f, k + 6), w, sv)))
  {
    assert Num(x) + [] == Num(x);
    NextAt(p, who, f, w, sv, k, x, []);
  }

  /** A held id is read back as the same unsigned value. */
  lemma IdAt(p: Program, who: Who, f: Frame, w: World, sv: map<Who, Frame>, k: nat, x: nat, rest: seq<byte>)
    requires who in p && x < TWO_32
    requires HoldsAt(Cursor(p[who], Fwd(f, k)), Id(x) + rest)
    ensures NextInt(p, who, State(Fwd(f, k), w, sv)) == Ok((ToInt32(x), State(Fwd(f, k + 6), w, sv)))
    ensures ToUint32(ToInt32(x)) == x
    ensures HoldsAt(Cursor(p[who], Fwd(f, k + 6)), rest)
  {
    NextAt(p, who, f, w, sv, k, ToInt32(x), rest);
    Uint32RoundTrip(x);
  }

  /** A held FLOAT64 datum is read as its bytes. */
  lemma FloatAt(p: Program, who: Who, f: Frame, w: World, sv: map<Who, Frame>, k: nat, bits: seq<byte>)
    requires who in p && |bits| == 8
    requires HoldsAt(Cursor(p[who], Fwd(f, k)), FloatDatum(bits))
    ensures NextFloat(p, who, State(Fwd(f, k), w, sv)) == Ok((bits, State(Fwd(f, k + 10), w, sv)))
  {
    var c := Cursor(p[who], Fwd(f, k));
    var d := D.Datum(D.FLOAT64_1, D.FloatPayload(bits));
    assert D.Shaped(d);
    D.RoundTrip(d, c);
    assert Skip(c, 10) == Cursor(p[who], Fwd(f, k + 10));
  }

  lemma StatementIsEmpty(b: Builtins, p: Program, fuel: nat, who: Who, s: State, s1: State)
    requires who in p
    requires NextInt(p, who, s) == Ok((EMPTY, s1))
    ensures Statement(b, p, fuel, who, s) == Ok((Empty, s1))
  {
  }

  lemma StatementIsCall(b: Builtins, p: Program, fuel: nat, who: Who, s: State, s1: State)
    requires who in p
    requires NextInt(p, who, s) == Ok((FUNCTION_CALL, s1))
    ensures Statement(b, p, fuel, who, s) == FunctionCall(b, p, fuel, who, s1)
  {
  }

  lemma StatementIsOperand(b: Builtins, p: Program, fuel: nat, who: Who, s: State, s1: State)
    requires who in p
    requires NextInt(p, who, s) == Ok((OPERAND, s1))
    ensures Statement(b, p, fuel, who, s) == ReadOperand(p, who, s1)
  {
  }

  lemma StatementIsVariableRef(b: Builtins, p: Program, fuel: nat, who: Who, s: State, s1: State)
    requires who in p
    requires NextInt(p, who, s) == Ok((VARIABLE_REF, s1))
    ensures Statement(b, p, fuel, who, s) == VariableRef(p, who, s1)
  {
  }

  lemma FunctionCallIs(b: Builtins, p: Program, fuel: nat, who: Who, s: State, op: int, s1: State)
    requires who in p && fuel > 0
    requires NextInt(p, who, s) == Ok((op, s1))
    ensures op == ASSIGN_VARIABLE ==> FunctionCall(b, p, fuel, who, s) == Assign(b, p, fuel, who, s1)
    ensures op == CALL_ROUTINE ==> FunctionCall(b, p, fuel, who, s) == CallRoutine(b, p, fuel, who, s1)
    ensures op == CALL_METHOD ==> FunctionCall(b, p, fuel, who, s) == CallMethod(b, p, fuel, who, s1)
  {
  }

  lemma OperandIsAsset(p: Program, who: Who, s: State, s1: State, x: int, s2: State)
    requires who in p
    requires NextInt(p, who, s) == Ok((ASSET_ID, s1))
    requires NextInt(p, who, s1) == Ok((x, s2))
    ensures ReadOperand(p, who, s) ==
      var a := ToUint32(x);
      if a == 0 then Ok((Asset(0), s2))
      else if a !in s.world.assets then Fail(NoSuchAsset(a))
      else Ok((Asset(a), s2))
  {
  }

  lemma OperandIsLiteral(p: Program, who: Who, s: State, kind: int, s1: State, x: int, s2: State)
    requires who in p && kind in {LITERAL1, LITERAL2, DOLLAR_SIGN_VARIABLE}
    requires NextInt(p, who, s) == Ok((kind, s1))
    requires NextInt(p, who, s1) == Ok((x, s2))
    ensures ReadOperand(p, who, s) == Ok((Int(kind, x), s2))
  {
  }

  lemma OperandIsFloat(p: Program, who: Who, s: State, kind: int, s1: State, bits: seq<byte>, s2: State)
    requires who in p && kind in {FLOAT1, FLOAT2}
    requires NextInt(p, who, s) == Ok((kind, s1))
    requires NextFloat(p, who, s1) == Ok((bits, s2))
    ensures ReadOperand(p, who, s) == Ok((Float(kind, bits), s2))
  {
  }

  lemma VariableRefIs(p: Program, who: Who, s: State, id: int, s1: State, scope: int, s2: State)
    requires who in p
    requires NextInt(p, who, s) == Ok((id, s1))
    requires NextInt(p, who, s1) == Ok((scope, s2))
    ensures VariableRef(p, who, s) ==
      match GetVariable(s.world, s.frame.args, s.frame.locals, ToUint32(id), scope)
      case Ok(v) => Ok((v, s2))
      case Fail(e) => Fail(e)
  {
  }

  lemma NopCase(b: Builtins, p: Program, fuel: nat, who: Who, f: Frame, w: World, sv: map<Who, Frame>)
    requires who in p
    requires HoldsAt(Cursor(p[who], f), Num(EMPTY))
    ensures Statement(b, p, fuel, who, State(f, w, sv)) == Ok((Empty, State(Fwd(f, 6), w, sv)))
  {
    assert Num(EMPTY) + [] == Num(EMPTY);
    FirstAt(p, who, f, w, sv, EMPTY, []);
    StatementIsEmpty(b, p, fuel, who, State(f, w, sv), State(Fwd(f, 6), w, sv));
  }

  lemma LiteralCase(b: Builtins, p: Program, fuel: nat, who: Who, f: Frame, w: World, sv: map<Who, Frame>, kind: int, value: int)
    requires who in p && WF(Literal(kind, value))
    requires HoldsAt(Cursor(p[who], f), Num(OPERAND) + (Num(kind) + Num(value)))
    ensures Statement(b, p, fuel, who, State(f, w, sv)) == Ok((Int(kind, value), State(Fwd(f, 18), w, sv)))
  {
    FirstAt(p, who, f, w, sv, OPERAND, Num(kind) + Num(value));
    NextAt(p, who, f, w, sv, 6, kind, Num(value));
    LastAt(p, who, f, w, sv, 12, value);
    StatementIsOperand(b, p, fuel, who, State(f, w, sv), State(Fwd(f, 6), w, sv));
    OperandIsLiteral(p, who, State(Fwd(f, 6), w, sv), kind, State(Fwd(f, 12), w, sv), value, State(Fwd(f, 18), w, sv));
  }

  lemma FloatCase(b: Builtins, p: Program, fuel: nat, who: Who, f: Frame, w: World, sv: map<Who, Frame>, kind: int, bits: seq<byte>)
    requires who in p && WF(FloatLiteral(kind, bits))
    requires HoldsAt(Cursor(p[who], f), Num(OPERAND) + (Num(kind) + FloatDatum(bits)))
    ensures Statement(b, p, fuel, who, State(f, w, sv)) == Ok((Float(kind, bits), State(Fwd(f, 22), w, sv)))
  {
    FirstAt(p, who, f, w, sv, OPERAND, Num(kind) + FloatDatum(bits));
    NextAt(p, who, f, w, sv, 6, kind, FloatDatum(bits));
    FloatAt(p, who, f, w, sv, 12, bits);
    StatementIsOperand(b, p, fuel, who, State(f, w, sv), State(Fwd(f, 6), w, sv));
    OperandIsFloat(p, who, State(Fwd(f, 6), w, sv), kind, State(Fwd(f, 12), w, sv), bits, State(Fwd(f, 22), w, sv));
  }

  lemma AssetCase(b: Builtins, p: Program, fuel: nat, who: Who, f: Frame, w: World, sv: map<Who, Frame>, asset: nat)
    requires who in p && asset < TWO_32
    requires HoldsAt(Cursor(p[who], f), Num(OPERAND) + (Num(ASSET_ID) + Id(asset)))
    ensures Statement(b, p, fuel, who, State(f, w, sv)) ==
      if asset == 0 then Ok((Asset(0), State(Fwd(f, 18), w, sv)))
      else if asset !in w.assets then Fail(NoSuchAsset(asset))
      else Ok((Asset(asset), State(Fwd(f, 18), w, sv)))
  {
    FirstAt(p, who, f, w, sv, OPERAND, Num(ASSET_ID) + Id(asset));
    StatementIsOperand(b, p, fuel, who, State(f, w, sv), State(Fwd(f, 6), w, sv));
    AssetOperand(p, who, f, w, sv, asset);
  }

  lemma AssetOperand(p: Program, who: Who, f: Frame, w: World, sv: map<Who, Frame>, asset: nat)
    requires who in p && asset < TWO_32
    requires HoldsAt(Cursor(p[who], Fwd(f, 6)), Num(ASSET_ID) + Id(asset))
    ensures ReadOperand(p, who, State(Fwd(f, 6), w, sv)) ==
      if asset == 0 then Ok((Asset(0), State(Fwd(f, 18), w, sv)))
      else if asset !in w.assets then Fail(NoSuchAsset(asset))
      else Ok((Asset(asset), State(Fwd(f, 18), w, sv)))
  {
    NextAt(p, who, f, w, sv, 6, ASSET_ID, Id(asset));
    assert Id(asset) + [] == Id(asset);
    IdAt(p, who, f, w, sv, 12, asset, []);
    OperandIsAsset(p, who, State(Fwd(f, 6), w, sv), State(Fwd(f, 12), w, sv), ToInt32(asset), State(Fwd(f, 18), w, sv));
  }

  lemma VarRefCase(b: Builtins, p: Program, fuel: nat, who: Who, f: Frame, w: World, sv: map<Who, Frame>, id: nat, scope: int)
    requires who in p && id < TWO_32 && IsI32(scope)
    requires HoldsAt(Cursor(p[who], f), Num(VARIABLE_REF) + (Id(id) + Num(scope)))
    ensures Statement(b, p, fuel, who, State(f, w, sv)) ==
      match GetVariable(w, f.args, f.locals, id, scope)
      case Ok(v) => Ok((v, State(Fwd(f, 18), w, sv)))
      case Fail(e) => Fail(e)
  {
    FirstAt(p, who, f, w, sv, VARIABLE_REF, Id(id) + Num(scope));
    StatementIsVariableRef(b, p, fuel, who, State(f, w, sv), State(Fwd(f, 6), w, sv));
    VarRefOperands(p, who, f, w, sv, id, scope);
  }

  lemma VarRefOperands(p: Program, who: Who, f: Frame, w: World, sv: map<Who, Frame>, id: nat, scope: int)
    requires who in p && id < TWO_32 && IsI32(scope)
    requires HoldsAt(Cursor(p[who], Fwd(f, 6)), Id(id) + Num(scope))
    ensures VariableRef(p, who, State(Fwd(f, 6), w, sv)) ==
      match GetVariable(w, f.args, f.locals, id, scope)
      case Ok(v) => Ok((v, State(Fwd(f, 18), w, sv)))
      case Fail(e) => Fail(e)
  {
    IdAt(p, who, f, w, sv, 6, id, Num(scope));
    LastAt(p, who, f, w, sv, 12, scope);
    VariableRefIs(p, who, State(Fwd(f, 6), w, sv), ToInt32(id), State(Fwd(f, 12), w, sv), scope, State(Fwd(f, 18), w, sv));
  }

  lemma ArgsNil(b: Builtins, p: Program, fuel: nat, who: Who, f: Frame, w: World, sv: map<Who, Frame>)
    requires who in p && fuel > 0
    ensures Args(b, p, fuel, who, State(f, w, sv), 0) == LiftArgs(f, sv, 0, EvalArgs(b, w, f.args, f.locals, []))
  {
    assert f.(pos := f.pos + 0, locals := f.locals) == f;
  }

  lemma ArgsCons(b: Builtins, p: Program, fuel: nat, who: Who, s: State, n: nat, v: Operand, s1: State)
    requires who in p && fuel > 0 && n > 0
    requires Statement(b, p, fuel - 1, who, s) == Ok((v, s1))
    ensures Args(b, p, fuel, who, s, n) ==
      match Args(b, p, fuel, who, s1, n - 1)
      case Ok(t) => Ok(([v] + t.0, t.1))
      case Fail(e) => Fail(e)
  {
  }

  lemma ArgsFail(b: Builtins, p: Program, fuel: nat, who: Who, s: State, n: nat)
    requires who in p && fuel > 0 && n > 0
    requires Statement(b, p, fuel - 1, who, s).Fail?
    ensures Args(b, p, fuel, who, s, n) == Fail(Statement(b, p, fuel - 1, who, s).error)
  {
  }

  lemma EvalArgsCons(b: Builtins, w: World, args: Option<seq<Operand>>, locals: seq<Operand>, es: seq<Expr>,
                     v: Operand, w1: World, l1: seq<Operand>)
    requires |es| > 0 && Eval(b, w, args, locals, es[0]) == Ok((v, w1, l1))
    ensures EvalArgs(b, w, args, locals, es) ==
      match EvalArgs(b, w1, args, l1, es[1..])
      case Ok(r) => Ok(([v] + r.0, r.1, r.2))
      case Fail(e) => Fail(e)
  {
  }

  lemma EvalArgsFail(b: Builtins, w: World, args: Option<seq<Operand>>, locals: seq<Operand>, es: seq<Expr>)
    requires |es| > 0 && Eval(b, w, args, locals, es[0]).Fail?
    ensures EvalArgs(b, w, args, locals, es) == Fail(Eval(b, w, args, locals, es[0]).error)
  {
  }

  /** The encoded trees run one by one. */
  lemma {:induction false} ArgsMatch(b: Builtins, p: Program, fuel: nat, who: Who, f: Frame, w: World, sv: map<Who, Frame>,
                                     es: seq<Expr>)
    requires who in p
    requires AllWF(es) && AllBuiltinOnly(p, es) && fuel > 1 + MaxDepth(es)
    requires HoldsAt(Cursor(p[who], f), EncodeAll(es))
    ensures Args(b, p, fuel, who, State(f, w, sv), |es|) ==
      LiftArgs(f, sv, |EncodeAll(es)|, EvalArgs(b, w, f.args, f.locals, es))
    decreases es, 1
  {
    hide Statement, FunctionCall, Assign, CallRoutine, CallMethod, Args, ReadOperand, VariableRef, Execute, Run,
         NextInt, NextFloat, CallBuiltInMethod, CallBuiltInFunction, Eval, EvalArgs;
    if |es| == 0 {
      ArgsNil(b, p, fuel, who, f, w, sv);
    } else {
      HoldsAtSplit(Cursor(p[who], f), Encode(es[0]), EncodeAll(es[1..]));
      StatementMatches(b, p, fuel - 1, who, f, w, sv, es[0]);
      var first := Eval(b, w, f.args, f.locals, es[0]);
      if first.Fail? {
        ArgsFail(b, p, fuel, who, State(f, w, sv), |es|);
        EvalArgsFail(b, w, f.args, f.locals, es);
      } else {
        ArgsOk(b, p, fuel, who, f, w, sv, es, first.value.0, f.(pos := f.pos + |Encode(es[0])|, locals := first.value.2), first.value.1);
      }
    }
  }

  /** The first argument ran; the rest run as their trees evaluate. */
  lemma {:induction false} ArgsOk(b: Builtins, p: Program, fuel: nat, who: Who, f: Frame, w: World, sv: map<Who, Frame>,
                                  es: seq<Expr>, v: Operand, f1: Frame, w1: World)
    requires who in p && |es| > 0
    requires AllWF(es) && AllBuiltinOnly(p, es[1..]) && fuel > 1 + MaxDepth(es[1..])
    requires f1.pos == f.pos + |Encode(es[0])| && f1.args == f.args
    requires Eval(b, w, f.args, f.locals, es[0]) == Ok((v, w1, f1.locals))
    requires Statement(b, p, fuel - 1, who, State(f, w, sv)) == Ok((v, State(f1, w1, sv)))
    requires HoldsAt(Cursor(p[who], f1), EncodeAll(es[1..]))
    ensures Args(b, p, fuel, who, State(f, w, sv), |es|) ==
      LiftArgs(f, sv, |EncodeAll(es)|, EvalArgs(b, w, f.args, f.locals, es))
    decreases es, 0
  {
    hide Statement, FunctionCall, Assign, CallRoutine, CallMethod, Args, ReadOperand, VariableRef, Execute, Run,
         NextInt, NextFloat, CallBuiltInMethod, CallBuiltInFunction, Eval, EvalArgs;
    ArgsMatch(b, p, fuel, who, f1, w1, sv, es[1..]);
    ArgsCons(b, p, fuel, who, State(f, w, sv), |es|, v, State(f1, w1, sv));
    EvalArgsCons(b, w, f.args, f.locals, es, v, w1, f1.locals);
    assert |EncodeAll(es)| == |Encode(es[0])| + |EncodeAll(es[1..])|;
    JoinArgs(Args(b, p, fuel, who, State(f, w, sv), |es|), Args(b, p, fuel, who, State(f1, w1, sv), |es| - 1),
             EvalArgs(b, w, f.args, f.locals, es), EvalArgs(b, w1, f.args, f1.locals, es[1..]),
             v, f, f1, sv, |Encode(es[0])|, |EncodeAll(es[1..])|);
  }

  /** Running a first argument, then the rest, matches evaluating them. */
  lemma JoinArgs(a: Result<(seq<Operand>, State)>, rest: Result<(seq<Operand>, State)>,
                 e: Result<(seq<Operand>, World, seq<Operand>)>, erest: Result<(seq<Operand>, World, seq<Operand>)>,
                 v: Operand, f: Frame, f1: Frame, sv: map<Who, Frame>, n: nat, nrest: nat)
    requires f1.pos == f.pos + n && f1.args == f.args
    requires a == match rest
      case Ok(t) => Ok(([v] + t.0, t.1))
      case Fail(err) => Fail(err)
    requires rest == LiftArgs(f1, sv, nrest, erest)
    requires e == match erest
      case Ok(t) => Ok(([v] + t.0, t.1, t.2))
      case Fail(err) => Fail(err)
    ensures a == LiftArgs(f, sv, n + nrest, e)
  {
  }

  /** The interpreter, run on the bytecode of a tree with enough fuel, does
      what the tree evaluates to: the same value, the same shared state and
      local slots, the cursor just past the statement and the saved frames
      untouched; or the same error. */
  lemma {:induction false} StatementMatches(b: Builtins, p: Program, fuel: nat, who: Who, f: Frame, w: World,
                                            sv: map<Who, Frame>, e: Expr)
    requires who in p
    requires WF(e) && BuiltinOnly(p, e) && fuel > Depth(e)
    requires HoldsAt(Cursor(p[who], f), Encode(e))
    ensures Statement(b, p, fuel, who, State(f, w, sv)) == Lift(f, sv, |Encode(e)|, Eval(b, w, f.args, f.locals, e))
    decreases e, 2
  {
    hide Statement, FunctionCall, Assign, CallRoutine, CallMethod, Args, ReadOperand, VariableRef, Execute, Run,
         NextInt, NextFloat, CallBuiltInMethod, CallBuiltInFunction;
    match e
    case Nop => NopCase(b, p, fuel, who, f, w, sv);
    case Literal(kind, value) => LiteralCase(b, p, fuel, who, f, w, sv, kind, value);
    case FloatLiteral(kind, bits) => FloatCase(b, p, fuel, who, f, w, sv, kind, bits);
    case AssetRef(asset) => AssetCase(b, p, fuel, who, f, w, sv, asset);
    case VarRef(id, scope) => VarRefCase(b, p, fuel, who, f, w, sv, id, scope);
    case Assignment(id, scope, rhs) => AssignCase(b, p, fuel, who, f, w, sv, id, scope, rhs);
    case RoutineCall(fn, args) => CallFnCase(b, p, fuel, who, f, w, sv, fn, args);
    case MethodCall(meth, self, args) => CallMethodCase(b, p, fuel, who, f, w, sv, meth, self, args);
  }

  /** The opcode of a call: the class datum, then the opcode datum. */
  lemma CallPrefix(b: Builtins, p: Program, fuel: nat, who: Who, f: Frame, w: World, sv: map<Who, Frame>, op: int, rest: seq<byte>)
    requires who in p && fuel > 0
    requires op in {ASSIGN_VARIABLE, CALL_ROUTINE, CALL_METHOD}
    requires HoldsAt(Cursor(p[who], f), Num(FUNCTION_CALL) + (Num(op) + rest))
    ensures HoldsAt(Cursor(p[who], Fwd(f, 12)), rest)
    ensures op == ASSIGN_VARIABLE ==>
      Statement(b, p, fuel, who, State(f, w, sv)) == Assign(b, p, fuel, who, State(Fwd(f, 12), w, sv))
    ensures op == CALL_ROUTINE ==>
      Statement(b, p, fuel, who, State(f, w, sv)) == CallRoutine(b, p, fuel, who, State(Fwd(f, 12), w, sv))
    ensures op == CALL_METHOD ==>
      Statement(b, p, fuel, who, State(f, w, sv)) == CallMethod(b, p, fuel, who, State(Fwd(f, 12), w, sv))
  {
    FirstAt(p, who, f, w, sv, FUNCTION_CALL, Num(op) + rest);
    StatementIsCall(b, p, fuel, who, State(f, w, sv), State(Fwd(f, 6), w, sv));
    NextAt(p, who, f, w, sv, 6, op, rest);
    FunctionCallIs(b, p, fuel, who, State(Fwd(f, 6), w, sv), op, State(Fwd(f, 12), w, sv));
  }

  /** The two leading fields of an assignment or a call. */
  lemma Fields(p: Program, who: Who, f: Frame, w: World, sv: map<Who, Frame>, id: nat, x: int, rest: seq<byte>)
    requires who in p && id < TWO_32 && IsI32(x)
    requires HoldsAt(Cursor(p[who], Fwd(f, 12)), Id(id) + (Num(x) + rest))
    ensures NextInt(p, who, State(Fwd(f, 12), w, sv)) == Ok((ToInt32(id), State(Fwd(f, 18), w, sv)))
    ensures ToUint32(ToInt32(id)) == id
    ensures NextInt(p, who, State(Fwd(f, 18), w, sv)) == Ok((x, State(Fwd(f, 24), w, sv)))
    ensures HoldsAt(Cursor(p[who], Fwd(f, 24)), rest)
  {
    IdAt(p, who, f, w, sv, 12, id, Num(x) + rest);
    NextAt(p, who, f, w, sv, 18, x, rest);
  }

  /** An assignment, once its fields are read: the right-hand side, then
      the store. */
  lemma AssignIs(b: Builtins, p: Program, fuel: nat, who: Who, s1: State, idv: int, s2: State, scope: int, s3: State)
    requires who in p && fuel > 0
    requires NextInt(p, who, s1) == Ok((idv, s2))
    requires NextInt(p, who, s2) == Ok((scope, s3))
    ensures Assign(b, p, fuel, who, s1) ==
      match Statement(b, p, fuel - 1, who, s3)
      case Fail(e) => Fail(e)
      case Ok(v) =>
        match PutVariable(v.1.world, v.1.frame.locals, ToUint32(idv), scope, v.0)
        case Fail(e) => Fail(e)
        case Ok(put) => Ok((Empty, State(v.1.frame.(locals := put.1), put.0, v.1.saved)))
  {
  }

  /** The tree of an assignment evaluates its right-hand side, then
      stores it. */
  lemma EvalAssignment(b: Builtins, w: World, args: Option<seq<Operand>>, locals: seq<Operand>, id: nat, scope: int, rhs: Expr)
    ensures Eval(b, w, args, locals, Assignment(id, scope, rhs)) ==
      match Eval(b, w, args, locals, rhs)
      case Fail(e) => Fail(e)
      case Ok(v) =>
        match PutVariable(v.1, v.2, id, scope, v.0)
        case Fail(e) => Fail(e)
        case Ok(put) => Ok((Empty, put.0, put.1))
  {
  }

  /** Storing what the right-hand side ran to matches storing what it
      evaluated to. */
  lemma AssignGlue(x: Result<(Operand, State)>, st: Result<(Operand, State)>, y: Result<(Operand, World, seq<Operand>)>,
                   er: Result<(Operand, World, seq<Operand>)>, f: Frame, sv: map<Who, Frame>, k: nat, n: nat, id: nat, scope: int)
    requires x ==
      match st
      case Fail(e) => Fail(e)
      case Ok(v) =>
        match PutVariable(v.1.world, v.1.frame.locals, id, scope, v.0)
        case Fail(e) => Fail(e)
        case Ok(put) => Ok((Empty, State(v.1.frame.(locals := put.1), put.0, v.1.saved)))
    requires st == Lift(Fwd(f, k), sv, n, er)
    requires y ==
      match er
      case Fail(e) => Fail(e)
      case Ok(v) =>
        match PutVariable(v.1, v.2, id, scope, v.0)
        case Fail(e) => Fail(e)
        case Ok(put) => Ok((Empty, put.0, put.1))
    ensures x == Lift(f, sv, k + n, y)
  {
  }

  lemma AssignCase(b: Builtins, p: Program, fuel: nat, who: Who, f: Frame, w: World, sv: map<Who, Frame>,
                   id: nat, scope: int, rhs: Expr)
    requires who in p
    requires WF(Assignment(id, scope, rhs)) && BuiltinOnly(p, rhs) && fuel > 1 + Depth(rhs)
    requires HoldsAt(Cursor(p[who], f), Encode(Assignment(id, scope, rhs)))
    ensures Statement(b, p, fuel, who, State(f, w, sv)) ==
      Lift(f, sv, |Encode(Assignment(id, scope, rhs))|, Eval(b, w, f.args, f.locals, Assignment(id, scope, rhs)))
    decreases Assignment(id, scope, rhs), 1
  {
    hide Statement, FunctionCall, Assign, CallRoutine, CallMethod, Args, ReadOperand, VariableRef, Execute, Run,
         NextInt, NextFloat, CallBuiltInMethod, CallBuiltInFunction, Eval, EvalArgs, PutVariable, Encode, WF, BuiltinOnly, Depth;
    AssignmentParts(p, id, scope, rhs);
    CallPrefix(b, p, fuel, who, f, w, sv, ASSIGN_VARIABLE, Id(id) + (Num(scope) + Encode(rhs)));
    Fields(p, who, f, w, sv, id, scope, Encode(rhs));
    StatementMatches(b, p, fuel - 1, who, Fwd(f, 24), w, sv, rhs);
    AssignIs(b, p, fuel, who, State(Fwd(f, 12), w, sv), ToInt32(id), State(Fwd(f, 18), w, sv), scope, State(Fwd(f, 24), w, sv));
    EvalAssignment(b, w, f.args, f.locals, id, scope, rhs);
    AssignGlue(Assign(b, p, fuel, who, State(Fwd(f, 12), w, sv)), Statement(b, p, fuel - 1, who, State(Fwd(f, 24), w, sv)),
               Eval(b, w, f.args, f.locals, Assignment(id, scope, rhs)), Eval(b, w, f.args, f.locals, rhs),
               f, sv, 24, |Encode(rhs)|, id, scope);
  }

  /** A routine call, once its fields are read: the arguments, then the
      built-in function. */
  lemma CallRoutineIs(b: Builtins, p: Program, fuel: nat, who: Who, s1: State, fnv: int, s2: State, count: int, s3: State)
    requires who in p && fuel > 0
    requires NextInt(p, who, s1) == Ok((fnv, s2))
    requires NextInt(p, who, s2) == Ok((count, s3))
    requires Routine(ToUint32(fnv)) !in p
    ensures CallRoutine(b, p, fuel, who, s1) ==
      match Args(b, p, fuel, who, s3, ToUint32(count))
      case Fail(e) => Fail(e)
      case Ok(a) =>
        match CallBuiltInFunction(b, a.1.world, ToUint32(fnv), a.0)
        case Ok(called) => Ok((called.0, a.1.(world := called.1)))
        case Fail(e) => Fail(e)
  {
  }

  lemma CallFnCase(b: Builtins, p: Program, fuel: nat, who: Who, f: Frame, w: World, sv: map<Who, Frame>,
                   fn: nat, args: seq<Expr>)
    requires who in p
    requires WF(RoutineCall(fn, args)) && BuiltinOnly(p, RoutineCall(fn, args)) && fuel > Depth(RoutineCall(fn, args))
    requires HoldsAt(Cursor(p[who], f), Encode(RoutineCall(fn, args)))
    ensures Statement(b, p, fuel, who, State(f, w, sv)) ==
      Lift(f, sv, |Encode(RoutineCall(fn, args))|, Eval(b, w, f.args, f.locals, RoutineCall(fn, args)))
    decreases RoutineCall(fn, args), 1
  {
    hide Statement, FunctionCall, Assign, CallRoutine, CallMethod, Args, ReadOperand, VariableRef, Execute, Run,
         NextInt, NextFloat, CallBuiltInMethod, CallBuiltInFunction, Encode, WF, BuiltinOnly, Depth;
    RoutineCallParts(fn, args);
    CallPrefix(b, p, fuel, who, f, w, sv, CALL_ROUTINE, Id(fn) + (Num(|args|) + EncodeAll(args)));
    Fields(p, who, f, w, sv, fn, |args|, EncodeAll(args));
    SmallCount(|args|);
    ArgsMatch(b, p, fuel, who, Fwd(f, 24), w, sv, args);
    CallRoutineIs(b, p, fuel, who, State(Fwd(f, 12), w, sv), ToInt32(fn), State(Fwd(f, 18), w, sv), |args|, State(Fwd(f, 24), w, sv));
  }

  /** A method call, once its fields are read: `self`, which must be an
      asset, then the arguments, then the built-in method. */
  lemma CallMethodIs(b: Builtins, p: Program, fuel: nat, who: Who, s1: State, mv: int, s2: State, count: int, s3: State)
    requires who in p && fuel > 0
    requires NextInt(p, who, s1) == Ok((mv, s2))
    requires NextInt(p, who, s2) == Ok((count, s3))
    ensures Statement(b, p, fuel - 1, who, s3).Fail? ==>
      CallMethod(b, p, fuel, who, s1) == Fail(Statement(b, p, fuel - 1, who, s3).error)
    ensures Statement(b, p, fuel - 1, who, s3).Ok? && !Statement(b, p, fuel - 1, who, s3).value.0.Asset? ==>
      CallMethod(b, p, fuel, who, s1) == Fail(NotAnAsset(TypeOf(Statement(b, p, fuel - 1, who, s3).value.0)))
  {
  }

  lemma CallMethodOn(b: Builtins, p: Program, fuel: nat, who: Who, s1: State, mv: int, s2: State, count: int, s3: State,
                     self: nat, s4: State)
    requires who in p && fuel > 0
    requires NextInt(p, who, s1) == Ok((mv, s2))
    requires NextInt(p, who, s2) == Ok((count, s3))
    requires Statement(b, p, fuel - 1, who, s3) == Ok((Asset(self), s4))
    ensures CallMethod(b, p, fuel, who, s1) ==
      match Args(b, p, fuel, who, s4, ToUint32(count))
      case Fail(e) => Fail(e)
      case Ok(a) =>
        match CallBuiltInMethod(b, a.1.world, ToUint32(mv), self, a.0)
        case Ok(called) => Ok((called.0, a.1.(world := called.1)))
        case Fail(e) => Fail(e)
  {
  }

  /** The tree of a method call evaluates `self`, which must be an asset,
      then the arguments, then runs the built-in method. */
  lemma EvalMethodCall(b: Builtins, w: World, args: Option<seq<Operand>>, locals: seq<Operand>, meth: nat, self: Expr, es: seq<Expr>)
    ensures Eval(b, w, args, locals, self).Fail? ==>
      Eval(b, w, args, locals, MethodCall(meth, self, es)) == Fail(Eval(b, w, args, locals, self).error)
    ensures Eval(b, w, args, locals, self).Ok? && !Eval(b, w, args, locals, self).value.0.Asset? ==>
      Eval(b, w, args, locals, MethodCall(meth, self, es)) == Fail(NotAnAsset(TypeOf(Eval(b, w, args, locals, self).value.0)))
    ensures Eval(b, w, args, locals, self).Ok? && Eval(b, w, args, locals, self).value.0.Asset? ==>
      var s := Eval(b, w, args, locals, self).value;
      Eval(b, w, args, locals, MethodCall(meth, self, es)) ==
        match EvalArgs(b, s.1, args, s.2, es)
        case Fail(e) => Fail(e)
        case Ok(vs) =>
          match CallBuiltInMethod(b, vs.1, meth, s.0.id, vs.0)
          case Ok(called) => Ok((called.0, called.1, vs.2))
          case Fail(e) => Fail(e)
  {
  }

  /** Calling a built-in on what the arguments ran to matches calling it on
      what they evaluated to. */
  lemma MethodGlue(b: Builtins, meth: nat, self: nat, x: Result<(Operand, State)>, a: Result<(seq<Operand>, State)>,
                   y: Result<(Operand, World, seq<Operand>)>, ea: Result<(seq<Operand>, World, seq<Operand>)>,
                   f: Frame, f4: Frame, sv: map<Who, Frame>, na: nat, n: nat)
    requires f4.args == f.args && f.pos + n == f4.pos + na
    requires x ==
      match a
      case Fail(e) => Fail(e)
      case Ok(t) =>
        match CallBuiltInMethod(b, t.1.world, meth, self, t.0)
        case Ok(called) => Ok((called.0, t.1.(world := called.1)))
        case Fail(e) => Fail(e)
    requires a == LiftArgs(f4, sv, na, ea)
    requires y ==
      match ea
      case Fail(e) => Fail(e)
      case Ok(vs) =>
        match CallBuiltInMethod(b, vs.1, meth, self, vs.0)
        case Ok(called) => Ok((called.0, called.1, vs.2))
        case Fail(e) => Fail(e)
    ensures x == Lift(f, sv, n, y)
  {
  }

  lemma CallMethodCase(b: Builtins, p: Program, fuel: nat, who: Who, f: Frame, w: World, sv: map<Who, Frame>,
                       meth: nat, self: Expr, args: seq<Expr>)
    requires who in p
    requires WF(MethodCall(meth, self, args)) && BuiltinOnly(p, MethodCall(meth, self, args))
    requires fuel > Depth(MethodCall(meth, self, args))
    requires HoldsAt(Cursor(p[who], f), Encode(MethodCall(meth, self, args)))
    ensures Statement(b, p, fuel, who, State(f, w, sv)) ==
      Lift(f, sv, |Encode(MethodCall(meth, self, args))|, Eval(b, w, f.args, f.locals, MethodCall(meth, self, args)))
    decreases MethodCall(meth, self, args), 1
  {
    hide Statement, FunctionCall, Assign, CallRoutine, CallMethod, Args, ReadOperand, VariableRef, Execute, Run,
         NextInt, NextFloat, CallBuiltInMethod, CallBuiltInFunction, Eval, EvalArgs, Encode, WF, BuiltinOnly, Depth;
    MethodCallParts(p, meth, self, args);
    var ns := |Encode(self)|;
    CallPrefix(b, p, fuel, who, f, w, sv, CALL_METHOD, Id(meth) + (Num(|args|) + (Encode(self) + EncodeAll(args))));
    Fields(p, who, f, w, sv, meth, |args|, Encode(self) + EncodeAll(args));
    SmallCount(|args|);
    HoldsAtSplit(Cursor(p[who], Fwd(f, 24)), Encode(self), EncodeAll(args));
    StatementMatches(b, p, fuel - 1, who, Fwd(f, 24), w, sv, self);
    CallMethodIs(b, p, fuel, who, State(Fwd(f, 12), w, sv), ToInt32(meth), State(Fwd(f, 18), w, sv), |args|, State(Fwd(f, 24), w, sv));
    EvalMethodCall(b, w, f.args, f.locals, meth, self, args);
    var first := Eval(b, w, f.args, f.locals, self);
    if first.Ok? && first.value.0.Asset? {
      var s := first.value;
      var f4 := f.(pos := f.pos + 24 + ns, locals := s.2);
      assert Cursor(p[who], f4) == Skip(Cursor(p[who], Fwd(f, 24)), ns);
      ArgsMatch(b, p, fuel, who, f4, s.1, sv, args);
      CallMethodOn(b, p, fuel, who, State(Fwd(f, 12), w, sv), ToInt32(meth), State(Fwd(f, 18), w, sv), |args|,
                   State(Fwd(f, 24), w, sv), s.0.id, State(f4, s.1, sv));
      MethodGlue(b, meth, s.0.id, CallMethod(b, p, fuel, who, State(Fwd(f, 12), w, sv)),
                 Args(b, p, fuel, who, State(f4, s.1, sv), |args|),
                 Eval(b, w, f.args, f.locals, MethodCall(meth, self, args)), EvalArgs(b, s.1, f.args, s.2, args),
                 f, f4, sv, |EncodeAll(args)|, |Encode(MethodCall(meth, self, args))|);
    }
  }

  // ---------------------------------------------------------------------------
  // A whole code chunk runs as its statement sequence evaluates.

  lemma RunDone(b: Builtins, p: Program, fuel: nat, who: Who, s: State, last: Operand)
    requires who in p && s.frame.pos >= |p[who]|
    ensures Run(b, p, fuel, who, s, last) == Ok((last, s))
  {
  }

  /** A statement that moved the cursor forward is followed by the next. */
  lemma RunStep(b: Builtins, p: Program, fuel: nat, who: Who, s: State, last: Operand, v: Operand, s1: State)
    requires who in p && s.frame.pos < |p[who]|
    requires Statement(b, p, fuel, who, s) == Ok((v, s1)) && s1.frame.pos > s.frame.pos
    ensures Run(b, p, fuel, who, s, last) == Run(b, p, fuel, who, s1, v)
  {
  }

  lemma RunFail(b: Builtins, p: Program, fuel: nat, who: Who, s: State, last: Operand)
    requires who in p && s.frame.pos < |p[who]|
    requires Statement(b, p, fuel, who, s).Fail?
    ensures Run(b, p, fuel, who, s, last) == Fail(Statement(b, p, fuel, who, s).error)
  {
  }

  lemma EvalSeqNil(b: Builtins, w: World, args: Option<seq<Operand>>, locals: seq<Operand>, last: Operand)
    ensures EvalSeq(b, w, args, locals, [], last) == Ok((last, w, locals))
  {
  }

  lemma EvalSeqCons(b: Builtins, w: World, args: Option<seq<Operand>>, locals: seq<Operand>, es: seq<Expr>, last: Operand)
    requires |es| > 0
    ensures Eval(b, w, args, locals, es[0]).Fail? ==>
      EvalSeq(b, w, args, locals, es, last) == Fail(Eval(b, w, args, locals, es[0]).error)
    ensures Eval(b, w, args, locals, es[0]).Ok? ==>
      var v := Eval(b, w, args, locals, es[0]).value;
      EvalSeq(b, w, args, locals, es, last) == EvalSeq(b, v.1, args, v.2, es[1..], v.0)
  {
  }

  /** Lifting from a frame the first statement left matches lifting from
      the frame before it. */
  lemma LiftShift(f: Frame, f1: Frame, sv: map<Who, Frame>, n0: nat, n1: nat, r: Result<(Operand, World, seq<Operand>)>)
    requires f1.pos == f.pos + n0 && f1.args == f.args
    ensures Lift(f1, sv, n1, r) == Lift(f, sv, n0 + n1, r)
  {
  }

  /** The loop of `execute`, over a chunk whose remaining bytecode is a
      sequence of encoded trees, runs them as the sequence evaluates,
      stopping at the first error. */
  lemma {:induction false} RunMatches(b: Builtins, p: Program, fuel: nat, who: Who, f: Frame, w: World, sv: map<Who, Frame>,
                                      es: seq<Expr>, last: Operand)
    requires who in p
    requires AllWF(es) && AllBuiltinOnly(p, es) && fuel > MaxDepth(es)
    requires HoldsAt(Cursor(p[who], f), EncodeAll(es)) && f.pos + |EncodeAll(es)| == |p[who]|
    ensures Run(b, p, fuel, who, State(f, w, sv), last) == Lift(f, sv, |EncodeAll(es)|, EvalSeq(b, w, f.args, f.locals, es, last))
    decreases es
  {
    hide Statement, FunctionCall, Assign, CallRoutine, CallMethod, Args, ReadOperand, VariableRef, Execute, Run,
         NextInt, NextFloat, CallBuiltInMethod, CallBuiltInFunction, Eval, EvalArgs, EvalSeq;
    if |es| == 0 {
      RunDone(b, p, fuel, who, State(f, w, sv), last);
      assert f.(pos := f.pos + 0, locals := f.locals) == f;
      EvalSeqNil(b, w, f.args, f.locals, last);
    } else {
      HoldsAtSplit(Cursor(p[who], f), Encode(es[0]), EncodeAll(es[1..]));
      StatementMatches(b, p, fuel, who, f, w, sv, es[0]);
      EvalSeqCons(b, w, f.args, f.locals, es, last);
      var first := Eval(b, w, f.args, f.locals, es[0]);
      if first.Fail? {
        RunFail(b, p, fuel, who, State(f, w, sv), last);
      } else {
        var v := first.value;
        var f1 := f.(pos := f.pos + |Encode(es[0])|, locals := v.2);
        RunStep(b, p, fuel, who, State(f, w, sv), last, v.0, State(f1, v.1, sv));
        assert Cursor(p[who], f1) == Skip(Cursor(p[who], f), |Encode(es[0])|);
        RunMatches(b, p, fuel, who, f1, v.1, sv, es[1..], v.0);
        LiftShift(f, f1, sv, |Encode(es[0])|, |EncodeAll(es[1..])|, EvalSeq(b, v.1, f.args, v.2, es[1..], v.0));
      }
    }
  }

  lemma ExecuteIs(b: Builtins, p: Program, fuel: nat, who: Who, s: State, args: Option<seq<Operand>>)
    requires who in p
    ensures Execute(b, p, fuel, who, s, args) ==
      match Run(b, p, fuel, who, s.(frame := s.frame.(args := args)), Empty)
      case Ok(run) => Ok((run.0, run.1.(frame := run.1.frame.(pos := 0, args := None))))
      case Fail(e) => Fail(e)
  {
  }

  /** `execute` on a code chunk that is a sequence of encoded trees, from
      its start, binds the arguments and evaluates the sequence; after it
      the cursor is rewound and the arguments unbound, the local slots keep
      what the sequence left in them, and the saved frames are untouched. */
  lemma ExecuteMatches(b: Builtins, p: Program, fuel: nat, who: Who, f: Frame, w: World, sv: map<Who, Frame>,
                       args: Option<seq<Operand>>, es: seq<Expr>)
    requires who in p && f.pos == 0
    requires AllWF(es) && AllBuiltinOnly(p, es) && fuel > MaxDepth(es) && p[who] == EncodeAll(es)
    ensures Execute(b, p, fuel, who, State(f, w, sv), args) ==
      match EvalSeq(b, w, args, f.locals, es, Empty)
      case Ok(t) => Ok((t.0, State(Frame(0, None, t.2), t.1, sv)))
      case Fail(e) => Fail(e)
  {
    hide Statement, FunctionCall, Assign, CallRoutine, CallMethod, Args, ReadOperand, VariableRef, Execute, Run,
         NextInt, NextFloat, CallBuiltInMethod, CallBuiltInFunction, Eval, EvalArgs, EvalSeq;
    var bound := f.(args := args);
    assert p[who][0..|p[who]|] == p[who];
    RunMatches(b, p, fuel, who, bound, w, sv, es, Empty);
    ExecuteIs(b, p, fuel, who, State(f, w, sv), args);
  }

  /** A handler is started with the null argument list, so a parameter
      read in its code fails with the null-list error. */
  lemma NullArgumentsHaveNoParameters(b: Builtins, p: Program, fuel: nat, who: Who, f: Frame, w: World,
                                      sv: map<Who, Frame>, id: nat)
    requires who in p && f.pos == 0 && fuel > 0 && id < TWO_32
    requires p[who] == Encode(VarRef(id, PARAMETER))
    ensures Execute(b, p, fuel, who, State(f, w, sv), None) == Fail(NoParameters)
  {
    var es := [VarRef(id, PARAMETER)];
    assert AllWF(es[1..]) && AllBuiltinOnly(p, es[1..]) && MaxDepth(es[1..]) == 0 by { assert es[1..] == []; }
    assert EncodeAll(es) == Encode(es[0]) + EncodeAll(es[1..]);
    assert EncodeAll(es[1..]) == [] by { assert es[1..] == []; }
    ExecuteMatches(b, p, fuel, who, f, w, sv, None, es);
  }

  // ---------------------------------------------------------------------------
  // A call of a registered function.

  lemma CallRoutineRegistered(b: Builtins, p: Program, fuel: nat, who: Who, s1: State, fnv: int, s2: State, count: int, s3: State,
                               callee: Who, n: nat)
    requires who in p && fuel > 0
    requires NextInt(p, who, s1) == Ok((fnv, s2))
    requires NextInt(p, who, s2) == Ok((count, s3))
    requires callee == Routine(ToUint32(fnv)) && callee in p && ToUint32(count) == n
    ensures CallRoutine(b, p, fuel, who, s1) ==
      match Args(b, p, fuel, who, s3, n)
      case Fail(e) => Fail(e)
      case Ok(a) =>
        var saved := a.1.saved[who := a.1.frame];
        match Execute(b, p, fuel - 1, callee, State(FrameOf(saved, callee), a.1.world, saved), Some(a.0))
        case Fail(e) => Fail(e)
        case Ok(called) =>
          var back := called.1.saved[callee := called.1.frame];
          Ok((called.0, State(FrameOf(back, who), called.1.world, back)))
  {
  }

  /** The state after a registered call returns: the caller resumes in its
      own frame, which is also saved, and the callee's frame is saved
      rewound, keeping its local slots. */
  function Returned(caller: Who, f: Frame, callee: Who, sv: map<Who, Frame>, r: Result<(Operand, World, seq<Operand>)>)
    : Result<(Operand, State)>
  {
    match r
    case Fail(e) => Fail(e)
    case Ok(t) => Ok((t.0, State(f, t.1, sv[caller := f][callee := Frame(0, None, t.2)])))
  }

  lemma RegisteredGlue(b: Builtins, p: Program, fuel: nat, who: Who, callee: Who, x: Result<(Operand, State)>,
                       a: Result<(seq<Operand>, State)>, ea: Result<(seq<Operand>, World, seq<Operand>)>,
                       f: Frame, f4: Frame, sv: map<Who, Frame>, na: nat, body: seq<Expr>, n: nat)
    requires who in p && callee in p && callee != who && fuel > 0
    requires f4.pos + na == f.pos + n && f4.args == f.args
    requires a == LiftArgs(f4, sv, na, ea)
    requires x ==
      match a
      case Fail(e) => Fail(e)
      case Ok(a) =>
        var saved := a.1.saved[who := a.1.frame];
        match Execute(b, p, fuel - 1, callee, State(FrameOf(saved, callee), a.1.world, saved), Some(a.0))
        case Fail(e) => Fail(e)
        case Ok(called) =>
          var back := called.1.saved[callee := called.1.frame];
          Ok((called.0, State(FrameOf(back, who), called.1.world, back)))
    requires AllWF(body) && AllBuiltinOnly(p, body) && fuel - 1 > MaxDepth(body)
    requires p[callee] == EncodeAll(body) && FrameOf(sv, callee).pos == 0
    ensures x ==
      match ea
      case Fail(e) => Fail(e)
      case Ok(vs) =>
        Returned(who, f.(pos := f.pos + n, locals := vs.2), callee, sv,
                 EvalSeq(b, vs.1, Some(vs.0), FrameOf(sv, callee).locals, body, Empty))
  {
    hide Execute, EvalSeq;
    if ea.Ok? {
      var vs := ea.value;
      var f5 := f4.(pos := f4.pos + na, locals := vs.2);
      assert f5 == f.(pos := f.pos + n, locals := vs.2);
      var saved := sv[who := f5];
      assert FrameOf(saved, callee) == FrameOf(sv, callee);
      ExecuteMatches(b, p, fuel - 1, callee, FrameOf(saved, callee), vs.1, saved, Some(vs.0), body);
    }
  }

  /** The fields of a well-formed assignment and the layout of its
      bytecode. */
  lemma AssignmentParts(p: Program, id: nat, scope: int, rhs: Expr)
    requires WF(Assignment(id, scope, rhs))
    ensures id < TWO_32 && IsI32(scope) && WF(rhs)
    ensures BuiltinOnly(p, Assignment(id, scope, rhs)) == BuiltinOnly(p, rhs)
    ensures Depth(Assignment(id, scope, rhs)) == 1 + Depth(rhs)
    ensures Encode(Assignment(id, scope, rhs)) == Num(FUNCTION_CALL) + (Num(ASSIGN_VARIABLE) + (Id(id) + (Num(scope) + Encode(rhs))))
    ensures |Encode(Assignment(id, scope, rhs))| == 24 + |Encode(rhs)|
  {
  }

  /** The fields of a well-formed method call and the layout of its
      bytecode. */
  lemma MethodCallParts(p: Program, meth: nat, self: Expr, args: seq<Expr>)
    requires WF(MethodCall(meth, self, args))
    ensures meth < TWO_32 && |args| < TWO_31 && WF(self) && AllWF(args)
    ensures BuiltinOnly(p, MethodCall(meth, self, args)) == (BuiltinOnly(p, self) && AllBuiltinOnly(p, args))
    ensures Depth(MethodCall(meth, self, args)) == 1 + Max(Depth(self), MaxDepth(args))
    ensures Encode(MethodCall(meth, self, args)) ==
      Num(FUNCTION_CALL) + (Num(CALL_METHOD) + (Id(meth) + (Num(|args|) + (Encode(self) + EncodeAll(args)))))
    ensures |Encode(MethodCall(meth, self, args))| == 24 + |Encode(self)| + |EncodeAll(args)|
  {
  }

  /** The fields of a well-formed routine call and the layout of its
      bytecode. */
  lemma RoutineCallParts(fn: nat, args: seq<Expr>)
    requires WF(RoutineCall(fn, args))
    ensures fn < TWO_32 && |args| < TWO_31 && AllWF(args)
    ensures Encode(RoutineCall(fn, args)) == Num(FUNCTION_CALL) + (Num(CALL_ROUTINE) + (Id(fn) + (Num(|args|) + EncodeAll(args))))
    ensures |Encode(RoutineCall(fn, args))| == 24 + |EncodeAll(args)|
    ensures forall p: Program :: BuiltinOnly(p, RoutineCall(fn, args)) == (Routine(fn) !in p && AllBuiltinOnly(p, args))
    ensures Depth(RoutineCall(fn, args)) == 1 + MaxDepth(args)
  {
  }

  /** An argument count the encoder writes reads back unchanged as an
      unsigned 32-bit value. */
  lemma SmallCount(n: nat)
    requires n < TWO_31
    ensures ToUint32(n) == n
  {
  }

  /** A call of a registered function whose body is a sequence of trees
      that call only built-ins: the arguments are evaluated in the caller,
      the body runs with them bound in the callee's own frame, and the
      caller resumes just past the call with the callee's value. */
  lemma CallRegisteredCase(b: Builtins, p: Program, fuel: nat, who: Who, f: Frame, w: World, sv: map<Who, Frame>,
                           fn: nat, args: seq<Expr>, body: seq<Expr>)
    requires who in p && Routine(fn) in p && Routine(fn) != who
    requires WF(RoutineCall(fn, args)) && AllBuiltinOnly(p, args) && fuel > 1 + MaxDepth(args)
    requires AllWF(body) && AllBuiltinOnly(p, body) && fuel > 1 + MaxDepth(body)
    requires p[Routine(fn)] == EncodeAll(body) && FrameOf(sv, Routine(fn)).pos == 0
    requires HoldsAt(Cursor(p[who], f), Encode(RoutineCall(fn, args)))
    ensures Statement(b, p, fuel, who, State(f, w, sv)) ==
      match EvalArgs(b, w, f.args, f.locals, args)
      case Fail(e) => Fail(e)
      case Ok(vs) =>
        Returned(who, f.(pos := f.pos + |Encode(RoutineCall(fn, args))|, locals := vs.2), Routine(fn), sv,
                 EvalSeq(b, vs.1, Some(vs.0), FrameOf(sv, Routine(fn)).locals, body, Empty))
  {
    hide Statement, FunctionCall, Assign, CallRoutine, CallMethod, Args, ReadOperand, VariableRef, Execute, Run,
         NextInt, NextFloat, CallBuiltInMethod, CallBuiltInFunction, Eval, EvalArgs, EvalSeq, Encode, WF;
    RoutineCallParts(fn, args);
    CallPrefix(b, p, fuel, who, f, w, sv, CALL_ROUTINE, Id(fn) + (Num(|args|) + EncodeAll(args)));
    Fields(p, who, f, w, sv, fn, |args|, EncodeAll(args));
    SmallCount(|args|);
    ArgsMatch(b, p, fuel, who, Fwd(f, 24), w, sv, args);
    CallRoutineRegistered(b, p, fuel, who, State(Fwd(f, 12), w, sv), ToInt32(fn), State(Fwd(f, 18), w, sv), |args|,
                          State(Fwd(f, 24), w, sv), Routine(fn), |args|);
    var ea := EvalArgs(b, w, f.args, f.locals, args);
    RegisteredGlue(b, p, fuel, who, Routine(fn), CallRoutine(b, p, fuel, who, State(Fwd(f, 12), w, sv)),
                   Args(b, p, fuel, who, State(Fwd(f, 24), w, sv), |args|), ea, f, Fwd(f, 24), sv,
                   |EncodeAll(args)|, body, |Encode(RoutineCall(fn, args))|);
  }
}
