// The shared data model: an error value, the capabilities a node of a chain
// may have (the small interfaces the library type-switches on), the frames
// a stack resolves to, and the walk along a chain of wrapped errors.
module Chain {
  import opened Text

  datatype Option<T> = None | Some(value: T)

  const UintptrModulus: int := 0x1_0000_0000_0000_0000

  /** A program counter: a Go `uintptr`. */
  type PC = x: int | 0 <= x < UintptrModulus

  /**
   * What the Go runtime reports for one program counter: function name,
   * source file and line. Symbol resolution is outside the model; the
   * operations that need it take a `resolve: PC -> Symbol` parameter.
   */
  datatype Symbol = Symbol(fn: string, file: string, line: Int64)

  /** One resolved stack frame: name, file, line and program counter. */
  datatype Frame = Frame(name: string, file: string, line: Int64, pc: PC)

  /** A context value; `Other` is any other Go value, kept as what `fmt.Sprint` prints for it. */
  datatype Value = Nil | Str(s: string) | Int(i: int) | Other(printed: string)

  /** Whether a node has an `Unwrap() error` method, and what it returns. */
  datatype Link = NoUnwrap | Unwraps(next: Option<Error>)

  /**
   * The package whose `Stack` and `stackPC` types a node's methods are
   * declared with. Go's interface tests compare those types, so a
   * `Stack()` of one package does not satisfy a test written in the other.
   */
  datatype Pkg = BruhPkg | ErrorsPkg | OtherPkg

  /**
   * An error value as the library sees it through its interfaces.
   *   goType       - the dynamic type as `reflect.TypeOf(err).String()` prints it
   *   text         - what `Error()` returns
   *   message      - what `Message()` returns, when the node has that method
   *   callers      - what `Callers()` returns, when the node has that method
   *   stackPC      - what `stackPC()` returns, when the node has that method
   *   hasStack     - whether the node has a `Stack()` method
   *   hasFullStack - whether the node has a `FullStack()` method
   *   pkg          - the package of the `Stack`/`stackPC` types in those methods
   *   context      - the node's own key/value context, when it is a contexter
   *   link         - its `Unwrap()` method and result
   */
  datatype Error = Error(
    goType: string,
    text: string,
    message: Option<string>,
    callers: Option<seq<PC>>,
    stackPC: Option<seq<PC>>,
    hasStack: bool,
    hasFullStack: bool,
    pkg: Pkg,
    context: Option<map<string, Value>>,
    link: Link)

  /** `err.(interface{ stackPC() stackPC })` with package `p`'s `stackPC` type. */
  predicate HasStackPC(e: Error, p: Pkg)
  {
    e.stackPC.Some? && e.pkg == p
  }

  /** `err.(interface{ Stack() Stack })` with package `p`'s `Stack` type. */
  predicate HasStack(e: Error, p: Pkg)
  {
    e.hasStack && e.pkg == p
  }

  /** `err.(interface{ FullStack() Stack })` with package `p`'s `Stack` type. */
  predicate HasFullStack(e: Error, p: Pkg)
  {
    e.hasFullStack && e.pkg == p
  }

  /** A plain error made by a foreign package, such as `errors.New`. */
  function Foreign(goType: string, text: string, link: Link): (e: Error)
    ensures e.message.None? && e.callers.None? && e.stackPC.None? && e.context.None?
    ensures !e.hasStack && !e.hasFullStack
    ensures e.text == text && e.link == link
  {
    Error(goType, text, None, None, None, false, false, OtherPkg, None, link)
  }

  /** The package-level `Unwrap`: nil for nil and for nodes without the method. */
  function Unwrap(e: Option<Error>): (r: Option<Error>)
    ensures e.None? ==> r.None?
    ensures e.Some? ==> Depth(r) == Depth(e) - 1
  {
    if e.None? then None
    else match e.value.link
      case NoUnwrap => None
      case Unwraps(next) => next
  }

  /** The number of nodes of a chain. */
  function Depth(e: Option<Error>): (r: nat)
    ensures e.None? <==> r == 0
  {
    match e
    case None => 0
    case Some(node) =>
      match node.link
      case NoUnwrap => 1
      case Unwraps(next) => 1 + Depth(next)
  }

  /** The nodes of a chain, outermost first. */
  function Nodes(e: Option<Error>): (r: seq<Error>)
    ensures |r| == Depth(e)
    ensures e.Some? ==> r[0] == e.value
    decreases Depth(e)
  {
    if e.None? then [] else [e.value] + Nodes(Unwrap(e))
  }

  /**
   * The stacks `FullStack` collects from `err` on: each node's `stackPC()`
   * as long as the node has that method with package `p`'s type.
   */
  function StackPCLayers(err: Option<Error>, p: Pkg): (r: seq<seq<PC>>)
    ensures |r| <= Depth(err)
    ensures forall i :: 0 <= i < |r| ==> HasStackPC(Nodes(err)[i], p) && r[i] == Nodes(err)[i].stackPC.value
    ensures |r| < Depth(err) ==> !HasStackPC(Nodes(err)[|r|], p)
    decreases Depth(err)
  {
    if err.None? || !HasStackPC(err.value, p) then []
    else [err.value.stackPC.value] + StackPCLayers(Unwrap(err), p)
  }

  /** The innermost node of a chain: the one that unwraps to nothing. */
  function Root(e: Error): (r: Error)
    ensures Unwrap(Some(r)).None?
    ensures r == Nodes(Some(e))[Depth(Some(e)) - 1]
    decreases Depth(Some(e))
  {
    match Unwrap(Some(e))
    case None => e
    case Some(inner) => Root(inner)
  }

  /**
   * The loop every generation's `Cause` runs: unwrap until a node returns
   * nil and return the last non-nil error; nil stays nil.
   */
  method Cause(err: Option<Error>) returns (cause: Option<Error>)
    ensures err.None? ==> cause.None?
    ensures err.Some? ==> cause == Some(Root(err.value))
  {
    cause := err;
    while true
      invariant err.None? ==> cause.None?
      invariant err.Some? ==> cause.Some? && Root(cause.value) == Root(err.value)
      decreases Depth(cause)
    {
      var unwrapped := Unwrap(cause);
      if unwrapped.None? {
        return;
      }
      cause := unwrapped;
    }
  }
}
