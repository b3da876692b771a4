/**
 * Field Renderer: the meaning of `generateFieldData` (index.js:87-173), stated
 * as functions. A field renders as its indented head (name and argument
 * list), followed by a braced block of the non-empty renderings of its
 * children when there are any; it renders as empty text when its type is
 * already on the ancestor path or the depth limit is reached. Every argument
 * of every visited field is recorded, pruned fields included.
 */
module Render {
  import opened Wrappers
  import opened GraphSchema
  import opened Names
  import opened Text

  const TabSize: nat := 4

  /** `addQueryDepthLimit` */
  const DepthLimit: nat := 100

  /** One entry of the ancestor path: a field name and the resolved name of its type. */
  datatype PathEntry = PathEntry(name: string, typ: string)

  /** A variable declaration `{ name: '$id', type: ID! }` collected into `argTypes`. */
  datatype Var = Var(name: string, typ: TypeRef)

  /**
   * The rendering of one field: its text, its `meta.hasArgs` flag, and the
   * variables its traversal appends to `argTypes`, in order.
   */
  datatype Rendered = Rendered(query: string, hasArgs: bool, vars: seq<Var>)

  function Indent(level: nat): string
  {
    Spaces(level * TabSize)
  }

  /** `name: $name` */
  function ArgBinding(a: ArgDef): string
  {
    a.name + ": $" + a.name
  }

  function Bindings(args: seq<ArgDef>): seq<string>
  {
    seq(|args|, i requires 0 <= i < |args| => ArgBinding(args[i]))
  }

  /** The argument list as index.js:104 builds it: a reduce with `, ` in front, then `substring(2)`. */
  function ArgsList(args: seq<ArgDef>): string
  {
    Substring(Fold(", ", Bindings(args)), 2)
  }

  /** The field head: indentation, name and, when there are arguments, `(a: $a, …)`. */
  function Head(level: nat, f: FieldDef): string
  {
    if |f.args| > 0 then Indent(level) + f.name + "(" + ArgsList(f.args) + ")"
    else Indent(level) + f.name
  }

  function VarOf(a: ArgDef): Var
  {
    Var("$" + a.name, a.typ)
  }

  function ArgVars(args: seq<ArgDef>): seq<Var>
  {
    seq(|args|, i requires 0 <= i < |args| => VarOf(args[i]))
  }

  /** Some entry of the path has type `typ` (the cycle check, index.js:122). */
  predicate OnPath(path: seq<PathEntry>, typ: string)
  {
    exists k :: 0 <= k < |path| && path[k].typ == typ
  }

  /** Some entry of the path is exactly (`name`, `typ`) (the skip check, index.js:139). */
  predicate SkipPair(path: seq<PathEntry>, name: string, typ: string)
  {
    exists k :: 0 <= k < |path| && path[k].name == name && path[k].typ == typ
  }

  /** The non-empty texts among the children's renderings, in order. */
  function Survivors(rs: seq<Rendered>): seq<string>
  {
    if rs == [] then []
    else Survivors(rs[..|rs| - 1]) + (if rs[|rs| - 1].query != "" then [rs[|rs| - 1].query] else [])
  }

  /** Some child reports arguments. */
  predicate AnyHasArgs(rs: seq<Rendered>)
  {
    rs != [] && (AnyHasArgs(rs[..|rs| - 1]) || rs[|rs| - 1].hasArgs)
  }

  /** The children's variables, concatenated in order. */
  function AllVars(rs: seq<Rendered>): seq<Var>
  {
    if rs == [] then [] else AllVars(rs[..|rs| - 1]) + rs[|rs| - 1].vars
  }

  /** The head, with a `{ … }` block around `body` indented like the head when `body` is non-empty. */
  function Braced(head: string, body: string, level: nat): string
  {
    if body != "" then head + "{\n" + body + "\n" + Indent(level) + "}" else head
  }

  /** The type name a field resolves to (index.js:117). */
  function ResolvedType(f: FieldDef): string
  {
    CleanName(Inspect(f.typ))
  }

  /** The field is discarded: its type is on the path, or the depth limit is reached. */
  predicate Pruned(path: seq<PathEntry>, typ: string, level: nat)
  {
    OnPath(path, typ) || level >= DepthLimit
  }

  /** The rendering of field `name` of type `parentType` below `path`, at depth `level`. */
  function Field(s: Schema, name: string, parentType: string, path: seq<PathEntry>, level: nat)
    : (r: Result<Rendered, Error>)
    decreases DepthLimit - level, 3
  {
    match FieldsOf(s, parentType)
    case Err(e) => Err(e)
    case Ok(fs) =>
      match LookupField(fs, name)
      case None => Err(FieldNotFound(parentType, name))
      case Some(f) => FoundField(s, f, path, level)
  }

  /**
   * The rendering of the field `f` once found: its arguments are declared
   * whatever happens next; it is discarded when pruned, a bare head when its
   * type has no fields, and expanded otherwise.
   */
  function FoundField(s: Schema, f: FieldDef, path: seq<PathEntry>, level: nat): (r: Result<Rendered, Error>)
    decreases DepthLimit - level, 2
  {
    var typeName := ResolvedType(f);
    if Pruned(path, typeName, level) then Ok(Rendered("", false, ArgVars(f.args)))
    else if typeName !in s.types then Err(TypeNotFound(typeName))
    else match s.types[typeName]
      case Leaf => Ok(Rendered(Head(level, f), |f.args| > 0, ArgVars(f.args)))
      case Composite(inner) => Expanded(s, f, inner, typeName, path, level)
  }

  /** The field `f`, of the object-like type `typeName` with fields `inner`, with its selection block. */
  function Expanded(s: Schema, f: FieldDef, inner: seq<FieldDef>, typeName: string, path: seq<PathEntry>, level: nat)
    : (r: Result<Rendered, Error>)
    requires level < DepthLimit
    decreases DepthLimit - level, 1
  {
    match ChildList(s, inner, |inner|, typeName, path + [PathEntry(f.name, typeName)], level + 1)
    case Err(e) => Err(e)
    case Ok(rs) =>
      Ok(Rendered(
        Braced(Head(level, f), Join("\n", Survivors(rs)), level),
        |f.args| > 0 || AnyHasArgs(rs),
        ArgVars(f.args) + AllVars(rs)))
  }

  /**
   * The renderings of the first `i` fields of `inner` (a type called
   * `typeName`) as children below `path` at depth `level`, in order; the
   * first failing child fails the whole list.
   */
  function ChildList(s: Schema, inner: seq<FieldDef>, i: nat, typeName: string, path: seq<PathEntry>, level: nat)
    : (r: Result<seq<Rendered>, Error>)
    requires i <= |inner|
    requires level <= DepthLimit
    decreases DepthLimit - level + 1, 0, i
    ensures r.Ok? ==> |r.value| == i
  {
    if i == 0 then Ok([])
    else
      match ChildList(s, inner, i - 1, typeName, path, level)
      case Err(e) => Err(e)
      case Ok(rs) =>
        match Field(s, inner[i - 1].name, typeName, path, level)
        case Err(e) => Err(e)
        case Ok(child) =>
          assert (rs + [child])[..i - 1] == rs;
          Ok(rs + [child])
  }

  lemma FieldUnfold(s: Schema, name: string, parentType: string, path: seq<PathEntry>, level: nat, f: FieldDef)
    requires FieldsOf(s, parentType).Ok? && LookupField(FieldsOf(s, parentType).value, name) == Some(f)
    ensures Field(s, name, parentType, path, level) == FoundField(s, f, path, level)
  {
  }

  lemma FoundFieldExpands(s: Schema, f: FieldDef, path: seq<PathEntry>, level: nat)
    requires !Pruned(path, ResolvedType(f), level)
    requires ResolvedType(f) in s.types && s.types[ResolvedType(f)].Composite?
    ensures FoundField(s, f, path, level)
         == Expanded(s, f, s.types[ResolvedType(f)].fields, ResolvedType(f), path, level)
  {
  }

  /** Rendering one more child extends the list and each of its summaries by that child. */
  lemma ChildListStep(s: Schema, inner: seq<FieldDef>, i: nat, typeName: string, path: seq<PathEntry>, level: nat)
    requires i < |inner| && level <= DepthLimit
    requires ChildList(s, inner, i, typeName, path, level).Ok?
    requires Field(s, inner[i].name, typeName, path, level).Ok?
    ensures var rs := ChildList(s, inner, i, typeName, path, level).value;
      var c := Field(s, inner[i].name, typeName, path, level).value;
      && ChildList(s, inner, i + 1, typeName, path, level) == Ok(rs + [c])
      && Survivors(rs + [c]) == Survivors(rs) + (if c.query != "" then [c.query] else [])
      && (AnyHasArgs(rs + [c]) <==> AnyHasArgs(rs) || c.hasArgs)
      && AllVars(rs + [c]) == AllVars(rs) + c.vars
  {
    var rs := ChildList(s, inner, i, typeName, path, level).value;
    var c := Field(s, inner[i].name, typeName, path, level).value;
    assert (rs + [c])[..i] == rs;
  }

  /**
   * The reduce over the children keeps its accumulator equal to the fold of
   * the survivors so far, its flag equal to whether any child so far
   * reports arguments, and the variables equal to all the children's so far.
   */
  ghost predicate ReducedUpTo(s: Schema, inner: seq<FieldDef>, i: nat, typeName: string, path: seq<PathEntry>, level: nat,
                              acc: string, hasArgs: bool, metaHasArgs: bool, vars: seq<Var>)
    requires i <= |inner| && level <= DepthLimit
  {
    && ChildList(s, inner, i, typeName, path, level).Ok?
    && acc == Fold("\n", Survivors(ChildList(s, inner, i, typeName, path, level).value))
    && metaHasArgs == (hasArgs || AnyHasArgs(ChildList(s, inner, i, typeName, path, level).value))
    && vars == AllVars(ChildList(s, inner, i, typeName, path, level).value)
  }

  lemma ReducedUpToStep(s: Schema, inner: seq<FieldDef>, i: nat, typeName: string, path: seq<PathEntry>, level: nat,
                        acc: string, hasArgs: bool, metaHasArgs: bool, vars: seq<Var>, c: Rendered)
    requires i < |inner| && level <= DepthLimit
    requires ReducedUpTo(s, inner, i, typeName, path, level, acc, hasArgs, metaHasArgs, vars)
    requires Field(s, inner[i].name, typeName, path, level) == Ok(c)
    ensures ReducedUpTo(s, inner, i + 1, typeName, path, level,
                        if c.query != "" then acc + "\n" + c.query else acc,
                        hasArgs, metaHasArgs || c.hasArgs, vars + c.vars)
  {
    var rs := ChildList(s, inner, i, typeName, path, level).value;
    ChildListStep(s, inner, i, typeName, path, level);
    if c.query != "" {
      FoldAppend("\n", Survivors(rs), c.query);
    } else {
      assert Survivors(rs) + [] == Survivors(rs);
    }
  }

  /** A failing child fails the whole list of children with its error. */
  lemma ChildListFailsAt(s: Schema, inner: seq<FieldDef>, i: nat, typeName: string, path: seq<PathEntry>, level: nat)
    requires i < |inner| && level <= DepthLimit
    requires ChildList(s, inner, i, typeName, path, level).Ok?
    requires Field(s, inner[i].name, typeName, path, level).Err?
    ensures ChildList(s, inner, |inner|, typeName, path, level) == Err(Field(s, inner[i].name, typeName, path, level).error)
  {
    ChildListErrPersists(s, inner, i + 1, |inner|, typeName, path, level);
  }

  /** Once a child fails, every longer list of children fails with the same error. */
  lemma {:induction false} ChildListErrPersists(s: Schema, inner: seq<FieldDef>, i: nat, j: nat, typeName: string, path: seq<PathEntry>, level: nat)
    requires i <= j <= |inner| && level <= DepthLimit
    requires ChildList(s, inner, i, typeName, path, level).Err?
    ensures ChildList(s, inner, j, typeName, path, level) == ChildList(s, inner, i, typeName, path, level)
  {
    if j > i {
      ChildListErrPersists(s, inner, i, j - 1, typeName, path, level);
    }
  }
}
