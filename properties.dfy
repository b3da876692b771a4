/**
 * What the rendering of a field promises: the pruning rules, the shape of
 * the text, how arguments are bubbled up, and that a consistent schema never
 * makes the generator fail.
 */
module RenderProperties {
  import opened Wrappers
  import opened GraphSchema
  import opened Names
  import opened Text
  import opened Render

  // ----- pruning -----

  /**
   * A field whose type is already on the ancestor path, or that sits at the
   * depth limit, renders as empty text and reports no arguments, but still
   * declares its own arguments.
   */
  lemma PrunedFieldIsEmpty(s: Schema, name: string, parentType: string, path: seq<PathEntry>, level: nat, f: FieldDef)
    requires FieldsOf(s, parentType).Ok? && LookupField(FieldsOf(s, parentType).value, name) == Some(f)
    requires OnPath(path, ResolvedType(f)) || level >= DepthLimit
    ensures Field(s, name, parentType, path, level) == Ok(Rendered("", false, ArgVars(f.args)))
  {
    FieldUnfold(s, name, parentType, path, level, f);
  }

  /**
   * Only fields below the depth limit whose type is not on their ancestor
   * path produce text: every emitted field sits at a level under 100.
   */
  lemma EmittedWithinLimits(s: Schema, name: string, parentType: string, path: seq<PathEntry>, level: nat, f: FieldDef)
    requires FieldsOf(s, parentType).Ok? && LookupField(FieldsOf(s, parentType).value, name) == Some(f)
    requires Field(s, name, parentType, path, level).Ok? && Field(s, name, parentType, path, level).value.query != ""
    ensures level < DepthLimit && !OnPath(path, ResolvedType(f))
  {
    if Pruned(path, ResolvedType(f), level) {
      PrunedFieldIsEmpty(s, name, parentType, path, level, f);
    }
  }

  /** The root is rendered with an empty path at level 1, so neither the cycle rule nor the depth limit discards it. */
  lemma RootNotPruned(f: FieldDef)
    ensures !Pruned([], ResolvedType(f), 1)
  {
  }

  /** The skip branch of the child `reduce` is dead: a path without `typ` holds no entry of type `typ`. */
  lemma SkipBranchDead(path: seq<PathEntry>, name: string, typ: string)
    requires !OnPath(path, typ)
    ensures !SkipPair(path, name, typ)
  {
  }

  /** No two entries of the path share a type. */
  predicate DistinctTypes(path: seq<PathEntry>)
  {
    forall i, j :: 0 <= i < j < |path| ==> path[i].typ != path[j].typ
  }

  /**
   * Children are rendered below `path + [(name, typ)]` only when `typ` is not
   * on `path` (see `Render.FoundField`); this step keeps the types distinct.
   * `Generator.FieldGenerator.ReduceStep` applies it before each recursive
   * call, and `DistinctTypes` is a precondition of every generator method,
   * met by the root's empty path.
   */
  lemma ExtendedPathDistinct(path: seq<PathEntry>, name: string, typ: string)
    requires DistinctTypes(path) && !OnPath(path, typ)
    ensures DistinctTypes(path + [PathEntry(name, typ)])
  {
    var p := path + [PathEntry(name, typ)];
    forall i, j | 0 <= i < j < |p| ensures p[i].typ != p[j].typ {
      if j == |path| {
        assert path[i].typ != typ;
      }
    }
  }

  // ----- the argument list -----

  /** The argument list is the bindings `a: $a` in declaration order, separated by `, `. */
  lemma ArgsListIsJoin(args: seq<ArgDef>)
    ensures ArgsList(args) == Join(", ", Bindings(args))
    ensures |Bindings(args)| == |args| && forall i :: 0 <= i < |args| ==> Bindings(args)[i] == args[i].name + ": $" + args[i].name
  {
    FoldThenSubstringIsJoin(", ", Bindings(args));
  }

  // ----- the flag and the variables -----

  /** A rendering that reports arguments has declared at least one variable. */
  lemma {:induction false} FieldHasArgsHasVars(s: Schema, name: string, parentType: string, path: seq<PathEntry>, level: nat)
    decreases DepthLimit - level, 3
    ensures var r := Field(s, name, parentType, path, level); r.Ok? && r.value.hasArgs ==> r.value.vars != []
  {
    match FieldsOf(s, parentType)
    case Err(_) =>
    case Ok(fs) =>
      match LookupField(fs, name)
      case None =>
      case Some(f) => FoundFieldHasArgsHasVars(s, f, path, level);
  }

  lemma {:induction false} FoundFieldHasArgsHasVars(s: Schema, f: FieldDef, path: seq<PathEntry>, level: nat)
    decreases DepthLimit - level, 2
    ensures var r := FoundField(s, f, path, level); r.Ok? && r.value.hasArgs ==> r.value.vars != []
  {
    var typeName := ResolvedType(f);
    if !Pruned(path, typeName, level) && typeName in s.types && s.types[typeName].Composite? {
      ExpandedHasArgsHasVars(s, f, s.types[typeName].fields, typeName, path, level);
    }
  }

  lemma {:induction false} ExpandedHasArgsHasVars(s: Schema, f: FieldDef, inner: seq<FieldDef>, typeName: string,
                                                  path: seq<PathEntry>, level: nat)
    requires level < DepthLimit
    decreases DepthLimit - level, 1
    ensures var r := Expanded(s, f, inner, typeName, path, level); r.Ok? && r.value.hasArgs ==> r.value.vars != []
  {
    ChildListHasArgsHasVars(s, inner, |inner|, typeName, path + [PathEntry(f.name, typeName)], level + 1);
    if |f.args| > 0 {
      assert ArgVars(f.args)[0] == VarOf(f.args[0]);
    }
  }

  lemma {:induction false} ChildListHasArgsHasVars(s: Schema, inner: seq<FieldDef>, i: nat, typeName: string,
                                                   path: seq<PathEntry>, level: nat)
    requires i <= |inner| && level <= DepthLimit
    decreases DepthLimit - level + 1, 0, i
    ensures var r := ChildList(s, inner, i, typeName, path, level); r.Ok? && AnyHasArgs(r.value) ==> AllVars(r.value) != []
  {
    if i > 0 {
      ChildListHasArgsHasVars(s, inner, i - 1, typeName, path, level);
      FieldHasArgsHasVars(s, inner[i - 1].name, typeName, path, level);
      if ChildList(s, inner, i - 1, typeName, path, level).Ok? && Field(s, inner[i - 1].name, typeName, path, level).Ok? {
        ChildListStep(s, inner, i - 1, typeName, path, level);
      }
    }
  }

  /** A field's own arguments come first among its variables, before those of its descendants. */
  lemma OwnArgsFirst(s: Schema, name: string, parentType: string, path: seq<PathEntry>, level: nat, f: FieldDef)
    requires FieldsOf(s, parentType).Ok? && LookupField(FieldsOf(s, parentType).value, name) == Some(f)
    requires Field(s, name, parentType, path, level).Ok?
    ensures ArgVars(f.args) <= Field(s, name, parentType, path, level).value.vars
  {
    FieldUnfold(s, name, parentType, path, level, f);
  }

  // ----- consistent schemas never fail -----

  /**
   * When every field of the schema refers to a type of the schema, rendering
   * a field the type declares never fails.
   */
  lemma {:induction false} FieldSucceeds(s: Schema, name: string, parentType: string, path: seq<PathEntry>, level: nat)
    requires TypesResolve(s)
    requires parentType in s.types && s.types[parentType].Composite?
    requires LookupField(s.types[parentType].fields, name).Some?
    decreases DepthLimit - level, 3
    ensures Field(s, name, parentType, path, level).Ok?
  {
    var fs := s.types[parentType].fields;
    var f := LookupField(fs, name).value;
    FieldUnfold(s, name, parentType, path, level, f);
    var i :| 0 <= i < |fs| && fs[i] == f;
    FoundFieldSucceeds(s, f, path, level);
  }

  lemma {:induction false} FoundFieldSucceeds(s: Schema, f: FieldDef, path: seq<PathEntry>, level: nat)
    requires TypesResolve(s)
    requires BaseName(f.typ) in s.types && NoMarkers(BaseName(f.typ))
    decreases DepthLimit - level, 2
    ensures FoundField(s, f, path, level).Ok?
  {
    CleanNameOfInspect(f.typ);
    var typeName := ResolvedType(f);
    if !Pruned(path, typeName, level) && s.types[typeName].Composite? {
      ExpandedSucceeds(s, f, s.types[typeName].fields, typeName, path, level);
    }
  }

  lemma {:induction false} ExpandedSucceeds(s: Schema, f: FieldDef, inner: seq<FieldDef>, typeName: string,
                                            path: seq<PathEntry>, level: nat)
    requires level < DepthLimit
    requires TypesResolve(s)
    requires typeName in s.types && s.types[typeName] == Composite(inner)
    decreases DepthLimit - level, 1
    ensures Expanded(s, f, inner, typeName, path, level).Ok?
  {
    ChildListSucceeds(s, inner, |inner|, typeName, path + [PathEntry(f.name, typeName)], level + 1);
  }

  lemma {:induction false} ChildListSucceeds(s: Schema, inner: seq<FieldDef>, i: nat, typeName: string,
                                             path: seq<PathEntry>, level: nat)
    requires i <= |inner| && level <= DepthLimit
    requires TypesResolve(s)
    requires typeName in s.types && s.types[typeName] == Composite(inner)
    decreases DepthLimit - level + 1, 0, i
    ensures ChildList(s, inner, i, typeName, path, level).Ok?
  {
    if i > 0 {
      ChildListSucceeds(s, inner, i - 1, typeName, path, level);
      assert inner[i - 1] in inner;
      FieldSucceeds(s, inner[i - 1].name, typeName, path, level);
    }
  }

  // ----- indentation -----

  /** The field's own name and its arguments' names hold no line break. */
  predicate NamesSingleLine(f: FieldDef)
  {
    SingleLine(f.name) && forall j :: 0 <= j < |f.args| ==> SingleLine(f.args[j].name)
  }

  /** The head of a field is one line that starts with the field's indentation. */
  lemma HeadIsIndentedLine(level: nat, f: FieldDef)
    requires NamesSingleLine(f)
    ensures SingleLine(Head(level, f))
    ensures IndentAt(Head(level, f), 0, level * TabSize)
  {
    var b := Bindings(f.args);
    assert forall i :: 0 <= i < |b| ==> SingleLine(b[i]);
    FoldSingleLine(", ", b);
    var k := level * TabSize;
    var h := Head(level, f);
    assert h[..k] == Indent(level);
  }

  /** A one-line head indented by `level * 4`, with an indented block, gives an indented text. */
  lemma BracedIndented(head: string, body: string, level: nat)
    requires SingleLine(head) && IndentAt(head, 0, level * TabSize)
    requires body != "" && LinesIndented(body, level * TabSize)
    ensures LinesIndented(Braced(head, body, level), level * TabSize)
  {
    var k := level * TabSize;
    var a := head + "{";
    var c := Indent(level) + "}";
    assert a[..k] == head[..k];
    SingleLineIndented(a, k);
    assert c[..k] == Indent(level);
    SingleLineIndented(c, k);
    IndentedConcat(a, body, k);
    IndentedConcat(a + "\n" + body, c, k);
    assert Braced(head, body, level) == a + "\n" + body + "\n" + c;
  }

  /** Every line of a field's non-empty rendering begins with `level * 4` spaces. */
  lemma {:induction false} FieldLinesIndented(s: Schema, name: string, parentType: string, path: seq<PathEntry>, level: nat)
    requires SingleLineNames(s)
    decreases DepthLimit - level, 3
    ensures var r := Field(s, name, parentType, path, level);
      r.Ok? && r.value.query != "" ==> LinesIndented(r.value.query, level * TabSize)
  {
    match FieldsOf(s, parentType)
    case Err(_) =>
    case Ok(fs) =>
      match LookupField(fs, name)
      case None =>
      case Some(f) =>
        var i :| 0 <= i < |fs| && fs[i] == f;
        FoundFieldLinesIndented(s, f, path, level);
  }

  lemma {:induction false} FoundFieldLinesIndented(s: Schema, f: FieldDef, path: seq<PathEntry>, level: nat)
    requires SingleLineNames(s) && NamesSingleLine(f)
    decreases DepthLimit - level, 2
    ensures var r := FoundField(s, f, path, level);
      r.Ok? && r.value.query != "" ==> LinesIndented(r.value.query, level * TabSize)
  {
    var typeName := ResolvedType(f);
    if !Pruned(path, typeName, level) && typeName in s.types {
      match s.types[typeName]
      case Leaf =>
        HeadIsIndentedLine(level, f);
        SingleLineIndented(Head(level, f), level * TabSize);
      case Composite(inner) =>
        ExpandedLinesIndented(s, f, inner, typeName, path, level);
    }
  }

  lemma {:induction false} ExpandedLinesIndented(s: Schema, f: FieldDef, inner: seq<FieldDef>, typeName: string,
                                                 path: seq<PathEntry>, level: nat)
    requires level < DepthLimit
    requires SingleLineNames(s) && NamesSingleLine(f)
    decreases DepthLimit - level, 1
    ensures var r := Expanded(s, f, inner, typeName, path, level);
      r.Ok? && r.value.query != "" ==> LinesIndented(r.value.query, level * TabSize)
  {
    var childPath := path + [PathEntry(f.name, typeName)];
    var k := level * TabSize;
    ChildListLinesIndented(s, inner, |inner|, typeName, childPath, level + 1);
    HeadIsIndentedLine(level, f);
    var head := Head(level, f);
    match ChildList(s, inner, |inner|, typeName, childPath, level + 1)
    case Err(_) =>
    case Ok(rs) =>
      var surv := Survivors(rs);
      var body := Join("\n", surv);
      if body == "" {
        SingleLineIndented(head, k);
      } else {
        assert surv != [];
        forall q | q in surv ensures LinesIndented(q, k) {
          IndentedWeaken(q, k, TabSize);
        }
        IndentedJoinLines(surv, k);
        BracedIndented(head, body, level);
      }
  }

  lemma {:induction false} ChildListLinesIndented(s: Schema, inner: seq<FieldDef>, i: nat, typeName: string,
                                                  path: seq<PathEntry>, level: nat)
    requires i <= |inner| && level <= DepthLimit
    requires SingleLineNames(s)
    decreases DepthLimit - level + 1, 0, i
    ensures var r := ChildList(s, inner, i, typeName, path, level);
      r.Ok? ==> forall q :: q in Survivors(r.value) ==> LinesIndented(q, level * TabSize)
  {
    if i > 0 {
      ChildListLinesIndented(s, inner, i - 1, typeName, path, level);
      FieldLinesIndented(s, inner[i - 1].name, typeName, path, level);
      if ChildList(s, inner, i - 1, typeName, path, level).Ok? && Field(s, inner[i - 1].name, typeName, path, level).Ok? {
        ChildListStep(s, inner, i - 1, typeName, path, level);
      }
    }
  }

  // ----- the shape of the text -----

  /**
   * The surviving texts keep the children's order: the survivors of a run
   * of children are those of its first `k` children followed by those of
   * the rest.
   */
  lemma {:induction false} SurvivorsSplit(rs: seq<Rendered>, k: nat)
    requires k <= |rs|
    ensures Survivors(rs) == Survivors(rs[..k]) + Survivors(rs[k..])
  {
    if k == |rs| {
      assert rs[..k] == rs && rs[k..] == [];
    } else {
      var init := rs[..|rs| - 1];
      var last := if rs[|rs| - 1].query != "" then [rs[|rs| - 1].query] else [];
      SurvivorsSplit(init, k);
      assert init[..k] == rs[..k];
      assert rs[k..][..|rs[k..]| - 1] == init[k..];
      assert rs[k..][|rs[k..]| - 1] == rs[|rs| - 1];
      assert Survivors(rs[k..]) == Survivors(init[k..]) + last;
      ConcatAssoc(Survivors(rs[..k]), Survivors(init[k..]), last);
    }
  }

  /** A single child survives exactly when its text is not empty. */
  lemma SurvivorsOne(r: Rendered)
    ensures Survivors([r]) == if r.query != "" then [r.query] else []
  {
    assert [r][..0] == [];
  }

  /** The surviving texts are exactly the non-empty texts among the children. */
  lemma {:induction false} SurvivorsAreNonEmptyTexts(rs: seq<Rendered>)
    ensures forall q :: q in Survivors(rs) <==> exists j :: 0 <= j < |rs| && rs[j].query == q && q != ""
  {
    if rs != [] {
      var init := rs[..|rs| - 1];
      SurvivorsAreNonEmptyTexts(init);
      forall q ensures q in Survivors(rs) <==> exists j :: 0 <= j < |rs| && rs[j].query == q && q != "" {
        if q in Survivors(init) {
          var j :| 0 <= j < |init| && init[j].query == q && q != "";
          assert rs[j] == init[j];
        }
        if exists j :: 0 <= j < |rs| && rs[j].query == q && q != "" {
          var j :| 0 <= j < |rs| && rs[j].query == q && q != "";
          if j < |init| {
            assert init[j] == rs[j];
          }
        }
      }
    }
  }

  /**
   * A field of an object-like type that is not pruned renders as its bare
   * head when no child produced text, and otherwise as its head followed by
   * `{`, the children's texts one per line, and a closing `}` line indented
   * like the head.
   */
  lemma ExpandedShape(s: Schema, name: string, parentType: string, path: seq<PathEntry>, level: nat,
                      f: FieldDef, rs: seq<Rendered>)
    requires FieldsOf(s, parentType).Ok? && LookupField(FieldsOf(s, parentType).value, name) == Some(f)
    requires !Pruned(path, ResolvedType(f), level)
    requires ResolvedType(f) in s.types && s.types[ResolvedType(f)].Composite?
    requires ChildList(s, s.types[ResolvedType(f)].fields, |s.types[ResolvedType(f)].fields|, ResolvedType(f),
                       path + [PathEntry(f.name, ResolvedType(f))], level + 1) == Ok(rs)
    ensures Field(s, name, parentType, path, level) == Ok(Rendered(
      if Survivors(rs) == [] then Head(level, f)
      else Head(level, f) + "{\n" + Join("\n", Survivors(rs)) + "\n" + Indent(level) + "}",
      |f.args| > 0 || AnyHasArgs(rs),
      ArgVars(f.args) + AllVars(rs)))
  {
    FieldUnfold(s, name, parentType, path, level, f);
    FoundFieldExpands(s, f, path, level);
    SurvivorsAreNonEmptyTexts(rs);
    var surv := Survivors(rs);
    forall i | 0 <= i < |surv| ensures surv[i] != "" {
      assert surv[i] in surv;
    }
    JoinEmpty("\n", surv);
  }

  /** A field whose type has no fields renders as its bare head. */
  lemma LeafIsHead(s: Schema, name: string, parentType: string, path: seq<PathEntry>, level: nat, f: FieldDef)
    requires FieldsOf(s, parentType).Ok? && LookupField(FieldsOf(s, parentType).value, name) == Some(f)
    requires !Pruned(path, ResolvedType(f), level)
    requires ResolvedType(f) in s.types && s.types[ResolvedType(f)].Leaf?
    ensures Field(s, name, parentType, path, level) == Ok(Rendered(Head(level, f), |f.args| > 0, ArgVars(f.args)))
  {
    FieldUnfold(s, name, parentType, path, level, f);
  }

  /** A field that is not pruned renders as text that starts with its head. */
  lemma UnprunedStartsWithHead(s: Schema, name: string, parentType: string, path: seq<PathEntry>, level: nat, f: FieldDef)
    requires FieldsOf(s, parentType).Ok? && LookupField(FieldsOf(s, parentType).value, name) == Some(f)
    requires !Pruned(path, ResolvedType(f), level)
    requires Field(s, name, parentType, path, level).Ok?
    ensures Head(level, f) <= Field(s, name, parentType, path, level).value.query
  {
    FieldUnfold(s, name, parentType, path, level, f);
    var typeName := ResolvedType(f);
    if s.types[typeName].Composite? {
      FoundFieldExpands(s, f, path, level);
    }
  }

  /** The root field (empty path, level 1) is never pruned: its text starts with four spaces and its name. */
  lemma RootStartsWithName(s: Schema, name: string, parentType: string, f: FieldDef)
    requires FieldsOf(s, parentType).Ok? && LookupField(FieldsOf(s, parentType).value, name) == Some(f)
    requires Field(s, name, parentType, [], 1).Ok?
    ensures "    " + f.name <= Field(s, name, parentType, [], 1).value.query
  {
    UnprunedStartsWithHead(s, name, parentType, [], 1, f);
    assert Indent(1) == "    ";
  }
}
