/**
 * `generateQuery` and its inner `generateFieldData` (index.js:75-203) as the
 * code runs them: one generator object per request owns the `argTypes`
 * accumulator, and the recursive method appends to it and builds the text
 * with `+=`, as the source does.
 */
module Generator {
  import opened Wrappers
  import opened GraphSchema
  import opened Names
  import opened Text
  import opened Render
  import opened Operation
  import opened RenderProperties

  /** What `generateFieldData` returns: `{ query, meta: { hasArgs } }`. */
  datatype FieldData = FieldData(query: string, hasArgs: bool)

  /** The accumulator of the `reduce` over the child fields, and `meta.hasArgs` after it. */
  datatype Reduced = Reduced(acc: string, hasArgs: bool)

  /**
   * The method's outcome matches the specification `spec`: the same text and
   * flag, with exactly the specified variables appended to `argTypes`; or the
   * same error, with `argTypes` only grown.
   */
  ghost predicate Agrees(spec: Result<Rendered, Error>, r: Result<FieldData, Error>, before: seq<Var>, after: seq<Var>)
  {
    if spec.Ok? then r == Ok(FieldData(spec.value.query, spec.value.hasArgs)) && after == before + spec.value.vars
    else r == Err(spec.error) && before <= after
  }

  /**
   * One call of the `reduce` callback matches the specification `spec` of the
   * child it renders: the child's text is appended after a newline when it is
   * not empty, its flag is or-ed in, and exactly its variables are appended;
   * or the callback fails with the child's error.
   */
  ghost predicate StepAgrees(spec: Result<Rendered, Error>, acc: string, metaHasArgs: bool,
                             r: Result<Reduced, Error>, before: seq<Var>, after: seq<Var>)
  {
    if spec.Ok? then
      && r == Ok(Reduced(if spec.value.query != "" then acc + "\n" + spec.value.query else acc,
                         metaHasArgs || spec.value.hasArgs))
      && after == before + spec.value.vars
    else r == Err(spec.error) && before <= after
  }

  /**
   * The whole `reduce` matches the specification `spec` of the children:
   * the fold of the surviving children's text, the flag or-ed with every
   * child's, and exactly their variables appended; or the first child's error.
   */
  ghost predicate ReduceAgrees(spec: Result<seq<Rendered>, Error>, hasArgs: bool,
                               r: Result<Reduced, Error>, before: seq<Var>, after: seq<Var>)
  {
    if spec.Ok? then
      && r == Ok(Reduced(Fold("\n", Survivors(spec.value)), hasArgs || AnyHasArgs(spec.value)))
      && after == before + AllVars(spec.value)
    else r == Err(spec.error) && before <= after
  }

  /** A callback that agrees with its child advances the reduction by one child, or fails the whole list. */
  lemma AdvanceReduction(s: Schema, inner: seq<FieldDef>, i: nat, typeName: string, path: seq<PathEntry>, level: nat,
                         acc: string, hasArgs: bool, metaHasArgs: bool,
                         next: Result<Reduced, Error>, start: seq<Var>, before: seq<Var>, after: seq<Var>)
    requires i < |inner| && level <= DepthLimit && start <= before
    requires ReducedUpTo(s, inner, i, typeName, path, level, acc, hasArgs, metaHasArgs, before[|start|..])
    requires StepAgrees(Field(s, inner[i].name, typeName, path, level), acc, metaHasArgs, next, before, after)
    ensures start <= after
    ensures next.Ok? ==>
      ReducedUpTo(s, inner, i + 1, typeName, path, level, next.value.acc, hasArgs, next.value.hasArgs, after[|start|..])
    ensures next.Err? ==>
      ReduceAgrees(ChildList(s, inner, |inner|, typeName, path, level), hasArgs, next, start, after)
  {
    match Field(s, inner[i].name, typeName, path, level)
    case Ok(c) =>
      SuffixAppend(start, before, after, c.vars);
      ReducedUpToStep(s, inner, i, typeName, path, level, acc, hasArgs, metaHasArgs, before[|start|..], c);
    case Err(_) =>
      PrefixTrans(start, before, after);
      ChildListFailsAt(s, inner, i, typeName, path, level);
  }

  /** A reduction that has seen every child agrees with the specification of all of them. */
  lemma FinishReduction(s: Schema, inner: seq<FieldDef>, typeName: string, path: seq<PathEntry>, level: nat,
                        acc: string, hasArgs: bool, metaHasArgs: bool, start: seq<Var>, after: seq<Var>)
    requires level <= DepthLimit && start <= after
    requires ReducedUpTo(s, inner, |inner|, typeName, path, level, acc, hasArgs, metaHasArgs, after[|start|..])
    ensures ReduceAgrees(ChildList(s, inner, |inner|, typeName, path, level), hasArgs,
                         Ok(Reduced(acc, metaHasArgs)), start, after)
  {
    assert after == start + after[|start|..];
  }

  class FieldGenerator {
    const schema: Schema
    /** `[{ name: '$id', type: 'Int!' }, …]` */
    var argTypes: seq<Var>

    constructor (schema: Schema)
      ensures this.schema == schema && argTypes == []
    {
      this.schema := schema;
      argTypes := [];
    }

    method GenerateFieldData(name: string, parentType: string, parentFields: seq<PathEntry>, level: nat)
      returns (r: Result<FieldData, Error>)
      requires DistinctTypes(parentFields)
      modifies this
      decreases DepthLimit - level, 2
      ensures Agrees(Field(schema, name, parentType, parentFields, level), r, old(argTypes), argTypes)
    {
      var fields := FieldsOf(schema, parentType);
      if fields.Err? {
        return Err(fields.error);
      }
      var found := LookupField(fields.value, name);
      if found.None? {
        return Err(FieldNotFound(parentType, name));
      }
      var field := found.value;
      FieldUnfold(schema, name, parentType, parentFields, level, field);
      var hasArgs := false;
      var fieldStr := Indent(level) + field.name;

      // The arguments are declared before the field may be discarded below.
      if |field.args| > 0 {
        hasArgs := true;
        fieldStr := fieldStr + "(" + ArgsList(field.args) + ")";
        DeclareArgs(field.args);
      } else {
        assert ArgVars(field.args) == [];
      }

      var curTypeName := CleanName(Inspect(field.typ));
      if OnPath(parentFields, curTypeName) {
        return Ok(FieldData("", false));
      }
      if level >= DepthLimit {
        return Ok(FieldData("", false));
      }
      if curTypeName !in schema.types {
        return Err(TypeNotFound(curTypeName));
      }
      var curType := schema.types[curTypeName];
      if curType.Leaf? {
        return Ok(FieldData(fieldStr, hasArgs));
      }

      FoundFieldExpands(schema, field, parentFields, level);
      ghost var before := argTypes;
      var reduced := ReduceInnerFields(name, curTypeName, curType.fields, parentFields, level, hasArgs);
      if reduced.Err? {
        assert old(argTypes) <= before <= argTypes;
        return Err(reduced.error);
      }
      ConcatAssoc(old(argTypes), ArgVars(field.args), argTypes[|before|..]);
      hasArgs := reduced.value.hasArgs;
      var innerFieldsData := Substring(reduced.value.acc, 1);
      ghost var rs := ChildList(schema, curType.fields, |curType.fields|, curTypeName,
                                parentFields + [PathEntry(name, curTypeName)], level + 1).value;
      FoldThenSubstringIsJoin("\n", Survivors(rs));
      if innerFieldsData != "" {
        fieldStr := fieldStr + "{\n" + innerFieldsData + "\n";
        fieldStr := fieldStr + Indent(level) + "}";
      }
      return Ok(FieldData(fieldStr, hasArgs));
    }

    /** The `forEach` of index.js:108-113: every argument of the field is recorded as a `$`-prefixed variable, in order. */
    method DeclareArgs(args: seq<ArgDef>)
      modifies this
      ensures argTypes == old(argTypes) + ArgVars(args)
    {
      var j := 0;
      while j < |args|
        invariant 0 <= j <= |args|
        invariant argTypes == old(argTypes) + ArgVars(args[..j])
      {
        assert ArgVars(args[..j + 1]) == ArgVars(args[..j]) + [VarOf(args[j])];
        argTypes := argTypes + [VarOf(args[j])];
        j := j + 1;
      }
      assert args[..j] == args;
    }

    /**
     * The `reduce` over the fields of the current field's type
     * (index.js:135-163), with `meta.hasArgs` threaded through as `hasArgs`.
     */
    method ReduceInnerFields(name: string, curTypeName: string, innerFields: seq<FieldDef>,
                             parentFields: seq<PathEntry>, level: nat, hasArgs: bool)
      returns (r: Result<Reduced, Error>)
      requires !OnPath(parentFields, curTypeName) && level < DepthLimit
      requires DistinctTypes(parentFields)
      modifies this
      decreases DepthLimit - level, 1
      ensures ReduceAgrees(ChildList(schema, innerFields, |innerFields|, curTypeName,
                                     parentFields + [PathEntry(name, curTypeName)], level + 1),
                           hasArgs, r, old(argTypes), argTypes)
    {
      var childPath := parentFields + [PathEntry(name, curTypeName)];
      ghost var start := argTypes;
      var acc := "";
      var metaHasArgs := hasArgs;
      var i := 0;
      while i < |innerFields|
        invariant 0 <= i <= |innerFields|
        invariant start <= argTypes
        invariant ReducedUpTo(schema, innerFields, i, curTypeName, childPath, level + 1,
                              acc, hasArgs, metaHasArgs, argTypes[|start|..])
      {
        var next := ReduceStep(acc, innerFields, i, name, curTypeName, parentFields, level,
                               hasArgs, metaHasArgs, start);
        if next.Err? {
          return Err(next.error);
        }
        acc, metaHasArgs := next.value.acc, next.value.hasArgs;
        i := i + 1;
      }
      FinishReduction(schema, innerFields, curTypeName, childPath, level + 1,
                      acc, hasArgs, metaHasArgs, start, argTypes);
      return Ok(Reduced(acc, metaHasArgs));
    }

    /**
     * The callback of that `reduce` (index.js:136-162) for the child field
     * `innerFields[i]`: it advances the reduction by that child, whose
     * variables land after those of the children before it, or fails the
     * whole reduction. Its skip branch, which would reset the accumulator,
     * never fires: the caller has already returned for every path that holds
     * `curTypeName`.
     */
    method ReduceStep(acc: string, innerFields: seq<FieldDef>, i: nat, name: string, curTypeName: string,
                      parentFields: seq<PathEntry>, level: nat, hasArgs: bool, metaHasArgs: bool, ghost start: seq<Var>)
      returns (r: Result<Reduced, Error>)
      requires !OnPath(parentFields, curTypeName) && level < DepthLimit && i < |innerFields|
      requires DistinctTypes(parentFields)
      requires start <= argTypes
      requires ReducedUpTo(schema, innerFields, i, curTypeName, parentFields + [PathEntry(name, curTypeName)], level + 1,
                           acc, hasArgs, metaHasArgs, argTypes[|start|..])
      modifies this
      decreases DepthLimit - level, 0
      ensures start <= argTypes
      ensures r.Ok? ==>
        ReducedUpTo(schema, innerFields, i + 1, curTypeName, parentFields + [PathEntry(name, curTypeName)], level + 1,
                    r.value.acc, hasArgs, r.value.hasArgs, argTypes[|start|..])
      ensures r.Err? ==>
        ReduceAgrees(ChildList(schema, innerFields, |innerFields|, curTypeName,
                               parentFields + [PathEntry(name, curTypeName)], level + 1),
                     hasArgs, r, start, argTypes)
    {
      var cur := innerFields[i].name;
      SkipBranchDead(parentFields, cur, curTypeName);
      if SkipPair(parentFields, cur, curTypeName) {
        assert false;
        return Ok(Reduced("", metaHasArgs));
      }
      ghost var before := argTypes;
      ExtendedPathDistinct(parentFields, name, curTypeName);
      var curInnerFieldData := GenerateFieldData(cur, curTypeName, parentFields + [PathEntry(name, curTypeName)], level + 1);
      if curInnerFieldData.Err? {
        r := Err(curInnerFieldData.error);
      } else {
        var curInnerFieldStr := curInnerFieldData.value.query;
        var childHasArgs := metaHasArgs || curInnerFieldData.value.hasArgs;
        if curInnerFieldStr == "" {
          r := Ok(Reduced(acc, childHasArgs));
        } else {
          r := Ok(Reduced(acc + "\n" + curInnerFieldStr, childHasArgs));
        }
      }
      AdvanceReduction(schema, innerFields, i, curTypeName, parentFields + [PathEntry(name, curTypeName)], level + 1,
                       acc, hasArgs, metaHasArgs, r, start, before, argTypes);
    }
  }

  /** `generateQuery(curName, curParentType)`, with a fresh accumulator for this request. */
  method GenerateQuery(s: Schema, curName: string, curParentType: string) returns (r: Result<Document, Error>)
    ensures r == QueryDocument(s, curName, curParentType)
  {
    var generator := new FieldGenerator(s);
    var fieldData := generator.GenerateFieldData(curName, curParentType, [], 1);
    if fieldData.Err? {
      return Err(fieldData.error);
    }
    ghost var root := Field(s, curName, curParentType, [], 1).value;
    assert generator.argTypes == root.vars by {
      assert [] + root.vars == root.vars;
    }
    var argStr := VarDecls(generator.argTypes);
    var query := "";
    if s.queryType == Some(curParentType) {
      HeaderText(QueryOp, "query ", curName, Params(argStr));
      query := query + "query " + curName + Params(argStr);
    } else if s.mutationType == Some(curParentType) {
      HeaderText(MutationOp, "mutation ", curName, Params(argStr));
      query := query + "mutation " + curName + Params(argStr);
    } else if s.subscriptionType == Some(curParentType) {
      HeaderText(SubscriptionOp, "subscription ", curName, Params(argStr));
      query := query + "subscription " + curName + Params(argStr);
    } else {
      return Err(NotARootType(curParentType));
    }
    assert query == Keyword(Classify(s, curParentType).value) + " " + curName + Params(argStr);
    query := query + "{\n" + fieldData.value.query + "\n}";
    return Ok(Document(query, false || fieldData.value.hasArgs));
  }
}
