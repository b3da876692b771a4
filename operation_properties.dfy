/**
 * What the document `generateQuery` returns promises: its keyword names the
 * root operation type that owns the field, its header declares the collected
 * variables (and has no parentheses when there are none), and a consistent
 * schema always yields one.
 */
module OperationProperties {
  import opened Wrappers
  import opened GraphSchema
  import opened Text
  import opened Render
  import opened RenderProperties
  import opened Operation

  /** The variable list is empty exactly when no variable was collected. */
  lemma VarDeclsEmpty(vars: seq<Var>)
    ensures VarDecls(vars) == "" <==> vars == []
  {
    var decls := seq(|vars|, i requires 0 <= i < |vars| => VarDecl(vars[i]));
    forall i | 0 <= i < |decls| ensures decls[i] != "" {
      assert |VarDecl(vars[i])| >= 2;
    }
    JoinEmpty(", ", decls);
  }

  /** The declarations of two runs of variables are those of the first, `, `, then those of the second. */
  lemma VarDeclsConcat(xs: seq<Var>, ys: seq<Var>)
    requires xs != [] && ys != []
    ensures VarDecls(xs + ys) == VarDecls(xs) + ", " + VarDecls(ys)
  {
    var a := seq(|xs|, i requires 0 <= i < |xs| => VarDecl(xs[i]));
    var b := seq(|ys|, i requires 0 <= i < |ys| => VarDecl(ys[i]));
    assert seq(|xs + ys|, i requires 0 <= i < |xs + ys| => VarDecl((xs + ys)[i])) == a + b;
    JoinConcat(", ", a, b);
  }

  /**
   * The header declares the root field's own arguments first: its variable
   * list starts with `$a: T` for each of them, in declaration order.
   */
  lemma HeaderOwnArgsFirst(s: Schema, name: string, parentType: string, f: FieldDef)
    requires FieldsOf(s, parentType).Ok? && LookupField(FieldsOf(s, parentType).value, name) == Some(f)
    requires Field(s, name, parentType, [], 1).Ok?
    ensures VarDecls(ArgVars(f.args)) <= VarDecls(Field(s, name, parentType, [], 1).value.vars)
  {
    OwnArgsFirst(s, name, parentType, [], 1, f);
    VarDeclsPrefix(ArgVars(f.args), Field(s, name, parentType, [], 1).value.vars);
  }

  /** Declaring a prefix of the variables gives a prefix of the declarations. */
  lemma VarDeclsPrefix(own: seq<Var>, vars: seq<Var>)
    requires own <= vars
    ensures VarDecls(own) <= VarDecls(vars)
  {
    var rest := vars[|own|..];
    assert vars == own + rest;
    if own == [] {
      VarDeclsEmpty(own);
    } else if rest == [] {
      assert vars == own;
    } else {
      VarDeclsConcat(own, rest);
    }
  }

  /**
   * The keyword is chosen by comparing the owning type with the query, the
   * mutation and the subscription root names, in that order; any other type
   * is refused.
   */
  lemma ClassifyChoice(s: Schema, typeName: string)
    ensures Classify(s, typeName) == Ok(QueryOp) <==> s.queryType == Some(typeName)
    ensures Classify(s, typeName) == Ok(MutationOp) <==>
      s.queryType != Some(typeName) && s.mutationType == Some(typeName)
    ensures Classify(s, typeName) == Ok(SubscriptionOp) <==>
      s.queryType != Some(typeName) && s.mutationType != Some(typeName) && s.subscriptionType == Some(typeName)
    ensures Classify(s, typeName) == Err(NotARootType(typeName)) <==>
      s.queryType != Some(typeName) && s.mutationType != Some(typeName) && s.subscriptionType != Some(typeName)
  {
  }

  /** In a well-formed schema the root names are distinct, so the keyword is the one of the owning root. */
  lemma ClassifyWellFormed(s: Schema, typeName: string, k: OperationKind)
    requires WellFormed(s)
    requires RootName(s, k) == Some(typeName)
    ensures Classify(s, typeName) == Ok(k)
  {
  }

  /**
   * The document is `<keyword> <name>`, then `(<declarations>)` only when a
   * variable was collected, then the root field's text between `{` and `}`
   * on lines of their own; its flag is the root field's.
   */
  lemma DocumentShape(s: Schema, curName: string, curParentType: string, root: Rendered, k: OperationKind)
    requires Field(s, curName, curParentType, [], 1) == Ok(root)
    requires Classify(s, curParentType) == Ok(k)
    ensures QueryDocument(s, curName, curParentType) == Ok(Document(
      Keyword(k) + " " + curName
        + (if root.vars == [] then "" else "(" + VarDecls(root.vars) + ")")
        + "{\n" + root.query + "\n}",
      root.hasArgs))
  {
    VarDeclsEmpty(root.vars);
  }

  /** A field that renders fails the request exactly when its owner is not a root type. */
  lemma DocumentFailsOnlyOffRoot(s: Schema, curName: string, curParentType: string)
    requires Field(s, curName, curParentType, [], 1).Ok?
    ensures QueryDocument(s, curName, curParentType).Err? <==>
      s.queryType != Some(curParentType) && s.mutationType != Some(curParentType) && s.subscriptionType != Some(curParentType)
    ensures QueryDocument(s, curName, curParentType).Err? ==>
      QueryDocument(s, curName, curParentType).error == NotARootType(curParentType)
  {
  }

  /** In a well-formed schema, every field of every root type yields a document with that root's keyword. */
  lemma RootFieldDocument(s: Schema, k: OperationKind, curName: string)
    requires WellFormed(s)
    requires RootName(s, k).Some?
    requires LookupField(s.types[RootName(s, k).value].fields, curName).Some?
    ensures QueryDocument(s, curName, RootName(s, k).value).Ok?
    ensures Keyword(k) + " " + curName <= QueryDocument(s, curName, RootName(s, k).value).value.query
  {
    var t := RootName(s, k).value;
    FieldSucceeds(s, curName, t, [], 1);
    ClassifyWellFormed(s, t, k);
    DocumentShape(s, curName, t, Field(s, curName, t, [], 1).value, k);
  }
}
