/**
 * Operation Builder: the document `generateQuery` returns (index.js:175-203).
 * The owning type is classified against the schema's root type names, in the
 * order of the source's `switch`, and the header declares every variable the
 * traversal collected.
 */
module Operation {
  import opened Wrappers
  import opened GraphSchema
  import opened Text
  import opened Render

  datatype OperationKind = QueryOp | MutationOp | SubscriptionOp

  function Keyword(k: OperationKind): string
  {
    match k
    case QueryOp => "query"
    case MutationOp => "mutation"
    case SubscriptionOp => "subscription"
  }

  /** The name of the schema's root type for operations of kind `k`, if it declares one. */
  function RootName(s: Schema, k: OperationKind): Option<string>
  {
    match k
    case QueryOp => s.queryType
    case MutationOp => s.mutationType
    case SubscriptionOp => s.subscriptionType
  }

  /** The keyword of `k` followed by one space, as the source writes it in a single literal. */
  lemma HeaderText(k: OperationKind, spaced: string, curName: string, params: string)
    requires spaced == match k
      case QueryOp => "query "
      case MutationOp => "mutation "
      case SubscriptionOp => "subscription "
    ensures "" + spaced + curName + params == Keyword(k) + " " + curName + params
  {
    assert "" + spaced == Keyword(k) + " ";
  }

  /** What `generateQuery` returns: `{ query, meta: { hasArgs } }`. */
  datatype Document = Document(query: string, hasArgs: bool)

  /** The `switch (curParentType)` of index.js:180-192. */
  function Classify(s: Schema, typeName: string): Result<OperationKind, Error>
  {
    if s.queryType == Some(typeName) then Ok(QueryOp)
    else if s.mutationType == Some(typeName) then Ok(MutationOp)
    else if s.subscriptionType == Some(typeName) then Ok(SubscriptionOp)
    else Err(NotARootType(typeName))
  }

  /** `$id: ID!` */
  function VarDecl(v: Var): string
  {
    v.name + ": " + Inspect(v.typ)
  }

  /** `argTypes.map(a => `${a.name}: ${a.type}`).join(', ')` */
  function VarDecls(vars: seq<Var>): string
  {
    Join(", ", seq(|vars|, i requires 0 <= i < |vars| => VarDecl(vars[i])))
  }

  /** The parenthesised variable list, left out when it is empty. */
  function Params(argStr: string): string
  {
    if argStr != "" then "(" + argStr + ")" else ""
  }

  /** The document for root field `curName` of root type `curParentType`. */
  function QueryDocument(s: Schema, curName: string, curParentType: string): Result<Document, Error>
  {
    var root :- Field(s, curName, curParentType, [], 1);
    var kind :- Classify(s, curParentType);
    Ok(Document(Keyword(kind) + " " + curName + Params(VarDecls(root.vars)) + "{\n" + root.query + "\n}", root.hasArgs))
  }
}
