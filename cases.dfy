/**
 * Concrete schemas and what the generator makes of them.
 */
module Cases {
  import opened Wrappers
  import opened GraphSchema
  import opened Render
  import opened Operation
  import opened Names
  import opened Text
  import opened RenderProperties
  import opened OperationProperties
  import opened Driver

  /** `type RootQuery { ping: String }` declared as `schema { query: RootQuery }`. */
  function CustomRootSchema(): Schema
  {
    Schema(map["RootQuery" := Composite([FieldDef("ping", [], Named("String"))]), "String" := Leaf],
           Some("RootQuery"), None, None)
  }

  /**
   * The driver passes the literal `'Query'` as owner of every query root
   * field, so a schema whose query root has another name fails on its first
   * field: there is no type `Query` to look the field up in.
   */
  lemma CustomRootNameFails()
    ensures Documents(CustomRootSchema()) == Err(TypeNotFound("Query"))
  {
    var s := CustomRootSchema();
    assert Section(s, MutationOp, true) == Ok([]);
    assert FieldNames(s.types["RootQuery"].fields) == ["ping"];
    assert Field(s, "ping", "Query", [], 1) == Err(TypeNotFound("Query"));
    assert Generated(s, ["ping"], "Query")[0] == Err(TypeNotFound("Query"));
  }

  /** Passing the root type's own name generates the document. */
  lemma CustomRootNameCorrected()
    ensures DocumentsForRoots(CustomRootSchema()) == Ok([Emitted(QueryOp, "ping", "query ping{\n    ping\n}")])
  {
    var s := CustomRootSchema();
    var f := FieldDef("ping", [], Named("String"));
    assert FieldsOf(s, "RootQuery") == Ok([f]);
    CleanNameKeepsUnmarked("String");
    assert ResolvedType(f) == "String";
    SingleLeafQueryDocuments(s, "RootQuery", f);
    PingText(f);
  }

  /** The document text for `ping` spelled out. */
  lemma PingText(f: FieldDef)
    requires f.name == "ping"
    ensures LeafQueryText(f) == "query ping{\n    ping\n}"
  {
    IndentOne();
  }

  /** One level of indentation is four spaces. */
  lemma IndentOne()
    ensures Indent(1) == "    "
  {
    var sp := Indent(1);
    assert |sp| == 4;
    assert sp == [sp[0], sp[1], sp[2], sp[3]];
  }

  /** The query document for a root field without arguments whose type is a leaf. */
  function LeafQueryText(f: FieldDef): string
  {
    "query " + f.name + "{\n" + Indent(1) + f.name + "\n}"
  }

  /**
   * A schema whose only root type is a query root holding a single field,
   * without arguments and of a leaf type, yields one document: `query`, the
   * field name, and the field name indented one level between braces.
   */
  lemma SingleLeafQueryDocuments(s: Schema, owner: string, f: FieldDef)
    requires s.queryType == Some(owner) && s.mutationType.None? && s.subscriptionType.None?
    requires FieldsOf(s, owner) == Ok([f]) && f.args == []
    requires ResolvedType(f) in s.types && s.types[ResolvedType(f)].Leaf?
    ensures DocumentsForRoots(s) == Ok([Emitted(QueryOp, f.name, LeafQueryText(f))])
  {
    LeafQueryDocument(s, owner, f);
    var docs := Generated(s, [f.name], owner);
    CollectOne(QueryOp, f.name, docs, Document(LeafQueryText(f), false));
    assert FieldNames([f]) == [f.name];
    var e := Emitted(QueryOp, f.name, LeafQueryText(f));
    assert Section(s, QueryOp, false) == Ok([e]);
    assert [] + [e] + [] == [e];
  }

  /** The document for such a field: no variables, and the bare field name as the body. */
  lemma LeafQueryDocument(s: Schema, owner: string, f: FieldDef)
    requires s.queryType == Some(owner)
    requires FieldsOf(s, owner) == Ok([f]) && f.args == []
    requires ResolvedType(f) in s.types && s.types[ResolvedType(f)].Leaf?
    ensures QueryDocument(s, f.name, owner) == Ok(Document(LeafQueryText(f), false))
  {
    assert LookupField([f], f.name) == Some(f);
    LeafIsHead(s, f.name, owner, [], 1, f);
    var root := Rendered(Indent(1) + f.name, false, []);
    assert Head(1, f) == root.query && ArgVars(f.args) == [];
    assert Classify(s, owner) == Ok(QueryOp);
    DocumentShape(s, f.name, owner, root, QueryOp);
    assert Keyword(QueryOp) + " " + f.name + "" + "{\n" + root.query + "\n}" == LeafQueryText(f);
  }

  /** A single root field whose document succeeds yields exactly that document. */
  lemma CollectOne(k: OperationKind, name: string, docs: seq<Result<Document, Error>>, d: Document)
    requires docs == [Ok(d)]
    ensures Collect(k, [name], docs) == Ok([Emitted(k, name, d.query)])
  {
    assert [name][..0] == [] && docs[..0] == [];
    assert Collect(k, [], []) == Ok([]);
    assert [] + [Emitted(k, name, d.query)] == [Emitted(k, name, d.query)];
  }
}
