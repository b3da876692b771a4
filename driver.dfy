/**
 * The document-producing part of the driver (index.js:241-315): for each root
 * operation type the schema declares, mutations first, then queries, then
 * subscriptions, it generates one document per root field in declaration
 * order. The source passes the literal owner names `'Mutation'`, `'Query'`
 * and `'Subscription'` to `generateQuery` rather than the names of the
 * schema's root types; `DocumentsForRoots` is the same traversal passing the
 * root types' own names.
 */
module Driver {
  import opened Wrappers
  import opened GraphSchema
  import opened Render
  import opened Operation
  import opened Generator
  import opened OperationProperties

  /** One generated document: the folder it goes to, the root field it is for, and its text. */
  datatype Emitted = Emitted(kind: OperationKind, name: string, query: string)

  /** `Object.keys(rootType.getFields())` */
  function FieldNames(fs: seq<FieldDef>): (r: seq<string>)
    ensures |r| == |fs| && forall i :: 0 <= i < |fs| ==> r[i] == fs[i].name
  {
    seq(|fs|, i requires 0 <= i < |fs| => fs[i].name)
  }

  /** The owner name index.js:244, 271 and 296 pass for each kind of operation. */
  function Literal(k: OperationKind): string
  {
    match k
    case MutationOp => "Mutation"
    case QueryOp => "Query"
    case SubscriptionOp => "Subscription"
  }

  /** What `generateQuery(name, parentType)` yields for each of the root field names, in order. */
  function Generated(s: Schema, names: seq<string>, parentType: string): (r: seq<Result<Document, Error>>)
    ensures |r| == |names|
  {
    seq(|names|, i requires 0 <= i < |names| => QueryDocument(s, names[i], parentType))
  }

  /**
   * The `forEach` over the root field names with their documents `docs`:
   * every document is emitted in order, and the first failure aborts the run.
   */
  function Collect(k: OperationKind, names: seq<string>, docs: seq<Result<Document, Error>>): Result<seq<Emitted>, Error>
    requires |docs| == |names|
  {
    if names == [] then Ok([])
    else
      var n := |names| - 1;
      var done :- Collect(k, names[..n], docs[..n]);
      var doc :- docs[n];
      Ok(done + [Emitted(k, names[n], doc.query)])
  }

  /** The documents for root fields `names` owned by `parentType`. */
  function DocsFor(s: Schema, k: OperationKind, names: seq<string>, parentType: string): Result<seq<Emitted>, Error>
  {
    Collect(k, names, Generated(s, names, parentType))
  }

  /**
   * The owner name passed for root fields of kind `k`: the literal the source
   * writes, or, with `asWritten` false, the name of the schema's root type.
   */
  function Owner(s: Schema, k: OperationKind, asWritten: bool): string
    requires RootName(s, k).Some?
  {
    if asWritten then Literal(k) else RootName(s, k).value
  }

  /** The documents of one kind: none when the schema has no such root type. */
  function Section(s: Schema, k: OperationKind, asWritten: bool): Result<seq<Emitted>, Error>
  {
    if RootName(s, k).None? then Ok([])
    else
      var fs :- FieldsOf(s, RootName(s, k).value);
      DocsFor(s, k, FieldNames(fs), Owner(s, k, asWritten))
  }

  /** All documents in the order the driver produces them: mutations, queries, subscriptions. */
  function AllDocuments(s: Schema, asWritten: bool): Result<seq<Emitted>, Error>
  {
    var mutations :- Section(s, MutationOp, asWritten);
    var queries :- Section(s, QueryOp, asWritten);
    var subscriptions :- Section(s, SubscriptionOp, asWritten);
    Ok(mutations + queries + subscriptions)
  }

  /** The documents as the source produces them, owners named literally. */
  function Documents(s: Schema): Result<seq<Emitted>, Error>
  {
    AllDocuments(s, true)
  }

  /** The documents with each root field owned by the schema's own root type. */
  function DocumentsForRoots(s: Schema): Result<seq<Emitted>, Error>
  {
    AllDocuments(s, false)
  }

  /** Once a document fails, every longer run over the same names fails with its error. */
  lemma {:induction false} CollectErrPersists(k: OperationKind, names: seq<string>, docs: seq<Result<Document, Error>>,
                                              i: nat, j: nat)
    requires |docs| == |names| && i <= j <= |names|
    requires Collect(k, names[..i], docs[..i]).Err?
    ensures Collect(k, names[..j], docs[..j]) == Collect(k, names[..i], docs[..i])
  {
    if j > i {
      CollectErrPersists(k, names, docs, i, j - 1);
      assert names[..j][..j - 1] == names[..j - 1];
      assert docs[..j][..j - 1] == docs[..j - 1];
    }
  }

  /** One more document extends the run by it, or fails the run with its error. */
  lemma CollectStep(k: OperationKind, names: seq<string>, docs: seq<Result<Document, Error>>, i: nat, done: seq<Emitted>)
    requires |docs| == |names| && i < |names|
    requires Collect(k, names[..i], docs[..i]) == Ok(done)
    ensures docs[i].Ok? ==> Collect(k, names[..i + 1], docs[..i + 1]) == Ok(done + [Emitted(k, names[i], docs[i].value.query)])
    ensures docs[i].Err? ==> Collect(k, names, docs) == Err(docs[i].error)
  {
    assert names[..i + 1][..i] == names[..i];
    assert docs[..i + 1][..i] == docs[..i];
    if docs[i].Err? {
      CollectErrPersists(k, names, docs, i + 1, |names|);
      assert names[..|names|] == names;
      assert docs[..|names|] == docs;
    }
  }

  /**
   * The `forEach` over the fields of one root type (index.js:241-315 runs
   * three of them), calling `generateQuery` for each and collecting the
   * documents the source writes out.
   */
  method GenerateSection(s: Schema, k: OperationKind, asWritten: bool) returns (r: Result<seq<Emitted>, Error>)
    ensures r == Section(s, k, asWritten)
  {
    if RootName(s, k).None? {
      return Ok([]);
    }
    var fields := FieldsOf(s, RootName(s, k).value);
    if fields.Err? {
      return Err(fields.error);
    }
    var names := FieldNames(fields.value);
    var parentType := Owner(s, k, asWritten);
    ghost var docs := Generated(s, names, parentType);
    var done: seq<Emitted> := [];
    var i := 0;
    while i < |names|
      invariant 0 <= i <= |names|
      invariant Collect(k, names[..i], docs[..i]) == Ok(done)
    {
      var doc := GenerateQuery(s, names[i], parentType);
      assert doc == docs[i];
      CollectStep(k, names, docs, i, done);
      if doc.Err? {
        return Err(doc.error);
      }
      done := done + [Emitted(k, names[i], doc.value.query)];
      i := i + 1;
    }
    assert names[..i] == names && docs[..i] == docs;
    return Ok(done);
  }

  /**
   * The three driver loops, in the order of the source. With `asWritten`
   * they pass the source's literal owner names and compute `Documents`;
   * without, they pass the root types' own names and compute
   * `DocumentsForRoots`.
   */
  method GenerateDocuments(s: Schema, asWritten: bool) returns (r: Result<seq<Emitted>, Error>)
    ensures r == AllDocuments(s, asWritten)
    ensures asWritten ==> r == Documents(s)
    ensures !asWritten ==> r == DocumentsForRoots(s)
  {
    var mutations := GenerateSection(s, MutationOp, asWritten);
    if mutations.Err? {
      return Err(mutations.error);
    }
    var queries := GenerateSection(s, QueryOp, asWritten);
    if queries.Err? {
      return Err(queries.error);
    }
    var subscriptions := GenerateSection(s, SubscriptionOp, asWritten);
    if subscriptions.Err? {
      return Err(subscriptions.error);
    }
    return Ok(mutations.value + queries.value + subscriptions.value);
  }

  // ----- properties -----

  /** A run succeeds exactly when every document does. */
  lemma {:induction false} CollectSucceeds(k: OperationKind, names: seq<string>, docs: seq<Result<Document, Error>>)
    requires |docs| == |names|
    ensures Collect(k, names, docs).Ok? <==> forall i :: 0 <= i < |docs| ==> docs[i].Ok?
  {
    if names != [] {
      var n := |names| - 1;
      CollectSucceeds(k, names[..n], docs[..n]);
      assert forall i :: 0 <= i < n ==> docs[..n][i] == docs[i];
    }
  }

  /** A successful run emits one document per root field name, in order. */
  lemma {:induction false} CollectShape(k: OperationKind, names: seq<string>, docs: seq<Result<Document, Error>>)
    requires |docs| == |names|
    requires Collect(k, names, docs).Ok?
    ensures var ds := Collect(k, names, docs).value;
      && |ds| == |names|
      && forall i :: 0 <= i < |names| ==> docs[i].Ok? && ds[i] == Emitted(k, names[i], docs[i].value.query)
  {
    CollectSucceeds(k, names, docs);
    if names != [] {
      var n := |names| - 1;
      CollectShape(k, names[..n], docs[..n]);
      var ds := Collect(k, names, docs).value;
      forall i | 0 <= i < n ensures docs[i].Ok? && ds[i] == Emitted(k, names[i], docs[i].value.query) {
        assert names[..n][i] == names[i] && docs[..n][i] == docs[i];
      }
    }
  }

  /** The position of a kind in the driver's order: mutations, queries, subscriptions. */
  function Rank(k: OperationKind): nat
  {
    match k
    case MutationOp => 0
    case QueryOp => 1
    case SubscriptionOp => 2
  }

  /** The documents of one kind are those of the root type's fields, in declaration order. */
  lemma SectionShape(s: Schema, k: OperationKind, asWritten: bool)
    requires Section(s, k, asWritten).Ok?
    ensures var xs := Section(s, k, asWritten).value;
      && (RootName(s, k).None? ==> xs == [])
      && (RootName(s, k).Some? ==>
            var fs := s.types[RootName(s, k).value].fields;
            && |xs| == |fs|
            && forall i :: 0 <= i < |fs| ==> xs[i].kind == k && xs[i].name == fs[i].name)
  {
    if RootName(s, k).Some? {
      var names := FieldNames(FieldsOf(s, RootName(s, k).value).value);
      CollectShape(k, names, Generated(s, names, Owner(s, k, asWritten)));
    }
  }

  /** Mutations come first, then queries, then subscriptions. */
  lemma DocumentsOrdered(s: Schema, asWritten: bool)
    requires AllDocuments(s, asWritten).Ok?
    ensures var ds := AllDocuments(s, asWritten).value;
      forall i, j :: 0 <= i < j < |ds| ==> Rank(ds[i].kind) <= Rank(ds[j].kind)
  {
    var m := Section(s, MutationOp, asWritten).value;
    var q := Section(s, QueryOp, asWritten).value;
    var u := Section(s, SubscriptionOp, asWritten).value;
    SectionShape(s, MutationOp, asWritten);
    SectionShape(s, QueryOp, asWritten);
    SectionShape(s, SubscriptionOp, asWritten);
    assert AllDocuments(s, asWritten).value == m + q + u;
    ConcatRanked(m, q, u);
  }

  /** Three runs holding mutations, queries and subscriptions, concatenated in that order, are ordered by kind. */
  lemma ConcatRanked(m: seq<Emitted>, q: seq<Emitted>, u: seq<Emitted>)
    requires forall i :: 0 <= i < |m| ==> m[i].kind == MutationOp
    requires forall i :: 0 <= i < |q| ==> q[i].kind == QueryOp
    requires forall i :: 0 <= i < |u| ==> u[i].kind == SubscriptionOp
    ensures var ds := m + q + u;
      forall i, j :: 0 <= i < j < |ds| ==> Rank(ds[i].kind) <= Rank(ds[j].kind)
  {
    var ds := m + q + u;
    forall i | 0 <= i < |ds| ensures Rank(ds[i].kind) == if i < |m| then 0 else if i < |m| + |q| then 1 else 2 {
      if i < |m| {
        assert ds[i] == m[i];
      } else if i < |m| + |q| {
        assert ds[i] == q[i - |m|];
      } else {
        assert ds[i] == u[i - |m| - |q|];
      }
    }
  }

  /** With root types named as the literals the source passes, the source's run is the corrected one. */
  lemma ConventionalNamesAgree(s: Schema)
    requires forall k :: RootName(s, k).Some? ==> RootName(s, k).value == Literal(k)
    ensures Documents(s) == DocumentsForRoots(s)
  {
    assert RootName(s, MutationOp).Some? ==> RootName(s, MutationOp).value == Literal(MutationOp);
    assert RootName(s, QueryOp).Some? ==> RootName(s, QueryOp).value == Literal(QueryOp);
    assert RootName(s, SubscriptionOp).Some? ==> RootName(s, SubscriptionOp).value == Literal(SubscriptionOp);
  }

  /** In a well-formed schema every root field of every kind yields a document with that kind's keyword. */
  lemma SectionSucceeds(s: Schema, k: OperationKind)
    requires WellFormed(s)
    ensures Section(s, k, false).Ok?
    ensures forall d :: d in Section(s, k, false).value ==> Keyword(k) + " " + d.name <= d.query
  {
    if RootName(s, k).Some? {
      var t := RootName(s, k).value;
      var fs := s.types[t].fields;
      var names := FieldNames(fs);
      var docs := Generated(s, names, t);
      forall i | 0 <= i < |names|
        ensures docs[i].Ok?
        ensures Keyword(k) + " " + names[i] <= docs[i].value.query
      {
        assert fs[i] in fs;
        RootFieldDocument(s, k, names[i]);
      }
      CollectSucceeds(k, names, docs);
      CollectShape(k, names, docs);
    }
  }

  /** In a well-formed schema the corrected run never fails. */
  lemma DocumentsForRootsSucceed(s: Schema)
    requires WellFormed(s)
    ensures DocumentsForRoots(s).Ok?
    ensures forall d :: d in DocumentsForRoots(s).value ==> Keyword(d.kind) + " " + d.name <= d.query
  {
    SectionSucceeds(s, MutationOp);
    SectionSucceeds(s, QueryOp);
    SectionSucceeds(s, SubscriptionOp);
    SectionShape(s, MutationOp, false);
    SectionShape(s, QueryOp, false);
    SectionShape(s, SubscriptionOp, false);
  }
}
