/**
 * The read-only type graph that `buildSchema` produces, reduced to what the
 * generator consults: types by name, the ordered fields of object-like types,
 * each field's ordered arguments and declared type reference, and the names
 * of the three root operation types.
 */
module GraphSchema {
  import opened Wrappers

  /** A declared type reference such as `[User!]!`. */
  datatype TypeRef = Named(name: string) | ListOf(item: TypeRef) | NonNull(inner: TypeRef)

  /** The printed form of a type reference (graphql's `inspect()` / `toString()`). */
  function Inspect(t: TypeRef): string
  {
    match t
    case Named(n) => n
    case ListOf(item) => "[" + Inspect(item) + "]"
    case NonNull(inner) => Inspect(inner) + "!"
  }

  /** The named type at the core of a reference, under all list and non-null wrappers. */
  function BaseName(t: TypeRef): string
  {
    match t
    case Named(n) => n
    case ListOf(item) => BaseName(item)
    case NonNull(inner) => BaseName(inner)
  }

  datatype ArgDef = ArgDef(name: string, typ: TypeRef)

  datatype FieldDef = FieldDef(name: string, args: seq<ArgDef>, typ: TypeRef)

  /**
   * A type either exposes `getFields()` (object, interface and input types),
   * with its fields in declaration order, or does not (scalars, enums, unions).
   */
  datatype TypeDef = Composite(fields: seq<FieldDef>) | Leaf

  datatype Schema = Schema(
    types: map<string, TypeDef>,
    queryType: Option<string>,
    mutationType: Option<string>,
    subscriptionType: Option<string>)

  /** The ways a generation request fails. */
  datatype Error =
    | TypeNotFound(typeName: string)                  // getType(..) is undefined
    | NoFields(typeName: string)                      // the type has no getFields()
    | FieldNotFound(typeName: string, fieldName: string)
    | NotARootType(typeName: string)                  // the Error thrown by generateQuery

  /** `gqlSchema.getType(typeName).getFields()`, failing where JavaScript would throw. */
  function FieldsOf(s: Schema, typeName: string): (r: Result<seq<FieldDef>, Error>)
    ensures r.Ok? <==> typeName in s.types && s.types[typeName].Composite?
    ensures r.Ok? ==> r.value == s.types[typeName].fields
  {
    if typeName !in s.types then Err(TypeNotFound(typeName))
    else match s.types[typeName]
      case Leaf => Err(NoFields(typeName))
      case Composite(fs) => Ok(fs)
  }

  /** `getFields()[name]`: the first field called `name`, if any. */
  function LookupField(fs: seq<FieldDef>, name: string): (r: Option<FieldDef>)
    ensures r.Some? ==> r.value in fs && r.value.name == name
    ensures r.None? ==> forall f :: f in fs ==> f.name != name
  {
    if fs == [] then None
    else if fs[0].name == name then Some(fs[0])
    else LookupField(fs[1..], name)
  }

  predicate IsMarker(c: char)
  {
    c == '[' || c == ']' || c == '!'
  }

  predicate NoMarkers(s: string)
  {
    forall i :: 0 <= i < |s| ==> !IsMarker(s[i])
  }

  /** Every field of every object-like type refers to a type of the schema by a plain name. */
  ghost predicate TypesResolve(s: Schema)
  {
    forall t, i ::
      t in s.types && s.types[t].Composite? && 0 <= i < |s.types[t].fields| ==>
        var b := BaseName(s.types[t].fields[i].typ);
        b in s.types && NoMarkers(b)
  }

  /** A root operation type, when declared, is an object-like type of the schema. */
  ghost predicate RootResolves(s: Schema, root: Option<string>)
  {
    root.Some? ==> root.value in s.types && s.types[root.value].Composite?
  }

  /**
   * A consistent schema: field types resolve, which graphql's SDL validation
   * checks; the roots are object types and their names differ, which are
   * rules of section 3.3.1 of the GraphQL specification.
   */
  ghost predicate WellFormed(s: Schema)
  {
    && TypesResolve(s)
    && RootResolves(s, s.queryType)
    && RootResolves(s, s.mutationType)
    && RootResolves(s, s.subscriptionType)
    && (s.queryType.Some? && s.mutationType.Some? ==> s.queryType.value != s.mutationType.value)
    && (s.queryType.Some? && s.subscriptionType.Some? ==> s.queryType.value != s.subscriptionType.value)
    && (s.mutationType.Some? && s.subscriptionType.Some? ==> s.mutationType.value != s.subscriptionType.value)
  }

  /** Field and argument names are single-line, as graphql names are. */
  ghost predicate SingleLineNames(s: Schema)
  {
    forall t, i ::
      t in s.types && s.types[t].Composite? && 0 <= i < |s.types[t].fields| ==>
        var f := s.types[t].fields[i];
        '\n' !in f.name && forall j :: 0 <= j < |f.args| ==> '\n' !in f.args[j].name
  }
}
