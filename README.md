# gql-generator: the query generator, modelled in Dafny

gql-generator reads a GraphQL schema. For every field of every root
operation type it writes one operation document that selects the field and,
recursively, everything below it. This project models the part of `index.js`
that computes those documents:

- `cleanName` (index.js:65-67) strips the list and non-null markers `[`, `]`
  and `!` from a printed type reference.
- `generateFieldData` (index.js:87-173) renders one field as text:
  - its name, indented by `level * 4` spaces;
  - its argument list `(a: $a, …)`, while every argument is also appended to
    the request's `argTypes` accumulator as a `$a: Type` variable;
  - the cycle rule (a type already on the ancestor path) and the depth limit
    100, which both discard the field;
  - a `{ … }` block holding the non-empty renderings of its children, one
    per line.
- `generateQuery` (index.js:75-203) renders the root field at level 1 with
  an empty path. It picks `query`, `mutation` or `subscription` by comparing
  the owning type with the schema's root type names, or fails. It then
  writes the header with every collected variable around the rendered body.
- The document-producing part of the three driver loops (index.js:241-315)
  runs mutations, then queries, then subscriptions, one document per root
  field in declaration order.

The model has two layers:

- `Render.Field` and its mutually recursive companions `FoundField`,
  `Expanded` and `ChildList` are the reference definition of a rendering.
  They use values only: the text, the `hasArgs` flag, and the variables in
  the order the code collects them.
- `Generator.FieldGenerator` is the code as written. A class owns the
  mutable `argTypes` sequence. `GenerateFieldData` is a recursive method that
  grows its text with `+`. It threads the `reduce` accumulator through a
  loop, keeps the callback's dead "skip" branch, and ends with
  `substring(1)`. Its contract ties each result, and each new `argTypes`, to
  the reference definition.

The properties of the generator are proved about that reference definition:

- `RenderProperties`: pruning, text shape, indentation, argument bubbling,
  and success on consistent schemas.
- `OperationProperties`: the document header.
- `Driver`: order and completeness of the emitted documents.

Failures the JavaScript would raise are values of `GraphSchema.Error`:

- a `TypeError` on an undefined type, a type without `getFields`, or an
  unknown field;
- the `Error` thrown at index.js:191.

No precondition excludes them. `GraphSchema.WellFormed` describes a
consistent schema: every field's type exists, every declared root is an object
type, and the three root names differ. graphql's SDL validation checks that
every referenced type exists. That the roots are object types and that their
names differ are rules of the GraphQL specification (section 3.3.1, "Root
Operation Types"); `index.js` checks neither. On such schemas the `…Succeeds`
lemmas show two things. First, `generateQuery` never fails when given a root
field and its root type's own name. Second, the corrected driver
`Driver.DocumentsForRoots` never fails. The driver as written can still fail
on a well-formed schema whose root types have custom names; see
"## Findings".

Modules and files:

| file | module | contents |
|---|---|---|
| wrappers.dfy | Wrappers | `Option`, `Result` |
| schema.dfy | GraphSchema | type references and their printer, fields, types, schema, errors, lookups |
| names.dfy | Names | `cleanName` |
| text.dfy | Text | spaces, `substring`, join, left fold, line indentation |
| render.dfy | Render | reference rendering of a field |
| generator.dfy | Generator | `generateFieldData` and `generateQuery` as imperative code |
| operation.dfy | Operation | keyword choice and document assembly |
| properties.dfy | RenderProperties | properties of the rendering |
| operation_properties.dfy | OperationProperties | properties of the document |
| driver.dfy | Driver | the three driver loops |
| cases.dfy | Cases | a concrete schema with a custom query root name |

## Model

| member | source | states |
|---|---|---|
| Names.CleanName | index.js:65-67 | the result has no `[`, `]` or `!`; it holds exactly the input's other characters and is no longer than the input |
| Names.CleanNameConcat | index.js:65-67 | the global replace works character by character: cleaning a concatenation concatenates the cleaned parts, so order is kept |
| Names.CleanNameKeepsUnmarked | index.js:65-67 | a string without markers is returned unchanged |
| Names.CleanNameIdempotent | index.js:65-67 | cleaning twice is cleaning once |
| Names.CleanNameOfInspect | index.js:117 | cleaning a printed type reference such as `[User!]!` gives the bare type name under all wrappers |
| GraphSchema.FieldsOf | index.js:91 | `getType(t).getFields()` succeeds exactly when `t` is a type of the schema that has fields, and yields those fields |
| GraphSchema.LookupField | index.js:91 | `getFields()[name]` finds a field of that name when there is one, and reports absence only when no field has that name |
| Text.Spaces | index.js:98 | `' '.repeat(n)` has length `n` and holds only spaces |
| Text.FoldIsJoin | index.js:135-163 | the `reduce` that puts `\n` before every piece equals the newline join with one leading separator |
| Text.FoldThenSubstringIsJoin | index.js:163 | cutting the first character off that fold gives exactly the join, with no leading newline |
| Generator.FieldGenerator.constructor | index.js:78 | each request starts with an empty `argTypes` |
| Generator.FieldGenerator.GenerateFieldData | index.js:87-173 | given a path with distinct types, as every call in a request has, the method returns the text and `hasArgs` of `Render.Field` and appends exactly its variables to `argTypes`; on failure it returns the same error |
| Generator.FieldGenerator.DeclareArgs | index.js:108-113 | every argument is appended to `argTypes` as `$name` with its type, in declaration order, after what was there |
| Generator.FieldGenerator.ReduceInnerFields | index.js:134-164 | the `reduce` over the child fields yields the fold of the children's non-empty texts and the flag or-ed with every child's; it appends all children's variables in order, or fails with the first child's error |
| Generator.FieldGenerator.ReduceStep | index.js:136-162 | one callback extends the reduction by one child: its text after a newline when non-empty, its flag, its variables; the skip branch never fires, by `RenderProperties.SkipBranchDead` |
| Generator.GenerateQuery | index.js:75-203 | the document returned is `Operation.QueryDocument` for the field and owner, or the same error |
| RenderProperties.PrunedFieldIsEmpty | index.js:101-129 | a field whose type is on the path, or at level 100 or deeper, renders as empty text with a false flag, yet its own arguments are still declared |
| RenderProperties.EmittedWithinLimits | index.js:122-129 | a field that produces text is below the depth limit and its type is not on its ancestor path |
| RenderProperties.RootNotPruned | index.js:175 | the root field, rendered at level 1 with an empty path, is discarded neither by the cycle rule nor by the depth limit |
| RenderProperties.SkipBranchDead | index.js:139-141 | when the cycle check of the parent passed, no child meets the exact name-and-type skip condition |
| RenderProperties.ExtendedPathDistinct | index.js:122-146 | extending a path whose types are distinct by a type not on it keeps the types distinct; `ReduceStep` applies it to every recursive call, so every call of `generateFieldData` in a request, starting from the root's empty path, gets a path with distinct types |
| RenderProperties.ArgsListIsJoin | index.js:104 | the argument list is `a: $a` for each argument in declaration order, separated by `, ` |
| RenderProperties.FieldHasArgsHasVars | index.js:101-152 | a rendering that reports arguments has declared at least one variable |
| RenderProperties.OwnArgsFirst | index.js:108-148 | a field's own arguments come first among its variables, before any descendant's |
| RenderProperties.FieldSucceeds | index.js:91-132 | when every field refers to a type of the schema, rendering a declared field never fails |
| RenderProperties.HeadIsIndentedLine | index.js:98-106 | the head of a field is one line indented by `level * 4` spaces |
| RenderProperties.BracedIndented | index.js:166-170 | a one-line head indented `level * 4` spaces, with a block whose lines are so indented, closed by `}` after `level * 4` spaces, keeps every line so indented |
| RenderProperties.FieldLinesIndented | index.js:90-170 | every line of a field's non-empty rendering begins with at least `level * 4` spaces |
| RenderProperties.SurvivorsAreNonEmptyTexts | index.js:154-161 | a text is kept for the block exactly when it is the non-empty text of some child (the same set of texts; order is stated by the next two rows) |
| RenderProperties.SurvivorsSplit | index.js:135-163 | the kept texts follow the children's order: those of a run of children are those of its first part followed by those of the rest |
| RenderProperties.SurvivorsOne | index.js:154-161 | a single child contributes its text when that text is non-empty, and nothing otherwise |
| RenderProperties.ExpandedShape | index.js:132-172 | an unpruned field of an object type is its bare head when no child produced text; otherwise it is head, `{`, the children's texts one per line, and `}` indented like the head; its flag and variables combine its own and its children's |
| RenderProperties.LeafIsHead | index.js:132-172 | a field of a type without fields renders as its bare head, reporting its own arguments |
| RenderProperties.UnprunedStartsWithHead | index.js:98-172 | an unpruned field's text starts with its head |
| RenderProperties.RootStartsWithName | index.js:175 | the root field's text starts with four spaces and its name |
| OperationProperties.VarDeclsEmpty | index.js:177-182 | the variable list is empty exactly when no variable was collected |
| OperationProperties.VarDeclsConcat | index.js:177 | the variable list of two runs of variables is that of the first, `, `, then that of the second, so the declarations follow the order of collection |
| OperationProperties.VarDeclsPrefix | index.js:177 | the declarations of a prefix of the collected variables form a prefix of the variable list |
| OperationProperties.HeaderOwnArgsFirst | index.js:177-182 | the header's variable list starts with the root field's own `$a: T` declarations, in declaration order |
| OperationProperties.ClassifyChoice | index.js:180-192 | the keyword is `query`, `mutation` or `subscription` exactly when the owner is the first root name it equals, in that order, and anything else fails |
| OperationProperties.ClassifyWellFormed | index.js:180-192 | with distinct root names, a root type's fields get that root's keyword |
| OperationProperties.DocumentShape | index.js:177-202 | the document is the keyword, a space, the name, `(…)` only when a variable was collected, then the body between `{` and `}` on their own lines; its flag is the root field's |
| OperationProperties.DocumentFailsOnlyOffRoot | index.js:175-192 | once the root field renders, the request fails exactly when the owner is no root type, with that error |
| OperationProperties.RootFieldDocument | index.js:175-202 | in a well-formed schema every field of a root type yields a document that starts with that root's keyword and the field name |
| Driver.GenerateSection | index.js:241-263 | one driver loop yields `Driver.Section`: a document per root field in declaration order, or the first failure |
| Driver.GenerateDocuments | index.js:241-315 | the three loops yield mutations, then queries, then subscriptions: `Driver.Documents` when the owners are the source's literal names, `Driver.DocumentsForRoots` when they are the root types' own names |
| Driver.CollectSucceeds | index.js:243-253 | a loop over the root fields succeeds exactly when each field's document does |
| Driver.CollectShape | index.js:243-253 | a successful loop emits, for every root field in order, that field's document and nothing else |
| Driver.SectionShape | index.js:241-263 | the documents of a kind are one per field of its root type, in declaration order, each tagged with the kind; none without such a root |
| Driver.DocumentsOrdered | index.js:241-315 | all mutations come before all queries, and all queries before all subscriptions |
| Driver.ConventionalNamesAgree | index.js:244 | when the root types are called `Mutation`, `Query` and `Subscription`, the documents as written equal those owned by the root types |
| Driver.SectionSucceeds | index.js:241-263 | in a well-formed schema, owning each field by its root type's name, every document of a kind succeeds and starts with that kind's keyword and the field name |
| Driver.DocumentsForRootsSucceed | index.js:241-315 | in a well-formed schema the run owning each field by its root type's name never fails, and each document starts with its keyword and field name |
| Cases.CustomRootNameFails | index.js:271 | for `schema { query: RootQuery }` the run as written fails on the first query field, as there is no type `Query` |
| Cases.CustomRootNameCorrected | index.js:268-280 | for the same schema, owning the fields by the root type's own name yields the single document `query ping{\n    ping\n}` |
| Cases.SingleLeafQueryDocuments | index.js:175-202 | a schema whose only root type is a query root with one argument-free field of a leaf type yields exactly one document: `query`, the name, and the name indented between braces |
| Cases.LeafQueryDocument | index.js:175-202 | such a root field's document has no variable list and the bare indented field name as its body |

## Left out

- Command-line parsing, console messages, and the directory walk that
  assembles the schema text (index.js:9-52, 265, 290, 314). These are
  process and filesystem I/O.
- Removing and creating folders (index.js:209-222), writing `.gql` files,
  and the ES6 or CommonJS `index.js` wrappers (index.js:224-323). These are
  emission and packaging; the model stops at the list of documents, each
  with its kind, field name and text.
- `buildSchema` of the graphql library and its type objects. The schema is
  an abstract map from type names to either an ordered field list or a leaf.
  A field's declared type is a `TypeRef` whose printer stands for
  `inspect()`/`toString()`. Interfaces, inputs, unions and enums appear only
  as "has fields" or "has none".
- Duplicate field names in one type: `getFields()` is an object, so
  `Object.keys` sees each name once. The model keeps a field sequence,
  finds the first field of a name, and visits every entry, so the model and
  the code agree only when a type's field names are distinct, as graphql
  requires.
- `hasArgs` of a discarded field is `undefined` in JavaScript, because the
  code returns `meta: {}`; once or-ed in it can make the parent's flag
  `undefined` instead of `false`. The model uses its truth value, `false`.
- Variables are neither deduplicated nor checked for use. A header may
  declare `$id` twice, or declare the variable of a discarded field that the
  body never selects. The model reproduces this and does not judge it.
- The depth limit is the constant 100 of index.js:58; it is not configurable
  in the code.
- Indentation follows the code's `tabSize = 4`.
- RenderProperties.FieldLinesIndented: states that each line begins with
  at least `level * 4` spaces, not exactly that many. The deeper lines of
  children have more, and graphql names cannot start with a space, which the
  schema model does not encode. That the head and the closing `}` carry
  exactly `level * 4` spaces is stated by `RenderProperties.ExpandedShape`.
- Generator.FieldGenerator.GenerateFieldData: when rendering fails, the
  contract says only that `argTypes` has grown, not by what. In JavaScript
  the failure is an exception that abandons the request and its
  accumulator.

## Findings

| source | as written | input that shows it | evidently intended | confidence | as-written member | corrected member |
|---|---|---|---|---|---|---|
| index.js:271 | the driver enumerates the fields of the schema's actual root types but passes the literal owner names `'Mutation'`, `'Query'` and `'Subscription'` to `generateQuery` (also index.js:244 and index.js:296) | `type RootQuery { ping: String }` with `schema { query: RootQuery }`: `getType('Query')` is undefined and the run fails with a `TypeError` | each field is owned by the root type it was read from, `getQueryType().name` etc., so a root with a custom name gets its documents | not executed | Cases.CustomRootNameFails | Driver.DocumentsForRootsSucceed |

The corrected traversal is `Driver.DocumentsForRoots`; `Driver.GenerateDocuments`
computes it when its owners are the root types' own names, and
`Driver.DocumentsForRootsSucceed` proves that it never fails on a well-formed
schema. `Cases.CustomRootNameCorrected` spells out its result for the schema above.
