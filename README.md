# staruml-cefact core in Dafny

This project models the core of the StarUML UN/CEFACT exporter and proves what that core promises. The exporter turns a UML package into an OpenAPI document and a JSON-LD vocabulary. The model covers three source files:

- `src/jsonld/jsonld.js` builds the JSON-LD vocabulary. It expands the package's classes with the classes their attributes use as types, one level deep. It emits an `rdfs:Class` entry per class (section 2.2 of RDF Schema 1.1), with the parents read off the generalization edges. It emits an `rdf:Property` per attribute and per named association, with `rdfs:domain` and `rdfs:range` (sections 3.2 and 3.1). It emits an instance per enumeration literal. The module keeps a list, `generatedEnumInstance`, that the class pass fills and the instance pass reads. That list lives in the class `JsonLd.JsonLdExporter`, and `JsonLd.EnumerationEmittedOnce` proves what the two passes achieve together: each package enumeration comes out either as a class entry or as instances, never both.
- `src/utils.js` holds the OpenAPI helpers:
  - single-quote escaping;
  - the primitive-type table (section 4.4 of the OpenAPI Specification 3.0.3);
  - query-parameter filtering and shaping;
  - request-body construction;
  - the error log;
  - the package emptiness test;
  - the member-visibility predicates.

  The methods that fill caller-supplied objects are Dafny methods with `modifies` clauses.
- `src/info.js` parses the `info` header: title, version and description.

Files:

- `wrappers.dfy` holds `Option`.
- `uml.dfy` holds the UML elements the core reads, as datatypes.
- `info.dfy`, `utils.dfy` and `jsonld.dfy` hold one module per source file.

The host's repository queries become inputs:

- `app.repository.select` becomes `JsonLd.HostQueries`.
- `getViewsOf` becomes a sequence of views, or a function from element ids to views.
- `instanceof type.UML*` becomes the datatype tags of `Uml.AttrType` and `Uml.Element`.

A type name given as a string is the `Prim` tag, which is what `isString` tests.

Three behaviours of the code are easy to misread; the model follows the code:

- For the documentation `"v1.2:some text"`, the code's version is `"some text"`: the untrimmed second field of the first line. It is not `"1.2"`. See `Info.VersionExampleSecondField`.
- The class list both JSON-LD passes walk is the roots followed by the discovered classes. It is not deduplicated across the two parts, so a root that another root uses as a type is listed twice. See `JsonLd.RootsAreNotDeduplicated`.
- `getInvalidAttributeType` always returns the empty list. The diagnostics go to the not-available tracker, which is not part of this model. See `JsonLd.JsonLdExporter.GetInvalidAttributeType`.

## Model

| member | source | states |
|---|---|---|
| Info.Split | src/info.js:16 | `split` on one character always yields at least one piece, so line 0 always exists |
| Info.JoinSplit | src/info.js:16-18 | splitting loses nothing: joining the pieces with the separator gives back the input |
| Info.SplitPieces | src/info.js:16-18 | no piece contains the separator, and every character of a piece comes from the input |
| Info.NewInfo | src/info.js:12-31 | the title is always the export element's name; without an own `documentation` property the version and the description are both empty; with one, they are `VersionOf` and `DescriptionOf` the documentation |
| Info.GetInfoReturnsConstructed | src/info.js:40-42 | the constructor and `getInfo` composed: `getInfo` returns the record the constructor built, with the description and the version parsed from the documentation and the name as title |
| Info.VersionIsSecondField | src/info.js:16-21 | with a first line `key:value…`, the version is `value` cut at the next ':', untrimmed, and later lines have no effect on it |
| Info.VersionWithoutColon | src/info.js:18-21 | a first line without ':' gives an empty version, whatever follows |
| Info.VersionHasNoSeparators | src/info.js:16-20 | the version never contains ':' or a line break |
| Info.VersionExampleKeyValue | src/info.js:16-21 | `"version:1.2"` gives the version `"1.2"` |
| Info.VersionExampleSecondField | src/info.js:16-21 | `"v1.2:some text"` gives the version `"some text"`, the field after the colon, not `"1.2"` |
| Info.DescriptionIsSecondLine | src/info.js:23-25 | with two or more lines, the description is line 1 + `<br><br>` + the fixed message; the other lines play no part |
| Info.SingleLineHasNoDescription | src/info.js:23-25 | a one-line documentation has an empty description |
| Utils.EscapeQuotesLength | src/utils.js:43 | escaping adds exactly one character per single quote |
| Utils.CollapseEscapeQuotes | src/utils.js:43 | reading each doubled quote back as one quote recovers the input |
| Utils.BuildDescription | src/utils.js:41-46 | null exactly for the falsy empty string; otherwise the escaped text, whose length is the input's plus its quote count and which collapses back to the input |
| Utils.TypeTableDomain | src/utils.js:74-112 | the table has a row for a name iff the name is one of the fourteen listed primitive names |
| Utils.TypeTableFollowsOpenApiDataTypes | src/utils.js:74-112 | every type and format pair the table yields is a type of the OpenAPI Data Types table with a format that belongs to that type |
| Utils.TypeTableExamples | src/utils.js:91-112 | Int64 gives integer/int64, Double gives number/double, Indicator gives boolean without a format, and Binary gives string/binary; Identifier and Code have no row |
| Utils.UnknownTypesAreStrings | src/utils.js:113-119 | any other name, and any class or enumeration reference, gives `string` without a format |
| Utils.Utils.constructor | src/utils.js:15-18 | a new instance has an empty error log and the file name `/error.txt` |
| Utils.Utils.WriteErrorToFile | src/utils.js:26-27 | the error's message is appended to `errorContent`, and nothing else of the instance changes |
| Utils.Utils.BuildParameter | src/utils.js:58-66 | the five keys `name`, `in`, `description`, `required` and `schema` of the caller's object are set to the arguments, and only that object changes |
| Utils.Utils.AddAttributeType | src/utils.js:74-120 | sets `type` from the table; sets `format` only where the row has one and otherwise keeps the old format; touches no other key; hands a not-available check over iff the type is a string outside the table |
| Utils.Utils.BuildRequestBody | src/utils.js:129-146 | sets the content to `application/json` with a `$ref` schema of the reference prefix + the realization source's name, the description to `''` and `required` to true |
| Utils.Utils.PushQueryParameter | src/utils.js:158-175 | pushes one new object onto the caller's array; it throws iff the documentation is a truthy non-string, and the object is then left empty; otherwise it holds the query entry of the parameter |
| Utils.Utils.PushQueryParameters | src/utils.js:157-176 | keeps the caller's existing objects and appends one fresh object per entry `QueryParameters` lists, each holding that entry; it reports a failure iff `QueryParameters` reports an error |
| Utils.Utils.WriteQueryParameters | src/utils.js:155-181 | keeps the caller's existing objects; appends one fresh object per parameter not named id or identifier, filled as `QueryParameters` says; a throw stops the loop, leaves the pushed empty object in place, and appends the `.replace` error to the error log, which is otherwise unchanged |
| Utils.KeptParametersExact | src/utils.js:157-160 | a parameter gets an entry iff it is in the input and is named neither "id" nor "identifier" |
| Utils.KeptParametersExample | src/utils.js:159 | of id, status, identifier and name, exactly status and name are kept, in that order |
| Utils.QueryParametersFilter | src/utils.js:157-176 | without a throwing documentation there is no error, and the k-th entry is the query entry of the k-th kept parameter |
| Utils.QueryParametersThrow | src/utils.js:156-180 | the first kept parameter whose documentation is a truthy non-string ends the loop: an empty entry after the earlier ones, and the `.replace` error is reported |
| Utils.QueryParametersErrorFinal | src/utils.js:156-180 | once the error is raised, later parameters change nothing |
| Utils.QueryParametersStep | src/utils.js:157-175 | `QueryParameters`' definition unfolded at one index, the step the loop of `PushQueryParameters` takes: before any error, the next parameter is skipped if named id or identifier, adds an empty entry and the error if its documentation throws, and otherwise adds its query entry |
| Utils.QueryParametersErrorValue | src/utils.js:156-180 | the only error the loop reports is the failed `.replace` |
| Utils.QueryEntryShape | src/utils.js:158-172 | every filled entry has `in: query`, `required: false` and `schema {type: string}`; its name is the parameter name, or TypeName.name for a class-typed parameter; its description is "missing description" for a falsy documentation and otherwise the escaped text |
| Utils.TypeElements | src/utils.js:213-220 | the filter keeps exactly the classes, interfaces and enumerations |
| Utils.IsEmpty | src/utils.js:211-225 | false iff some owned element is a class, an interface or an enumeration |
| Utils.ViewsOfElement | src/utils.js:237-239 | every view kept belongs to the element |
| Utils.ViewsOfElementFirst | src/utils.js:237-243 | the filter is non-empty iff the element has a view, and its first item is the element's first view |
| Utils.IsAttribviewVisible | src/utils.js:232-250 | true iff the element's first view exists and is visible |
| Utils.AddMemberData | src/utils.js:257-307 | the three identical predicates: package mode gives true; diagram mode gives true iff the element's first view exists and is visible; any other mode gives false |
| Utils.VisibleLiteralNamesExact | src/utils.js:193-198 | a name is kept iff it is the name of a literal the visibility predicate accepts |
| Utils.VisibleLiteralNamesByMode | src/utils.js:193-198 | in package mode every literal's name is kept, in order; in a mode that is neither package nor diagram, none is |
| Utils.EnumerationLiteralsVia | src/utils.js:190-201 | undefined for a missing enumeration; if `_this` binds `addLiteralData`, the visible literal names in order; otherwise a throw on the first literal |
| Utils.GetEnumerationLiteralAsWritten | src/utils.js:190-201 | as written: an enumeration with a literal throws "_this.addLiteralData is not a function"; one without literals gives `[]` |
| Utils.GetEnumerationLiteral | src/utils.js:190-201 | corrected: the names of the visible literals in order, and undefined for a missing enumeration |
| JsonLd.AttrClassRefsExact | src/jsonld/jsonld.js:159-160 | a class is collected from an attribute list iff some attribute there is typed with it |
| JsonLd.ClassRefsExact | src/jsonld/jsonld.js:158-160 | a class is met by the scan iff some attribute of some root is typed with it |
| JsonLd.FirstByIdSoundUnique | src/jsonld/jsonld.js:161-166 | the id filter keeps only classes of its input, and no two kept classes share an id |
| JsonLd.FirstByIdComplete | src/jsonld/jsonld.js:161-166 | every id met is kept |
| JsonLd.FirstByIdFirstOccurrence | src/jsonld/jsonld.js:161-166 | each kept class is the first class of its id in the input, and the kept classes follow the order of those first occurrences |
| JsonLd.UniqueIdsUnchanged | src/jsonld/jsonld.js:161-166 | a list with all-different ids goes through the filter unchanged |
| JsonLd.FirstByIdIdempotent | src/jsonld/jsonld.js:161-166 | filtering twice gives the same list as filtering once |
| JsonLd.AttrTypeClassesSpec | src/jsonld/jsonld.js:156-171 | `getAttrTypeClass` returns only classes some root attribute is typed with, with no two sharing an id, and it has a class of every id such an attribute names |
| JsonLd.AttrTypeClassesOrder | src/jsonld/jsonld.js:156-171 | each returned class is the first class of its id met in the scan of the roots' attributes, and the returned classes follow the order in which their ids were first met |
| JsonLd.DiscoveryIsOneLevel | src/jsonld/jsonld.js:156-171 | if A has an attribute of class B and B has one of class C, discovery from A gives only B |
| JsonLd.ScanAttributes | src/jsonld/jsonld.js:159-166 | the inner loop over one root's attributes extends the id-filtered list exactly as filtering the longer scan would |
| JsonLd.GetAttrTypeClass | src/jsonld/jsonld.js:156-171 | the nested loop with the id filter computes `AttrTypeClasses` |
| JsonLd.PackageClasses | src/jsonld/jsonld.js:183-185 | the filter keeps exactly the package's classes |
| JsonLd.ExportClassList | src/jsonld/jsonld.js:183-194 | the class filter, `getAttrTypeClass` and the concatenation compute `ExportClasses`: the roots, then the discovered classes |
| JsonLd.RootsAreNotDeduplicated | src/jsonld/jsonld.js:190-194 | a root class that another root uses as a type appears among the roots and again among the discovered classes |
| JsonLd.ParentNamesExact | src/jsonld/jsonld.js:225-234 | a name is a parent name iff some generalization from the class's id targets it |
| JsonLd.ParentNamesAppend | src/jsonld/jsonld.js:228-232 | parent names come in the order the generalizations are met |
| JsonLd.ParentNamesKeepRepeats | src/jsonld/jsonld.js:228-232 | two edges to the same target give the target twice |
| JsonLd.GetParentClasses | src/jsonld/jsonld.js:225-234 | the loop computes `ParentNames` of the element's id |
| JsonLd.EnumTypesExact | src/jsonld/jsonld.js:204-213 | an enumeration is recorded for a class iff one of its attributes is typed with it |
| JsonLd.EnumClassEntriesMatch | src/jsonld/jsonld.js:204-213 | the k-th enumeration class entry is for the k-th recorded enumeration |
| JsonLd.EnumTypesOfExact | src/jsonld/jsonld.js:196-215 | after the class pass, `generatedEnumInstance` holds an enumeration iff some attribute of a listed class is typed with it |
| JsonLd.ClassEntriesOfShape | src/jsonld/jsonld.js:196-217 | one entry per listed class plus one per enumeration-typed attribute, all of type `rdfs:Class`; every listed class has its entry with its parent names |
| JsonLd.EnumEntryInClassEntries | src/jsonld/jsonld.js:204-213 | an enumeration-typed attribute of a listed class puts a class entry for its enumeration in the array |
| JsonLd.NotGeneratedExact | src/jsonld/jsonld.js:267-276 | an enumeration survives the filter iff its id was not recorded by the class pass |
| JsonLd.LiteralInstancesExact | src/jsonld/jsonld.js:278-283 | the k-th instance of an enumeration has the id `Enum/literal_k` and the type `Enum` |
| JsonLd.InstancesOfExact | src/jsonld/jsonld.js:277-284 | an instance is emitted iff it comes from a literal of a surviving enumeration |
| JsonLd.InstancesSkipRecorded | src/jsonld/jsonld.js:265-285 | the instances are exactly those from literals of package enumerations that the class pass did not record |
| JsonLd.FilterNotGenerated | src/jsonld/jsonld.js:267-276 | the filter loop computes `NotGenerated` |
| JsonLd.EnumInstances | src/jsonld/jsonld.js:278-283 | the literal loop computes `LiteralInstances` of the enumeration's literals |
| JsonLd.InstancePass | src/jsonld/jsonld.js:277-284 | the emitting loop computes `InstancesOf` the surviving enumerations |
| JsonLd.EnumerationEmittedOnce | src/jsonld/jsonld.js:118-120 | with the class pass run first, each package enumeration is emitted either as a class entry or as its literal instances, never both |
| JsonLd.GetRange | src/jsonld/jsonld.js:360-447 | the range is undefined exactly for a string type the rule table has, and a diagnostic is recorded exactly for a string type it does not have |
| JsonLd.GetRangeOfReference | src/jsonld/jsonld.js:443-445 | a reference to a class, an enumeration or another classifier gives its name and records nothing |
| JsonLd.GetRangeOfUnknownName | src/jsonld/jsonld.js:416-439 | a string type outside the rule table gives `xsd:string` for Numeric, Text and Binary and the name itself for any other; exactly one diagnostic is recorded, "not linked" iff the name is a core type |
| JsonLd.GetRangeOfRuleHit | src/jsonld/jsonld.js:379-384 | a rule-table hit gives no range (undefined) and records nothing |
| JsonLd.AttrPropertiesExact | src/jsonld/jsonld.js:308-324 | one property per attribute, in order: id `Class/attr`, type `rdf:Property`, domain the class, range from `getRange` |
| JsonLd.AssocPropertiesExact | src/jsonld/jsonld.js:327-349 | an association property is emitted iff the association's first end is the class and its name is not empty; its range is the second end's name |
| JsonLd.AttributeProperties | src/jsonld/jsonld.js:308-324 | the attribute loop computes `AttrProperties` and `AttrDiagnostics` |
| JsonLd.AssociationProperties | src/jsonld/jsonld.js:327-349 | the association loop computes `AssocProperties` |
| JsonLd.PropertyPass | src/jsonld/jsonld.js:305-350 | the class loop computes `PropertiesOf` and `DiagnosticsOf` the class list |
| JsonLd.GetContext | src/jsonld/jsonld.js:23-102 | one context object whose four nested blocks are all `{@reverse: rdfs:isDefinedBy, @type: @id}` |
| JsonLd.JsonLdExporter.constructor | src/jsonld/jsonld.js:450-451 | at load time there is no export element or name, the file path is empty, and both lists are empty |
| JsonLd.JsonLdExporter.SetExportElement | src/jsonld/jsonld.js:457-459 | stores the package and changes nothing else |
| JsonLd.JsonLdExporter.SetExportElementName | src/jsonld/jsonld.js:484-486 | stores the name and changes nothing else |
| JsonLd.JsonLdExporter.SetFilePath | src/jsonld/jsonld.js:503-505 | stores the path and changes nothing else |
| JsonLd.JsonLdExporter.GetInvalidAttributeType | src/jsonld/jsonld.js:475-477 | always the empty list, because nothing appends to it |
| JsonLd.JsonLdExporter.AddEnumerationClasses | src/jsonld/jsonld.js:204-213 | emits the enumeration entries of one class and appends the enumerations to `generatedEnumInstance`, in order |
| JsonLd.JsonLdExporter.GetRdfsClassesArr | src/jsonld/jsonld.js:179-218 | resets `generatedEnumInstance`; returns `ClassEntriesOf` the roots plus discovered classes; leaves exactly their enumeration types in `generatedEnumInstance`, in order |
| JsonLd.JsonLdExporter.ClassPass | src/jsonld/jsonld.js:196-217 | from an empty `generatedEnumInstance`, the class loop computes `ClassEntriesOf` the class list and leaves exactly `EnumTypesOf` it in `generatedEnumInstance` |
| JsonLd.JsonLdExporter.GetRdfsInstancesArr | src/jsonld/jsonld.js:241-286 | the instances of the package enumerations that `generatedEnumInstance` does not hold, in enumeration order and then literal order |
| JsonLd.JsonLdExporter.GetRdfsPropertiesArr | src/jsonld/jsonld.js:292-353 | per listed class, the attribute properties and then the association properties, together with getRange's diagnostics |
| JsonLd.JsonLdExporter.GetGraph | src/jsonld/jsonld.js:109-124 | all six fields of the fixed ontology header (id, type, title, description, date, see-also) and the three arrays; the instances skip exactly the enumerations this export's class pass emitted, which is what `generatedEnumInstance` holds afterwards |
| JsonLd.JsonLdExporter.GenerateJsonLd | src/jsonld/jsonld.js:10-16 | the context template, and a graph with the fixed ontology header and the three arrays; `generatedEnumInstance` is left holding the enumeration types of the listed classes |

## Left out

- `fs.writeFile` and its callback in `writeErrorToFile` are not modelled, nor are `console.log` and `console.error`: they are I/O. The model keeps only the append to `errorContent`.
- `app.repository.select`, `getViewsOf` and `instanceof type.UML*` become inputs (`JsonLd.HostQueries`, view sequences, datatype tags), because they query the host application.
- `utils.getJsonldRuleType`, `utils.isStringCoreType`, the `notavail` and `notavailelement` modules, `constant.getReference`, `constant.msg_description` and `openAPI.getModelType` are not part of this model. The rule-table keys, the core-type test, the reference prefix, the message and the mode are parameters.
- The diagnostics sent to the not-available trackers are returned as values (`JsonLd.Diagnostic`, `Utils.NotAvailableCheck`). The trackers' own lists are not modelled.
- JsonLd.GetRange: a rule-table hit gives `None`. The source reads `.range` off the filtered array, which is undefined.
- Attribute types hold the referenced class or enumeration by value (`Uml.AttrType`), so the model cannot express cyclic references: a class with an attribute typed with itself, which jsonld.js:190-194 would list twice, or two classes whose attributes refer to each other. A reference to any other classifier (a data type, an interface, a primitive type element) is `Uml.OtherRef`, of which only the name is kept.
- `async-foreach` is modelled as an ordinary in-order loop. Nothing in the core runs concurrently.
- The getters `getExportElement`, `getExportElementName` and `getFilePath` are reads of the `JsonLdExporter` fields. `getDCDate` and `getSeeAlso` are the fixed values in `JsonLd.JsonLdExporter.GetGraph`.
- Utils.Utils.WriteQueryParameters: the only thrower modelled is a documentation that is truthy but not a string (`Utils.Doc.NotAString`), on which `.replace` fails. Other errors from host objects are not modelled.
- JsonLd.JsonLdExporter.GetRdfsInstancesArr: like the other passes it requires an export element, because the source dereferences it. The enumeration query's result is a parameter.

## Findings

| source | as written | input that shows it | evidently intended | confidence | as-written member | corrected member |
|---|---|---|---|---|---|---|
| src/utils.js:195 | `getEnumerationLiteral` calls `_this.addLiteralData`. `_this` is bound at line 10 to the module's original exports object, and line 308 replaces `module.exports` before `addLiteralData` is attached, so `_this` never gets `addLiteralData`. | any enumeration with at least one literal: the call throws "_this.addLiteralData is not a function" | keep the names of the literals the module's `addLiteralData` accepts, in order | high, not executed | Utils.GetEnumerationLiteralAsWritten | Utils.GetEnumerationLiteral |
