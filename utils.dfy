/**
 * The OpenAPI helpers of src/utils.js: the `Utils` class (error log, quote
 * escaping, the primitive-type table, query parameters, request bodies) and
 * the module-level package and visibility predicates.
 */
module Utils {
  import opened Wrappers
  import opened Uml

  // ---------------------------------------------------------------------------
  // buildDescription: every ' doubled
  // ---------------------------------------------------------------------------

  const Quote: char := '\''

  /** `s.replace(/'/g, "''")`. */
  function EscapeQuotes(s: string): string
  {
    if s == [] then []
    else (if s[0] == Quote then [Quote, Quote] else [s[0]]) + EscapeQuotes(s[1..])
  }

  /** The number of single quotes in `s`. */
  function CountQuotes(s: string): nat
  {
    if s == [] then 0 else (if s[0] == Quote then 1 else 0) + CountQuotes(s[1..])
  }

  /** Reads a doubled quote back as one quote; every other character is kept. */
  function CollapseQuotes(s: string): string
  {
    if s == [] then []
    else if |s| >= 2 && s[0] == Quote && s[1] == Quote then [Quote] + CollapseQuotes(s[2..])
    else [s[0]] + CollapseQuotes(s[1..])
  }

  /** Escaping adds exactly one character per quote. */
  lemma {:induction false} EscapeQuotesLength(s: string)
    ensures |EscapeQuotes(s)| == |s| + CountQuotes(s)
  {
    if s != [] {
      EscapeQuotesLength(s[1..]);
    }
  }

  /** Collapsing the doubled quotes undoes the escaping. */
  lemma {:induction false} CollapseEscapeQuotes(s: string)
    ensures CollapseQuotes(EscapeQuotes(s)) == s
  {
    if s != [] {
      CollapseEscapeQuotes(s[1..]);
      var e := EscapeQuotes(s[1..]);
      if s[0] == Quote {
        assert EscapeQuotes(s) == [Quote, Quote] + e;
        assert ([Quote, Quote] + e)[2..] == e;
      } else {
        assert EscapeQuotes(s) == [s[0]] + e;
        assert ([s[0]] + e)[1..] == e;
      }
      assert s == [s[0]] + s[1..];
    }
  }

  /**
   * `buildDescription(desc)`: the escaped text for a truthy (non-empty) string,
   * `null` (None) for the falsy empty string.
   */
  function BuildDescription(desc: string): (r: Option<string>)
    ensures r.None? <==> desc == ""
    ensures r.Some? ==> |r.value| == |desc| + CountQuotes(desc)
    ensures r.Some? ==> CollapseQuotes(r.value) == desc
  {
    EscapeQuotesLength(desc);
    CollapseEscapeQuotes(desc);
    if desc != "" then Some(EscapeQuotes(desc)) else None
  }

  // ---------------------------------------------------------------------------
  // addAttributeType: the primitive-type table
  // ---------------------------------------------------------------------------

  /** A `{type, format}` pair; `format` is None where the table sets none. */
  datatype OpenApiType = OpenApiType(typ: string, format: Option<string>)

  /** The fourteen primitive type names the table knows. */
  const TableTypeNames: set<string> := {
    "Numeric", "Indicator", "Date", "DateTime", "Integer", "Int32", "Int64",
    "Number", "Float", "Double", "Password", "Byte", "Boolean", "Binary"
  }

  /** The `{type, format}` the table assigns to a primitive type name, if it has a row for it. */
  function TypeTable(name: string): Option<OpenApiType>
  {
    if name == "Numeric" then Some(OpenApiType("number", None))
    else if name == "Indicator" then Some(OpenApiType("boolean", None))
    else if name == "Date" then Some(OpenApiType("string", Some("date")))
    else if name == "DateTime" then Some(OpenApiType("string", Some("date-time")))
    else if name == "Integer" then Some(OpenApiType("integer", None))
    else if name == "Int32" then Some(OpenApiType("integer", Some("int32")))
    else if name == "Int64" then Some(OpenApiType("integer", Some("int64")))
    else if name == "Number" then Some(OpenApiType("number", None))
    else if name == "Float" then Some(OpenApiType("number", Some("float")))
    else if name == "Double" then Some(OpenApiType("number", Some("double")))
    else if name == "Password" then Some(OpenApiType("string", Some("password")))
    else if name == "Byte" then Some(OpenApiType("string", Some("byte")))
    else if name == "Boolean" then Some(OpenApiType("boolean", None))
    else if name == "Binary" then Some(OpenApiType("string", Some("binary")))
    else None
  }

  /**
   * What `addAttributeType` writes for an attribute type: the table's row for a
   * known primitive name, and `type: 'string'` without a format for any other
   * name and for a class or enumeration reference.
   */
  function AttributeOpenApiType(t: AttrType): (r: OpenApiType)
  {
    if t.Prim? && TypeTable(t.typeName).Some? then TypeTable(t.typeName).value
    else OpenApiType("string", None)
  }

  /** The table has a row for a name exactly when the name is one of the fourteen. */
  lemma TypeTableDomain(name: string)
    ensures TypeTable(name).Some? <==> name in TableTypeNames
  {
  }

  /**
   * Every pair the table produces is a type and format of the OpenAPI Data
   * Types table (section 4.4 of the OpenAPI Specification 3.0.3): the format
   * belongs to the type it is paired with.
   */
  lemma TypeTableFollowsOpenApiDataTypes(name: string)
    ensures TypeTable(name).Some? ==>
      var t := TypeTable(name).value;
      && t.typ in {"integer", "number", "string", "boolean"}
      && (t.format.Some? ==>
            || (t.typ == "integer" && t.format.value in {"int32", "int64"})
            || (t.typ == "number" && t.format.value in {"float", "double"})
            || (t.typ == "string" && t.format.value in {"byte", "binary", "date", "date-time", "password"}))
  {
  }

  /** Four sample rows; Identifier and Code have none. */
  lemma TypeTableExamples()
    ensures TypeTable("Int64") == Some(OpenApiType("integer", Some("int64")))
    ensures TypeTable("Double") == Some(OpenApiType("number", Some("double")))
    ensures TypeTable("Indicator") == Some(OpenApiType("boolean", None))
    ensures TypeTable("Binary") == Some(OpenApiType("string", Some("binary")))
    ensures TypeTable("Identifier") == None && TypeTable("Code") == None
  {
  }

  /** Any name outside the table, and any class or enumeration reference, is a format-less string. */
  lemma UnknownTypesAreStrings(t: AttrType)
    requires !t.Prim? || t.typeName !in TableTypeNames
    ensures AttributeOpenApiType(t) == OpenApiType("string", None)
  {
  }

  /** The object a caller hands to `addAttributeType`; `extra` stands for every other key it holds. */
  class SchemaObject {
    var typ: Option<string>
    var format: Option<string>
    var extra: map<string, string>

    constructor ()
      ensures typ == None && format == None && extra == map[]
    {
      typ, format, extra := None, None, map[];
    }
  }

  /** The diagnostic `addAttributeType` hands to the not-available checker. */
  datatype NotAvailableCheck = NotAvailableCheck(parentName: string, attributeName: string, typeName: string)

  // ---------------------------------------------------------------------------
  // buildParameter / writeQueryParameters
  // ---------------------------------------------------------------------------

  /**
   * A UML parameter's documentation as JavaScript sees it: absent, a string,
   * or some other truthy value (on which `.replace` is not a function).
   */
  datatype Doc = Absent | Text(text: string) | NotAString

  /** A UML operation parameter; `classTypeName` is Some(n) when its type is a class named n. */
  datatype Parameter = Parameter(name: string, classTypeName: Option<string>, doc: Doc)

  /** The `{type: 'string'}` schema of every query parameter. */
  datatype ParamSchema = ParamSchema(typ: string)

  /** The keys of a parameter object; None where the key has not been set. */
  datatype ParamEntry = ParamEntry(
    name: Option<string>, location: Option<string>, description: Option<string>,
    required: Option<bool>, schema: Option<ParamSchema>)

  const EmptyEntry := ParamEntry(None, None, None, None, None)

  /** The message V8 gives when `desc.replace` is called on a value that is not a string. */
  const ReplaceNotAFunction := "desc.replace is not a function"

  /** One object of the OpenAPI `parameters` array. */
  class ParamsObject {
    var name: Option<string>
    var location: Option<string>
    var description: Option<string>
    var required: Option<bool>
    var schema: Option<ParamSchema>

    constructor ()
      ensures Entry() == EmptyEntry
    {
      name, location, description, required, schema := None, None, None, None, None;
    }

    /** The keys this object holds. */
    function Entry(): ParamEntry
      reads this
    {
      ParamEntry(name, location, description, required, schema)
    }
  }

  /** The caller's `parametersArray`, which `writeQueryParameters` pushes onto. */
  class ParamsArray {
    var items: seq<ParamsObject>

    constructor ()
      ensures items == []
    {
      items := [];
    }
  }

  /** Parameters named "id" or "identifier" are not query parameters. */
  predicate IsIdParameter(p: Parameter)
  {
    p.name == "id" || p.name == "identifier"
  }

  /** The description of a parameter whose documentation is not NotAString. */
  function ParamDescription(doc: Doc): string
    requires !doc.NotAString?
  {
    if doc.Text? && doc.text != "" then BuildDescription(doc.text).value else "missing description"
  }

  /** The entry `writeQueryParameters` builds for a kept parameter that does not throw. */
  function QueryEntry(p: Parameter): (e: ParamEntry)
    requires !p.doc.NotAString?
  {
    var name := if p.classTypeName.Some? then p.classTypeName.value + "." + p.name else p.name;
    ParamEntry(Some(name), Some("query"), Some(ParamDescription(p.doc)), Some(false), Some(ParamSchema("string")))
  }

  /** The entries pushed for a list of parameters and the error, if one was thrown. */
  datatype QueryOutcome = QueryOutcome(entries: seq<ParamEntry>, error: Option<string>)

  /**
   * The parameters in order: each kept one pushes an entry; one whose
   * documentation is NotAString leaves its entry empty and ends the loop.
   */
  function QueryParameters(params: seq<Parameter>): QueryOutcome
  {
    if params == [] then QueryOutcome([], None)
    else
      var before := QueryParameters(params[..|params| - 1]);
      var p := params[|params| - 1];
      if before.error.Some? || IsIdParameter(p) then before
      else if p.doc.NotAString? then QueryOutcome(before.entries + [EmptyEntry], Some(ReplaceNotAFunction))
      else QueryOutcome(before.entries + [QueryEntry(p)], None)
  }

  /** The parameters the filter keeps, in order. */
  function KeptParameters(params: seq<Parameter>): (kept: seq<Parameter>)
  {
    if params == [] then []
    else
      var last := params[|params| - 1];
      KeptParameters(params[..|params| - 1]) + (if IsIdParameter(last) then [] else [last])
  }

  /** The kept parameters are exactly those not named "id" or "identifier", in order. */
  lemma {:induction false} KeptParametersExact(params: seq<Parameter>)
    ensures forall p :: p in KeptParameters(params) <==> p in params && !IsIdParameter(p)
    ensures |KeptParameters(params)| <= |params|
  {
    if params != [] {
      var init := params[..|params| - 1];
      KeptParametersExact(init);
      assert params == init + [params[|params| - 1]];
    }
  }

  /** For example, ["id", "status", "identifier", "name"] keeps exactly ["status", "name"]. */
  lemma KeptParametersExample(d1: Doc, d2: Doc, d3: Doc, d4: Doc)
    ensures var ps := [Parameter("id", None, d1), Parameter("status", None, d2),
                       Parameter("identifier", None, d3), Parameter("name", None, d4)];
      KeptParameters(ps) == [ps[1], ps[3]]
  {
    var ps := [Parameter("id", None, d1), Parameter("status", None, d2),
               Parameter("identifier", None, d3), Parameter("name", None, d4)];
    assert KeptParameters(ps[..1]) == [] by {
      assert ps[..1][..0] == [];
    }
    assert KeptParameters(ps[..2]) == [ps[1]] by {
      assert ps[..2][..1] == ps[..1];
    }
    assert KeptParameters(ps[..3]) == [ps[1]] by {
      assert ps[..3][..2] == ps[..2];
    }
    assert ps[..4] == ps;
    assert ps[..4][..3] == ps[..3];
  }

  /**
   * Without a throwing parameter, one entry is pushed per kept parameter, in
   * order, and nothing is reported.
   */
  lemma {:induction false} QueryParametersFilter(params: seq<Parameter>)
    requires forall p :: p in params && !IsIdParameter(p) ==> !p.doc.NotAString?
    ensures QueryParameters(params).error == None
    ensures |QueryParameters(params).entries| == |KeptParameters(params)|
    ensures forall k :: 0 <= k < |KeptParameters(params)| ==>
      !KeptParameters(params)[k].doc.NotAString? &&
      QueryParameters(params).entries[k] == QueryEntry(KeptParameters(params)[k])
  {
    if params != [] {
      var init := params[..|params| - 1];
      assert forall p :: p in init ==> p in params;
      QueryParametersFilter(init);
    }
  }

  /**
   * A parameter whose description throws ends the loop: its entry stays empty
   * at the end of what was pushed, and the error is reported.
   */
  lemma {:induction false} QueryParametersThrow(params: seq<Parameter>, i: nat)
    requires i < |params| && params[i].doc.NotAString? && !IsIdParameter(params[i])
    requires forall j :: 0 <= j < i && !IsIdParameter(params[j]) ==> !params[j].doc.NotAString?
    ensures QueryParameters(params).error == Some(ReplaceNotAFunction)
    ensures |QueryParameters(params).entries| == |KeptParameters(params[..i])| + 1
    ensures QueryParameters(params).entries
         == QueryParameters(params[..i]).entries + [EmptyEntry]
  {
    if i == |params| - 1 {
      var init := params[..i];
      assert params[..|params| - 1] == init;
      forall p | p in init && !IsIdParameter(p) ensures !p.doc.NotAString? {
        var j :| 0 <= j < |init| && init[j] == p;
      }
      QueryParametersFilter(init);
    } else {
      var init := params[..|params| - 1];
      assert init[..i] == params[..i];
      QueryParametersThrow(init, i);
    }
  }

  /** Once an error is reported, later parameters change nothing. */
  lemma {:induction false} QueryParametersErrorFinal(params: seq<Parameter>, n: nat)
    requires n <= |params| && QueryParameters(params[..n]).error.Some?
    ensures QueryParameters(params) == QueryParameters(params[..n])
  {
    if n < |params| {
      var init := params[..|params| - 1];
      assert init[..n] == params[..n];
      QueryParametersErrorFinal(init, n);
    } else {
      assert params[..n] == params;
    }
  }

  /** One more parameter, while nothing has thrown: skipped, pushed empty with the error, or pushed filled. */
  lemma QueryParametersStep(params: seq<Parameter>, i: nat)
    requires i < |params| && QueryParameters(params[..i]).error == None
    ensures var before := QueryParameters(params[..i]);
      QueryParameters(params[..i + 1])
        == if IsIdParameter(params[i]) then before
           else if params[i].doc.NotAString? then QueryOutcome(before.entries + [EmptyEntry], Some(ReplaceNotAFunction))
           else QueryOutcome(before.entries + [QueryEntry(params[i])], None)
  {
    assert params[..i + 1][..i] == params[..i];
  }

  /** The only error the loop reports is the failed `.replace`. */
  lemma {:induction false} QueryParametersErrorValue(params: seq<Parameter>)
    ensures QueryParameters(params).error.Some? ==> QueryParameters(params).error == Some(ReplaceNotAFunction)
  {
    if params != [] {
      QueryParametersErrorValue(params[..|params| - 1]);
    }
  }

  /** Every entry that does get filled has the fixed shape of a query parameter. */
  lemma QueryEntryShape(p: Parameter)
    requires !p.doc.NotAString?
    ensures QueryEntry(p).location == Some("query")
    ensures QueryEntry(p).required == Some(false)
    ensures QueryEntry(p).schema == Some(ParamSchema("string"))
    ensures p.classTypeName.None? ==> QueryEntry(p).name == Some(p.name)
    ensures p.classTypeName.Some? ==> QueryEntry(p).name == Some(p.classTypeName.value + "." + p.name)
    ensures (p.doc.Absent? || p.doc == Text("")) ==> QueryEntry(p).description == Some("missing description")
    ensures p.doc.Text? && p.doc.text != "" ==> QueryEntry(p).description == BuildDescription(p.doc.text)
    ensures p.doc.Text? && p.doc.text != "" ==>
      QueryEntry(p).description.Some? && CollapseQuotes(QueryEntry(p).description.value) == p.doc.text
      && |QueryEntry(p).description.value| == |p.doc.text| + CountQuotes(p.doc.text)
  {
  }

  // ---------------------------------------------------------------------------
  // buildRequestBody
  // ---------------------------------------------------------------------------

  /** The UML interface realization a request body is built from; only its source's name is read. */
  datatype InterfaceRealization = InterfaceRealization(sourceName: string)

  datatype SchemaRef = SchemaRef(ref: string)
  datatype MediaTypeObject = MediaTypeObject(schema: SchemaRef)

  /** The caller's request-body object. */
  class RequestBodyObject {
    var content: Option<map<string, MediaTypeObject>>
    var description: Option<string>
    var required: Option<bool>

    constructor ()
      ensures content == None && description == None && required == None
    {
      content, description, required := None, None, None;
    }
  }

  // ---------------------------------------------------------------------------
  // The Utils class
  // ---------------------------------------------------------------------------

  /** The `Utils` instance: its error log and the methods that fill caller-supplied objects. */
  class Utils {
    /** The messages of caught errors, oldest first. */
    var errorContent: seq<string>
    const mFileName: string

    constructor ()
      ensures errorContent == [] && mFileName == "/error.txt"
    {
      errorContent := [];
      mFileName := "/error.txt";
    }

    /** `writeErrorToFile(error)`: the message is appended to the log (the file write is not modelled). */
    method WriteErrorToFile(message: string)
      modifies this`errorContent
      ensures errorContent == old(errorContent) + [message]
    {
      errorContent := errorContent + [message];
    }

    /** `buildParameter`: sets the five keys of `paramsObject` and nothing else. */
    method BuildParameter(name: string, location: string, description: string, required: bool,
                          schema: ParamSchema, paramsObject: ParamsObject)
      modifies paramsObject
      ensures paramsObject.Entry()
           == ParamEntry(Some(name), Some(location), Some(description), Some(required), Some(schema))
    {
      paramsObject.name := Some(name);
      paramsObject.location := Some(location);
      paramsObject.description := Some(description);
      paramsObject.required := Some(required);
      paramsObject.schema := Some(schema);
    }

    /**
     * `addAttributeType(itemsObj, attr)`: sets `type`, sets `format` only for
     * the rows that have one, and touches no other key. For an unmatched
     * primitive name it returns the check it hands to the not-available
     * tracker; for a class or enumeration reference it hands over nothing.
     */
    method AddAttributeType(itemsObj: SchemaObject, attr: Attribute) returns (check: Option<NotAvailableCheck>)
      modifies itemsObj`typ, itemsObj`format
      ensures itemsObj.typ == Some(AttributeOpenApiType(attr.typ).typ)
      ensures itemsObj.format
           == if AttributeOpenApiType(attr.typ).format.Some? then AttributeOpenApiType(attr.typ).format
              else old(itemsObj.format)
      ensures itemsObj.extra == old(itemsObj.extra)
      ensures check.Some? <==> attr.typ.Prim? && attr.typ.typeName !in TableTypeNames
      ensures check.Some? ==> check.value == NotAvailableCheck(attr.parentName, attr.name, attr.typ.typeName)
    {
      check := None;
      var t := attr.typ;
      if t == Prim("Numeric") {
        itemsObj.typ := Some("number");
      } else if t == Prim("Indicator") {
        itemsObj.typ := Some("boolean");
      } else if t == Prim("Date") {
        itemsObj.typ := Some("string");
        itemsObj.format := Some("date");
      } else if t == Prim("DateTime") {
        itemsObj.typ := Some("string");
        itemsObj.format := Some("date-time");
      } else if t == Prim("Integer") {
        itemsObj.typ := Some("integer");
      } else if t == Prim("Int32") {
        itemsObj.typ := Some("integer");
        itemsObj.format := Some("int32");
      } else if t == Prim("Int64") {
        itemsObj.typ := Some("integer");
        itemsObj.format := Some("int64");
      } else if t == Prim("Number") {
        itemsObj.typ := Some("number");
      } else if t == Prim("Float") {
        itemsObj.typ := Some("number");
        itemsObj.format := Some("float");
      } else if t == Prim("Double") {
        itemsObj.typ := Some("number");
        itemsObj.format := Some("double");
      } else if t == Prim("Password") {
        itemsObj.typ := Some("string");
        itemsObj.format := Some("password");
      } else if t == Prim("Byte") {
        itemsObj.typ := Some("string");
        itemsObj.format := Some("byte");
      } else if t == Prim("Boolean") {
        itemsObj.typ := Some("boolean");
      } else if t == Prim("Binary") {
        itemsObj.typ := Some("string");
        itemsObj.format := Some("binary");
      } else {
        itemsObj.typ := Some("string");
        if t.Prim? {
          check := Some(NotAvailableCheck(attr.parentName, attr.name, t.typeName));
        }
      }
    }

    /**
     * `buildRequestBody(objInterface, requestBodyObj)`: a fresh
     * `application/json` content whose schema refers to the realization's
     * source, an empty description, and `required: true`.
     */
    method BuildRequestBody(objInterface: InterfaceRealization, referencePrefix: string,
                            requestBodyObj: RequestBodyObject)
      modifies requestBodyObj
      ensures requestBodyObj.content
           == Some(map["application/json" := MediaTypeObject(SchemaRef(referencePrefix + objInterface.sourceName))])
      ensures requestBodyObj.description == Some("")
      ensures requestBodyObj.required == Some(true)
    {
      var schemaObj := SchemaRef(referencePrefix + objInterface.sourceName);
      var appJsonObject := MediaTypeObject(schemaObj);
      requestBodyObj.content := Some(map["application/json" := appJsonObject]);
      requestBodyObj.description := Some("");
      requestBodyObj.required := Some(true);
    }

    /**
     * The `forEach` callback of `writeQueryParameters` for a parameter that is
     * not an id: a fresh object is pushed onto the array, then filled; when
     * the description throws, the pushed object stays empty.
     */
    method PushQueryParameter(parametersArray: ParamsArray, p: Parameter)
      returns (paramsObject: ParamsObject, thrown: bool)
      requires !IsIdParameter(p)
      modifies parametersArray
      ensures thrown <==> p.doc.NotAString?
      ensures fresh(paramsObject)
      ensures parametersArray.items == old(parametersArray.items) + [paramsObject]
      ensures paramsObject.Entry() == if thrown then EmptyEntry else QueryEntry(p)
    {
      paramsObject := new ParamsObject();
      parametersArray.items := parametersArray.items + [paramsObject];
      if p.doc.NotAString? {
        return paramsObject, true;
      }
      var description := if p.doc.Text? && p.doc.text != "" then BuildDescription(p.doc.text).value
                         else "missing description";
      var name := if p.classTypeName.Some? then p.classTypeName.value + "." + p.name else p.name;
      BuildParameter(name, "query", description, false, ParamSchema("string"), paramsObject);
      thrown := false;
    }

    /**
     * The `forEach` of `writeQueryParameters`: the callback for each parameter
     * in turn until one throws; reports whether one did.
     */
    method PushQueryParameters(parametersArray: ParamsArray, parameters: seq<Parameter>)
      returns (failed: bool, ghost added: seq<ParamsObject>)
      modifies parametersArray
      ensures failed == QueryParameters(parameters).error.Some?
      ensures parametersArray.items == old(parametersArray.items) + added
      ensures |added| == |QueryParameters(parameters).entries|
      ensures forall k :: 0 <= k < |added| ==>
        fresh(added[k]) && added[k].Entry() == QueryParameters(parameters).entries[k]
    {
      ghost var out := QueryOutcome([], None);
      added := [];
      failed := false;
      var i := 0;
      assert parameters[..0] == [];
      while i < |parameters| && !failed
        invariant 0 <= i <= |parameters|
        invariant out == QueryParameters(parameters[..i])
        invariant failed == out.error.Some?
        invariant parametersArray.items == old(parametersArray.items) + added
        invariant |added| == |out.entries|
        invariant forall k :: 0 <= k < |added| ==> fresh(added[k]) && added[k].Entry() == out.entries[k]
      {
        var p := parameters[i];
        QueryParametersStep(parameters, i);
        if !IsIdParameter(p) {
          var paramsObject;
          paramsObject, failed := PushQueryParameter(parametersArray, p);
          added := added + [paramsObject];
          out := QueryOutcome(out.entries + [paramsObject.Entry()], if failed then Some(ReplaceNotAFunction) else None);
        }
        i := i + 1;
      }
      if failed {
        QueryParametersErrorFinal(parameters, i);
      } else {
        assert parameters[..i] == parameters;
      }
    }

    /**
     * `writeQueryParameters(parametersArray, objOperation)`: keeps the
     * caller's entries and appends one fresh object per parameter the loop
     * reaches that is not an id, filled as `QueryParameters` says; a thrown
     * error leaves the pushed objects in place and its message is appended to
     * the error log.
     */
    method WriteQueryParameters(parametersArray: ParamsArray, parameters: seq<Parameter>)
      returns (ghost added: seq<ParamsObject>)
      modifies this`errorContent, parametersArray
      ensures parametersArray.items == old(parametersArray.items) + added
      ensures |added| == |QueryParameters(parameters).entries|
      ensures forall k :: 0 <= k < |added| ==>
        fresh(added[k]) && added[k].Entry() == QueryParameters(parameters).entries[k]
      ensures errorContent
           == old(errorContent) + (if QueryParameters(parameters).error.Some? then [ReplaceNotAFunction] else [])
    {
      var failed;
      failed, added := PushQueryParameters(parametersArray, parameters);
      if failed {
        WriteErrorToFile(ReplaceNotAFunction);
      }
    }
  }

  // ---------------------------------------------------------------------------
  // isEmpty
  // ---------------------------------------------------------------------------

  /** The classes, interfaces and enumerations among `elements`, in order (the `filter` of isEmpty). */
  function TypeElements(elements: seq<Element>): (r: seq<Element>)
    ensures forall e :: e in r <==> e in elements && e.IsTypeElement()
  {
    if elements == [] then []
    else
      var init := elements[..|elements| - 1];
      var last := elements[|elements| - 1];
      assert elements == init + [last];
      TypeElements(init) + (if last.IsTypeElement() then [last] else [])
  }

  /** `isEmpty(umlPackage)`: true iff the package owns no class, interface or enumeration. */
  function IsEmpty(umlPackage: Package): (r: bool)
    ensures !r <==> exists i :: 0 <= i < |umlPackage.ownedElements| && umlPackage.ownedElements[i].IsTypeElement()
  {
    var owned := TypeElements(umlPackage.ownedElements);
    assert |owned| > 0 ==> owned[0] in owned;
    !(|owned| > 0)
  }

  // ---------------------------------------------------------------------------
  // Visibility of attributes, operations and literals
  // ---------------------------------------------------------------------------

  /** What `openAPI.getModelType()` reports: a diagram export, a package export, or neither. */
  datatype ModelType = DiagramModel | PackageModel | OtherModel

  /** The views whose model is the element (the `filter` of isAttribviewVisible). */
  function ViewsOfElement(views: seq<View>, elementId: string): (r: seq<View>)
    ensures forall v :: v in r ==> v in views && v.modelId == elementId
  {
    if views == [] then []
    else (if views[0].modelId == elementId then [views[0]] else []) + ViewsOfElement(views[1..], elementId)
  }

  /** The first view of the element is at `k`. */
  ghost predicate FirstViewAt(views: seq<View>, elementId: string, k: int)
  {
    0 <= k < |views| && views[k].modelId == elementId
    && forall j :: 0 <= j < k ==> views[j].modelId != elementId
  }

  /** The filter's first element is the first view whose model is the element. */
  lemma {:induction false} ViewsOfElementFirst(views: seq<View>, elementId: string)
    ensures |ViewsOfElement(views, elementId)| > 0 <==> exists k :: FirstViewAt(views, elementId, k)
    ensures forall k :: FirstViewAt(views, elementId, k) ==> ViewsOfElement(views, elementId)[0] == views[k]
  {
    if views != [] {
      ViewsOfElementFirst(views[1..], elementId);
      if views[0].modelId == elementId {
        assert ViewsOfElement(views, elementId) == [views[0]] + ViewsOfElement(views[1..], elementId);
        assert FirstViewAt(views, elementId, 0);
        forall k | FirstViewAt(views, elementId, k) ensures k == 0 {
        }
      } else {
        assert ViewsOfElement(views, elementId) == ViewsOfElement(views[1..], elementId);
        forall k | FirstViewAt(views, elementId, k) ensures FirstViewAt(views[1..], elementId, k - 1) {
          assert k != 0;
          forall j | 0 <= j < k - 1 ensures views[1..][j].modelId != elementId {
            assert views[1..][j] == views[j + 1];
          }
        }
        forall k | FirstViewAt(views[1..], elementId, k) ensures FirstViewAt(views, elementId, k + 1) {
          forall j | 0 <= j < k + 1 ensures views[j].modelId != elementId {
            if j > 0 {
              assert views[j] == views[1..][j - 1];
            }
          }
        }
      }
    }
  }

  /**
   * `isAttribviewVisible(element)` over the views the host reports for it:
   * true iff the first view whose model is the element is visible; an
   * element without such a view is not visible.
   */
  function IsAttribviewVisible(elementId: string, views: seq<View>): (r: bool)
    ensures r <==> exists k :: FirstViewAt(views, elementId, k) && views[k].visible
  {
    ViewsOfElementFirst(views, elementId);
    var resAttr := ViewsOfElement(views, elementId);
    |views| >= 1 && |resAttr| > 0 && resAttr[0].visible
  }

  /**
   * `addAttributeData`, `addOperationData` and `addLiteralData`, which are the
   * same function: every member is shown in a package export; in a diagram
   * export a member is shown iff its first view is visible; otherwise none is.
   */
  function AddMemberData(modelType: ModelType, elementId: string, views: seq<View>): (r: bool)
    ensures modelType == PackageModel ==> r
    ensures modelType == OtherModel ==> !r
    ensures modelType == DiagramModel ==> (r <==> exists k :: FirstViewAt(views, elementId, k) && views[k].visible)
  {
    if modelType == DiagramModel && IsAttribviewVisible(elementId, views) then true
    else modelType == PackageModel
  }

  // ---------------------------------------------------------------------------
  // getEnumerationLiteral
  // ---------------------------------------------------------------------------

  /** What `getEnumerationLiteral` gives back: undefined, the literal names, or a thrown error. */
  datatype LiteralsResult = Undefined | Literals(names: seq<string>) | Thrown(message: string)

  /**
   * The names bound on the object `_this` refers to. It is the module's
   * original `exports` object, which `module.exports = Utils` replaces before
   * any function is attached, so it holds none.
   */
  const OriginalExportNames: set<string> := {}

  /** The names attached to the object that does become the module's exports. */
  const UtilsExportNames: set<string> :=
    {"isEmpty", "isAttribviewVisible", "addOperationData", "addAttributeData", "addLiteralData"}

  /** The message V8 gives for calling a missing `addLiteralData` on `_this`. */
  const LiteralDataNotAFunction := "_this.addLiteralData is not a function"

  /** The names of the literals `addLiteralData` keeps, in order. */
  function VisibleLiteralNames(literals: seq<Literal>, modelType: ModelType, viewsOf: string -> seq<View>): seq<string>
  {
    if literals == [] then []
    else
      var init := literals[..|literals| - 1];
      var last := literals[|literals| - 1];
      VisibleLiteralNames(init, modelType, viewsOf)
        + (if AddMemberData(modelType, last.id, viewsOf(last.id)) then [last.name] else [])
  }

  /** A literal's name is kept iff the literal is visible. */
  lemma {:induction false} VisibleLiteralNamesExact(literals: seq<Literal>, modelType: ModelType, viewsOf: string -> seq<View>)
    ensures forall l :: l in literals && AddMemberData(modelType, l.id, viewsOf(l.id)) ==>
      l.name in VisibleLiteralNames(literals, modelType, viewsOf)
    ensures forall n :: n in VisibleLiteralNames(literals, modelType, viewsOf) ==>
      exists l :: l in literals && l.name == n && AddMemberData(modelType, l.id, viewsOf(l.id))
  {
    if literals != [] {
      var init := literals[..|literals| - 1];
      VisibleLiteralNamesExact(init, modelType, viewsOf);
      assert literals == init + [literals[|literals| - 1]];
    }
  }

  /** In a package export every literal's name is kept, in order; in any mode but the two, none is. */
  lemma {:induction false} VisibleLiteralNamesByMode(literals: seq<Literal>, modelType: ModelType, viewsOf: string -> seq<View>)
    ensures modelType == PackageModel ==>
      VisibleLiteralNames(literals, modelType, viewsOf) == seq(|literals|, k requires 0 <= k < |literals| => literals[k].name)
    ensures modelType == OtherModel ==> VisibleLiteralNames(literals, modelType, viewsOf) == []
  {
    if literals != [] {
      VisibleLiteralNamesByMode(literals[..|literals| - 1], modelType, viewsOf);
    }
  }

  /**
   * The loop of `getEnumerationLiteral(objEnum)` when `_this` is an object
   * binding the names `bound`: with `addLiteralData` bound, the names of the
   * visible literals in order; without it, the call on the first literal
   * throws.
   */
  method EnumerationLiteralsVia(bound: set<string>, objEnum: Option<Enum>, modelType: ModelType,
                                viewsOf: string -> seq<View>)
    returns (r: LiteralsResult)
    ensures objEnum.None? ==> r == Undefined
    ensures objEnum.Some? && "addLiteralData" in bound ==>
      r == Literals(VisibleLiteralNames(objEnum.value.literals, modelType, viewsOf))
    ensures objEnum.Some? && "addLiteralData" !in bound ==>
      r == if objEnum.value.literals == [] then Literals([]) else Thrown(LiteralDataNotAFunction)
  {
    if objEnum.None? {
      return Undefined;
    }
    var result: seq<string> := [];
    var literals := objEnum.value.literals;
    var i := 0;
    while i < |literals|
      invariant 0 <= i <= |literals|
      invariant "addLiteralData" in bound ==> result == VisibleLiteralNames(literals[..i], modelType, viewsOf)
      invariant "addLiteralData" !in bound ==> i == 0 && result == []
    {
      if "addLiteralData" !in bound {
        return Thrown(LiteralDataNotAFunction);
      }
      var literal := literals[i];
      assert literals[..i + 1][..i] == literals[..i];
      if AddMemberData(modelType, literal.id, viewsOf(literal.id)) {
        result := result + [literal.name];
      }
      i := i + 1;
    }
    assert literals[..i] == literals;
    r := Literals(result);
  }

  /**
   * `getEnumerationLiteral(objEnum)` as written: `_this` is the original
   * exports object, so an enumeration with a literal throws, one without
   * literals gives `[]`, and a falsy `objEnum` gives undefined.
   */
  method GetEnumerationLiteralAsWritten(objEnum: Option<Enum>, modelType: ModelType, viewsOf: string -> seq<View>)
    returns (r: LiteralsResult)
    ensures objEnum.None? ==> r == Undefined
    ensures objEnum.Some? && objEnum.value.literals == [] ==> r == Literals([])
    ensures objEnum.Some? && objEnum.value.literals != [] ==> r == Thrown(LiteralDataNotAFunction)
  {
    r := EnumerationLiteralsVia(OriginalExportNames, objEnum, modelType, viewsOf);
  }

  /**
   * `getEnumerationLiteral(objEnum)` with the visibility test taken from the
   * module's exports: the names of the visible literals, in order.
   */
  method GetEnumerationLiteral(objEnum: Option<Enum>, modelType: ModelType, viewsOf: string -> seq<View>)
    returns (r: LiteralsResult)
    ensures objEnum.None? ==> r == Undefined
    ensures objEnum.Some? ==> r == Literals(VisibleLiteralNames(objEnum.value.literals, modelType, viewsOf))
  {
    r := EnumerationLiteralsVia(UtilsExportNames, objEnum, modelType, viewsOf);
  }
}
