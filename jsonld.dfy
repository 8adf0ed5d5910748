/**
 * The JSON-LD vocabulary builder of src/jsonld/jsonld.js: the class list of
 * the exported package, the `rdfs_classes`, `rdfs_properties` and
 * `rdfs_instances` arrays of the `@graph`, and the fixed `@context` and
 * ontology header. The module-level state (the export element, the file
 * path, the `generatedEnumInstance` list the class pass leaves for the
 * instance pass) lives in the `JsonLdExporter` class.
 */
module JsonLd {
  import opened Wrappers
  import opened Uml

  // ---------------------------------------------------------------------------
  // getAttrTypeClass: the classes used as attribute types, one level deep
  // ---------------------------------------------------------------------------

  /** The classes the attributes are typed with, in attribute order, repeats kept. */
  function AttrClassRefs(attrs: seq<Attribute>): seq<Class>
  {
    if attrs == [] then []
    else
      var last := attrs[|attrs| - 1];
      AttrClassRefs(attrs[..|attrs| - 1]) + (if last.typ.ClassRef? then [last.typ.cls] else [])
  }

  /** The classes the attributes of `classes` are typed with, class by class, repeats kept. */
  function ClassRefs(classes: seq<Class>): seq<Class>
  {
    if classes == [] then []
    else ClassRefs(classes[..|classes| - 1]) + AttrClassRefs(classes[|classes| - 1].attributes)
  }

  /** Some class in `s` has the id. */
  predicate HasClassId(s: seq<Class>, id: string)
  {
    exists k :: 0 <= k < |s| && s[k].id == id
  }

  /** `s` with every class dropped whose id an earlier class already has. */
  function FirstById(s: seq<Class>): seq<Class>
  {
    if s == [] then []
    else
      var kept := FirstById(s[..|s| - 1]);
      var last := s[|s| - 1];
      if HasClassId(kept, last.id) then kept else kept + [last]
  }

  /** What `getAttrTypeClass(mClasses)` returns. */
  function AttrTypeClasses(roots: seq<Class>): seq<Class>
  {
    FirstById(ClassRefs(roots))
  }

  /** The position of the first class in `s` with the id. */
  ghost function FirstIdIndex(s: seq<Class>, id: string): (i: nat)
    requires HasClassId(s, id)
    ensures i < |s| && s[i].id == id
    ensures forall j :: 0 <= j < i ==> s[j].id != id
  {
    var init := s[..|s| - 1];
    if HasClassId(init, id) then FirstIdIndex(init, id) else |s| - 1
  }

  /** A class is among the referenced classes iff some attribute of some root is typed with it. */
  lemma {:induction false} ClassRefsExact(roots: seq<Class>)
    ensures forall c :: c in ClassRefs(roots) <==>
      exists r, a :: r in roots && a in r.attributes && a.typ == ClassRef(c)
  {
    if roots != [] {
      var init := roots[..|roots| - 1];
      var last := roots[|roots| - 1];
      ClassRefsExact(init);
      AttrClassRefsExact(last.attributes);
      assert roots == init + [last];
    }
  }

  lemma {:induction false} AttrClassRefsExact(attrs: seq<Attribute>)
    ensures forall c :: c in AttrClassRefs(attrs) <==> exists a :: a in attrs && a.typ == ClassRef(c)
  {
    if attrs != [] {
      var init := attrs[..|attrs| - 1];
      AttrClassRefsExact(init);
      assert attrs == init + [attrs[|attrs| - 1]];
    }
  }

  /** Dropping later repeats keeps only classes of `s`, no two of them with the same id. */
  lemma {:induction false} FirstByIdSoundUnique(s: seq<Class>)
    ensures forall c :: c in FirstById(s) ==> c in s
    ensures forall p, q :: 0 <= p < q < |FirstById(s)| ==> FirstById(s)[p].id != FirstById(s)[q].id
  {
    if s != [] {
      var init := s[..|s| - 1];
      var last := s[|s| - 1];
      var kept := FirstById(init);
      FirstByIdSoundUnique(init);
      assert s == init + [last];
      if !HasClassId(kept, last.id) {
        var r := kept + [last];
        forall p, q | 0 <= p < q < |r| ensures r[p].id != r[q].id {
          if q < |kept| {
            assert r[p] == kept[p] && r[q] == kept[q];
          } else {
            assert r[p] == kept[p];
          }
        }
      }
    }
  }

  /** Dropping later repeats loses no id of `s`. */
  lemma {:induction false} FirstByIdComplete(s: seq<Class>)
    ensures forall c :: c in s ==> HasClassId(FirstById(s), c.id)
  {
    if s != [] {
      var init := s[..|s| - 1];
      var last := s[|s| - 1];
      var kept := FirstById(init);
      FirstByIdComplete(init);
      assert s == init + [last];
      forall c | c in s ensures HasClassId(FirstById(s), c.id) {
        if c in init {
          var k :| 0 <= k < |kept| && kept[k].id == c.id;
          assert FirstById(s)[k] == kept[k];
        } else if !HasClassId(kept, last.id) {
          assert FirstById(s)[|kept|] == last;
        } else {
          var k :| 0 <= k < |kept| && kept[k].id == c.id;
          assert FirstById(s)[k] == kept[k];
        }
      }
    }
  }

  /**
   * Each kept class is the first class of its id in `s`, and the kept classes
   * come in the order of those first occurrences.
   */
  lemma {:induction false} FirstByIdFirstOccurrence(s: seq<Class>)
    ensures forall k :: 0 <= k < |FirstById(s)| ==>
      HasClassId(s, FirstById(s)[k].id) && s[FirstIdIndex(s, FirstById(s)[k].id)] == FirstById(s)[k]
    ensures forall p, q :: 0 <= p < q < |FirstById(s)| ==>
      HasClassId(s, FirstById(s)[p].id) && HasClassId(s, FirstById(s)[q].id) &&
      FirstIdIndex(s, FirstById(s)[p].id) < FirstIdIndex(s, FirstById(s)[q].id)
  {
    if s != [] {
      var init := s[..|s| - 1];
      var last := s[|s| - 1];
      var kept := FirstById(init);
      FirstByIdFirstOccurrence(init);
      forall k | 0 <= k < |kept|
        ensures HasClassId(s, kept[k].id) && FirstIdIndex(s, kept[k].id) == FirstIdIndex(init, kept[k].id)
        ensures FirstIdIndex(init, kept[k].id) < |init| && s[FirstIdIndex(init, kept[k].id)] == kept[k]
      {
        var i := FirstIdIndex(init, kept[k].id);
        assert s[i] == init[i];
      }
      if !HasClassId(kept, last.id) {
        FirstByIdComplete(init);
        assert !HasClassId(init, last.id) by {
          forall j | 0 <= j < |init| ensures init[j].id != last.id {
            assert init[j] in init;
          }
        }
        assert FirstIdIndex(s, last.id) == |s| - 1;
        assert HasClassId(s, last.id);
      }
    }
  }

  /** Dropping repeats a second time changes nothing. */
  lemma {:induction false} FirstByIdIdempotent(s: seq<Class>)
    ensures FirstById(FirstById(s)) == FirstById(s)
  {
    FirstByIdSoundUnique(s);
    UniqueIdsUnchanged(FirstById(s));
  }

  /** A list whose ids are all different is kept whole. */
  lemma {:induction false} UniqueIdsUnchanged(s: seq<Class>)
    requires forall p, q :: 0 <= p < q < |s| ==> s[p].id != s[q].id
    ensures FirstById(s) == s
  {
    if s != [] {
      var init := s[..|s| - 1];
      UniqueIdsUnchanged(init);
      assert !HasClassId(init, s[|s| - 1].id);
    }
  }

  /**
   * `getAttrTypeClass(mClasses)`: only classes some root attribute is typed
   * with, no two with the same id, and every such class represented; the
   * discovered classes' own attributes are not scanned.
   */
  lemma AttrTypeClassesSpec(roots: seq<Class>)
    ensures forall c :: c in AttrTypeClasses(roots) ==>
      exists r, a :: r in roots && a in r.attributes && a.typ == ClassRef(c)
    ensures forall p, q :: 0 <= p < q < |AttrTypeClasses(roots)| ==>
      AttrTypeClasses(roots)[p].id != AttrTypeClasses(roots)[q].id
    ensures forall r, a :: r in roots && a in r.attributes && a.typ.ClassRef? ==>
      HasClassId(AttrTypeClasses(roots), a.typ.cls.id)
  {
    var refs := ClassRefs(roots);
    assert AttrTypeClasses(roots) == FirstById(refs);
    ClassRefsExact(roots);
    FirstByIdSoundUnique(refs);
    FirstByIdComplete(refs);
    forall r, a | r in roots && a in r.attributes && a.typ.ClassRef?
      ensures HasClassId(AttrTypeClasses(roots), a.typ.cls.id)
    {
      assert a.typ == ClassRef(a.typ.cls);
      assert a.typ.cls in refs;
    }
  }

  /**
   * `getAttrTypeClass(mClasses)` keeps the first class met for each id, in
   * the order the scan first meets the ids.
   */
  lemma AttrTypeClassesOrder(roots: seq<Class>)
    ensures forall k :: 0 <= k < |AttrTypeClasses(roots)| ==>
      HasClassId(ClassRefs(roots), AttrTypeClasses(roots)[k].id) &&
      ClassRefs(roots)[FirstIdIndex(ClassRefs(roots), AttrTypeClasses(roots)[k].id)] == AttrTypeClasses(roots)[k]
    ensures forall p, q :: 0 <= p < q < |AttrTypeClasses(roots)| ==>
      HasClassId(ClassRefs(roots), AttrTypeClasses(roots)[p].id) &&
      HasClassId(ClassRefs(roots), AttrTypeClasses(roots)[q].id) &&
      FirstIdIndex(ClassRefs(roots), AttrTypeClasses(roots)[p].id)
        < FirstIdIndex(ClassRefs(roots), AttrTypeClasses(roots)[q].id)
  {
    var refs := ClassRefs(roots);
    assert AttrTypeClasses(roots) == FirstById(refs);
    FirstByIdFirstOccurrence(refs);
  }

  /** One level only: a class reached through a discovered class is not itself discovered. */
  lemma DiscoveryIsOneLevel(a: Class, b: Class, c: Class, x: Attribute, y: Attribute)
    requires x.typ == ClassRef(b) && y.typ == ClassRef(c)
    requires a.attributes == [x] && b.attributes == [y]
    ensures AttrTypeClasses([a]) == [b]
  {
    assert [x][..0] == [] && [a][..0] == [] && [b][..0] == [];
    assert AttrClassRefs([x]) == AttrClassRefs([]) + [b];
    assert ClassRefs([a]) == ClassRefs([]) + AttrClassRefs(a.attributes);
    assert ClassRefs([a]) == [b];
    assert !HasClassId(FirstById([]), b.id);
    assert FirstById([b]) == FirstById([]) + [b];
  }

  /** Appending one class to the scan keeps it or drops it by its id. */
  lemma FirstByIdSnoc(s: seq<Class>, c: Class)
    ensures FirstById(s + [c]) == if HasClassId(FirstById(s), c.id) then FirstById(s) else FirstById(s) + [c]
  {
    assert (s + [c])[..|s|] == s;
  }

  /** One more attribute scanned adds its class, if it has a class type. */
  lemma AttrClassRefsStep(attrs: seq<Attribute>, j: nat)
    requires j < |attrs|
    ensures AttrClassRefs(attrs[..j + 1])
         == AttrClassRefs(attrs[..j]) + (if attrs[j].typ.ClassRef? then [attrs[j].typ.cls] else [])
  {
    assert attrs[..j + 1][..j] == attrs[..j];
  }

  /**
   * The inner loop of `getAttrTypeClass` over one class's attributes: given
   * the classes kept from what was scanned so far, the classes kept once the
   * attributes are scanned too.
   */
  method ScanAttributes(attrs: seq<Attribute>, ghost scanned: seq<Class>, found: seq<Class>)
    returns (mNewClasses: seq<Class>)
    requires found == FirstById(scanned)
    ensures mNewClasses == FirstById(scanned + AttrClassRefs(attrs))
  {
    mNewClasses := found;
    var j := 0;
    assert attrs[..0] == [];
    assert scanned + AttrClassRefs(attrs[..0]) == scanned;
    while j < |attrs|
      invariant 0 <= j <= |attrs|
      invariant mNewClasses == FirstById(scanned + AttrClassRefs(attrs[..j]))
    {
      var attr := attrs[j];
      ghost var before := scanned + AttrClassRefs(attrs[..j]);
      AttrClassRefsStep(attrs, j);
      if attr.typ.ClassRef? {
        assert scanned + AttrClassRefs(attrs[..j + 1]) == before + [attr.typ.cls];
        FirstByIdSnoc(before, attr.typ.cls);
        if !HasClassId(mNewClasses, attr.typ.cls.id) {
          mNewClasses := mNewClasses + [attr.typ.cls];
        }
      } else {
        assert scanned + AttrClassRefs(attrs[..j + 1]) == before;
      }
      j := j + 1;
    }
    assert attrs[..j] == attrs;
  }

  /**
   * `getAttrTypeClass` as a loop over the roots and their attributes, pushing
   * each class-typed attribute's class unless one with its id is already
   * there.
   */
  method GetAttrTypeClass(mClasses: seq<Class>) returns (mNewClasses: seq<Class>)
    ensures mNewClasses == AttrTypeClasses(mClasses)
  {
    mNewClasses := [];
    var i := 0;
    while i < |mClasses|
      invariant 0 <= i <= |mClasses|
      invariant mNewClasses == FirstById(ClassRefs(mClasses[..i]))
    {
      mNewClasses := ScanAttributes(mClasses[i].attributes, ClassRefs(mClasses[..i]), mNewClasses);
      assert mClasses[..i + 1][..i] == mClasses[..i];
      i := i + 1;
    }
    assert mClasses[..i] == mClasses;
  }

  // ---------------------------------------------------------------------------
  // The class list both passes walk
  // ---------------------------------------------------------------------------

  /** The classes among a package's owned elements, in order. */
  function PackageClasses(elements: seq<Element>): (r: seq<Class>)
    ensures forall c :: c in r <==> ClassElement(c) in elements
  {
    if elements == [] then []
    else
      var init := elements[..|elements| - 1];
      var last := elements[|elements| - 1];
      assert elements == init + [last];
      PackageClasses(init) + (if last.ClassElement? then [last.cls] else [])
  }

  /** The package's classes followed by the classes they use as attribute types. */
  function ExportClasses(umlPackage: Package): seq<Class>
  {
    var roots := PackageClasses(umlPackage.ownedElements);
    roots + AttrTypeClasses(roots)
  }

  /** The class list both passes build: the package's classes, then `getAttrTypeClass` of them. */
  method ExportClassList(umlPackage: Package) returns (mNewClasses: seq<Class>)
    ensures mNewClasses == ExportClasses(umlPackage)
  {
    var mClasses := PackageClasses(umlPackage.ownedElements);
    mNewClasses := GetAttrTypeClass(mClasses);
    mNewClasses := mClasses + mNewClasses;
  }

  /**
   * The discovered classes are not checked against the roots: a root class
   * that another root uses as an attribute type is listed a second time.
   */
  lemma RootsAreNotDeduplicated(umlPackage: Package, r: Class, owner: Class, a: Attribute)
    requires ClassElement(r) in umlPackage.ownedElements && ClassElement(owner) in umlPackage.ownedElements
    requires a in owner.attributes && a.typ == ClassRef(r)
    ensures exists k :: |PackageClasses(umlPackage.ownedElements)| <= k < |ExportClasses(umlPackage)|
                        && ExportClasses(umlPackage)[k].id == r.id
    ensures r in ExportClasses(umlPackage)[..|PackageClasses(umlPackage.ownedElements)|]
  {
    var roots := PackageClasses(umlPackage.ownedElements);
    AttrTypeClassesSpec(roots);
    var found := AttrTypeClasses(roots);
    var k :| 0 <= k < |found| && found[k].id == r.id;
    assert ExportClasses(umlPackage)[|roots| + k] == found[k];
    assert ExportClasses(umlPackage)[..|roots|] == roots;
  }

  // ---------------------------------------------------------------------------
  // getParentClasses
  // ---------------------------------------------------------------------------

  /** The target names of the generalizations leaving the class with the id, in order, repeats kept. */
  function ParentNames(id: string, generalizations: seq<Generalization>): seq<string>
  {
    if generalizations == [] then []
    else
      var last := generalizations[|generalizations| - 1];
      ParentNames(id, generalizations[..|generalizations| - 1])
        + (if last.sourceId == id then [last.targetName] else [])
  }

  /** A name is a parent name iff some generalization from the class targets it. */
  lemma {:induction false} ParentNamesExact(id: string, generalizations: seq<Generalization>)
    ensures forall n :: n in ParentNames(id, generalizations) <==>
      exists g :: g in generalizations && g.sourceId == id && g.targetName == n
  {
    if generalizations != [] {
      var init := generalizations[..|generalizations| - 1];
      ParentNamesExact(id, init);
      assert generalizations == init + [generalizations[|generalizations| - 1]];
    }
  }

  /** The parent names follow the order the generalizations are met in. */
  lemma {:induction false} ParentNamesAppend(id: string, g1: seq<Generalization>, g2: seq<Generalization>)
    ensures ParentNames(id, g1 + g2) == ParentNames(id, g1) + ParentNames(id, g2)
  {
    if g2 == [] {
      assert g1 + g2 == g1;
    } else {
      var init := g2[..|g2| - 1];
      ParentNamesAppend(id, g1, init);
      assert (g1 + g2)[..|g1 + g2| - 1] == g1 + init;
    }
  }

  /** Two edges to the same target give the target twice. */
  lemma ParentNamesKeepRepeats(id: string, other: string, parent: string)
    requires other != id
    ensures ParentNames(id, [Generalization(id, parent), Generalization(other, "x"), Generalization(id, parent)])
         == [parent, parent]
  {
    var gs := [Generalization(id, parent), Generalization(other, "x"), Generalization(id, parent)];
    assert gs[..1][..0] == [];
    assert ParentNames(id, gs[..1]) == ParentNames(id, []) + [parent];
    assert gs[..2][..1] == gs[..1];
    assert ParentNames(id, gs[..2]) == ParentNames(id, gs[..1]) + [];
    assert gs[..2] == gs[..|gs| - 1];
    assert ParentNames(id, gs) == ParentNames(id, gs[..2]) + [parent];
  }

  /** `getParentClasses(mElement)` over the generalizations the repository holds. */
  method GetParentClasses(mElement: Class, generalizations: seq<Generalization>) returns (parentClasses: seq<string>)
    ensures parentClasses == ParentNames(mElement.id, generalizations)
  {
    parentClasses := [];
    var i := 0;
    while i < |generalizations|
      invariant 0 <= i <= |generalizations|
      invariant parentClasses == ParentNames(mElement.id, generalizations[..i])
    {
      var gen := generalizations[i];
      assert generalizations[..i + 1][..i] == generalizations[..i];
      if gen.sourceId == mElement.id {
        parentClasses := parentClasses + [gen.targetName];
      }
      i := i + 1;
    }
    assert generalizations[..i] == generalizations;
  }

  // ---------------------------------------------------------------------------
  // rdfs_classes
  // ---------------------------------------------------------------------------

  const RdfsClass := "rdfs:Class"

  /** An `rdfs:Class` entry; `subClassOf` is None for the entries made from enumerations. */
  datatype ClassEntry = ClassEntry(id: string, typ: string, subClassOf: Option<seq<string>>)

  /** The enumerations the attributes are typed with, in attribute order, repeats kept. */
  function EnumTypes(attrs: seq<Attribute>): seq<Enum>
  {
    if attrs == [] then []
    else
      var last := attrs[|attrs| - 1];
      EnumTypes(attrs[..|attrs| - 1]) + (if last.typ.EnumRef? then [last.typ.enum] else [])
  }

  /** The `rdfs:Class` entries made from the enumeration-typed attributes. */
  function EnumClassEntries(attrs: seq<Attribute>): seq<ClassEntry>
  {
    if attrs == [] then []
    else
      var last := attrs[|attrs| - 1];
      EnumClassEntries(attrs[..|attrs| - 1])
        + (if last.typ.EnumRef? then [ClassEntry(last.typ.enum.name, RdfsClass, None)] else [])
  }

  /** One class's entry followed by one entry per enumeration-typed attribute. */
  function ClassEntries(c: Class, generalizations: seq<Generalization>): seq<ClassEntry>
  {
    [ClassEntry(c.name, RdfsClass, Some(ParentNames(c.id, generalizations)))] + EnumClassEntries(c.attributes)
  }

  /** The `rdfs_classes` array for a class list. */
  function ClassEntriesOf(classes: seq<Class>, generalizations: seq<Generalization>): seq<ClassEntry>
  {
    if classes == [] then []
    else ClassEntriesOf(classes[..|classes| - 1], generalizations) + ClassEntries(classes[|classes| - 1], generalizations)
  }

  /** What the class pass leaves in `generatedEnumInstance` for a class list. */
  function EnumTypesOf(classes: seq<Class>): seq<Enum>
  {
    if classes == [] then []
    else EnumTypesOf(classes[..|classes| - 1]) + EnumTypes(classes[|classes| - 1].attributes)
  }

  /** The class at index `i` adds its entries and its enumeration types. */
  lemma ClassEntriesOfStep(classes: seq<Class>, i: nat, generalizations: seq<Generalization>)
    requires i < |classes|
    ensures ClassEntriesOf(classes[..i + 1], generalizations)
         == ClassEntriesOf(classes[..i], generalizations) + ClassEntries(classes[i], generalizations)
    ensures EnumTypesOf(classes[..i + 1]) == EnumTypesOf(classes[..i]) + EnumTypes(classes[i].attributes)
  {
    assert classes[..i + 1][..i] == classes[..i];
  }

  /** The enumeration entries and the recorded enumerations correspond one to one, in order. */
  lemma {:induction false} EnumClassEntriesMatch(attrs: seq<Attribute>)
    ensures |EnumClassEntries(attrs)| == |EnumTypes(attrs)|
    ensures forall k :: 0 <= k < |EnumTypes(attrs)| ==>
      EnumClassEntries(attrs)[k] == ClassEntry(EnumTypes(attrs)[k].name, RdfsClass, None)
  {
    if attrs != [] {
      EnumClassEntriesMatch(attrs[..|attrs| - 1]);
    }
  }

  /** An enumeration is recorded iff some attribute of some listed class is typed with it. */
  lemma {:induction false} EnumTypesOfExact(classes: seq<Class>)
    ensures forall e :: e in EnumTypesOf(classes) <==>
      exists c, a :: c in classes && a in c.attributes && a.typ == EnumRef(e)
  {
    if classes != [] {
      var init := classes[..|classes| - 1];
      var last := classes[|classes| - 1];
      EnumTypesOfExact(init);
      EnumTypesExact(last.attributes);
      assert classes == init + [last];
    }
  }

  lemma {:induction false} EnumTypesExact(attrs: seq<Attribute>)
    ensures forall e :: e in EnumTypes(attrs) <==> exists a :: a in attrs && a.typ == EnumRef(e)
  {
    if attrs != [] {
      var init := attrs[..|attrs| - 1];
      EnumTypesExact(init);
      assert attrs == init + [attrs[|attrs| - 1]];
    }
  }

  /**
   * The class pass emits one entry per listed class plus one per
   * enumeration-typed attribute (not deduplicated), each of type
   * `rdfs:Class`, and an entry for every listed class.
   */
  lemma {:induction false} ClassEntriesOfShape(classes: seq<Class>, generalizations: seq<Generalization>)
    ensures |ClassEntriesOf(classes, generalizations)| == |classes| + |EnumTypesOf(classes)|
    ensures forall x :: x in ClassEntriesOf(classes, generalizations) ==> x.typ == RdfsClass
    ensures forall c :: c in classes ==>
      ClassEntry(c.name, RdfsClass, Some(ParentNames(c.id, generalizations))) in ClassEntriesOf(classes, generalizations)
  {
    if classes != [] {
      var init := classes[..|classes| - 1];
      var last := classes[|classes| - 1];
      ClassEntriesOfShape(init, generalizations);
      EnumClassEntriesMatch(last.attributes);
      assert classes == init + [last];
      var tail := ClassEntries(last, generalizations);
      forall x | x in tail ensures x.typ == RdfsClass {
        if x != tail[0] {
          var k :| 0 <= k < |tail| && tail[k] == x;
          assert EnumClassEntries(last.attributes)[k - 1] == x;
        }
      }
      assert tail[0] in tail;
    }
  }

  // ---------------------------------------------------------------------------
  // rdfs_instances
  // ---------------------------------------------------------------------------

  /** An enumeration-literal instance `{@id: Enum/Literal, @type: Enum}`. */
  datatype InstanceEntry = InstanceEntry(id: string, typ: string)

  /** Some enumeration in `s` has the id. */
  predicate HasEnumId(s: seq<Enum>, id: string)
  {
    exists k :: 0 <= k < |s| && s[k].id == id
  }

  /** The enumerations whose id the class pass did not record, in order. */
  function NotGenerated(enums: seq<Enum>, generated: seq<Enum>): seq<Enum>
  {
    if enums == [] then []
    else
      var last := enums[|enums| - 1];
      NotGenerated(enums[..|enums| - 1], generated) + (if HasEnumId(generated, last.id) then [] else [last])
  }

  /** One instance per literal of `e` among `literals`, in order. */
  function LiteralInstances(e: Enum, literals: seq<Literal>): seq<InstanceEntry>
  {
    if literals == [] then []
    else
      LiteralInstances(e, literals[..|literals| - 1])
        + [InstanceEntry(e.name + "/" + literals[|literals| - 1].name, e.name)]
  }

  /** The instances of every literal of every enumeration, enumeration order then literal order. */
  function InstancesOf(enums: seq<Enum>): seq<InstanceEntry>
  {
    if enums == [] then []
    else
      var last := enums[|enums| - 1];
      InstancesOf(enums[..|enums| - 1]) + LiteralInstances(last, last.literals)
  }

  /** The instance for literal `l` of enumeration `e`. */
  function InstanceFor(e: Enum, l: Literal): InstanceEntry
  {
    InstanceEntry(e.name + "/" + l.name, e.name)
  }

  /** An enumeration survives the filter iff it was not recorded by the class pass. */
  lemma {:induction false} NotGeneratedExact(enums: seq<Enum>, generated: seq<Enum>)
    ensures forall e :: e in NotGenerated(enums, generated) <==> e in enums && !HasEnumId(generated, e.id)
  {
    if enums != [] {
      var init := enums[..|enums| - 1];
      NotGeneratedExact(init, generated);
      assert enums == init + [enums[|enums| - 1]];
    }
  }

  lemma {:induction false} LiteralInstancesExact(e: Enum, literals: seq<Literal>)
    ensures |LiteralInstances(e, literals)| == |literals|
    ensures forall k :: 0 <= k < |literals| ==> LiteralInstances(e, literals)[k] == InstanceFor(e, literals[k])
  {
    if literals != [] {
      LiteralInstancesExact(e, literals[..|literals| - 1]);
    }
  }

  /** An entry is an instance iff it is made from a literal of one of the enumerations. */
  lemma {:induction false} InstancesOfExact(enums: seq<Enum>)
    ensures forall x :: x in InstancesOf(enums) <==>
      exists e, l :: e in enums && l in e.literals && x == InstanceFor(e, l)
  {
    if enums != [] {
      var init := enums[..|enums| - 1];
      var last := enums[|enums| - 1];
      InstancesOfExact(init);
      LiteralInstancesExact(last, last.literals);
      assert enums == init + [last];
      forall x | x in LiteralInstances(last, last.literals)
        ensures exists l :: l in last.literals && x == InstanceFor(last, l)
      {
        var k :| 0 <= k < |last.literals| && LiteralInstances(last, last.literals)[k] == x;
        assert last.literals[k] in last.literals;
      }
      forall l | l in last.literals ensures InstanceFor(last, l) in LiteralInstances(last, last.literals) {
        var k :| 0 <= k < |last.literals| && last.literals[k] == l;
        assert LiteralInstances(last, last.literals)[k] == InstanceFor(last, l);
      }
    }
  }

  /**
   * The instance pass: an entry is emitted iff it is made from a literal of a
   * package enumeration whose id the class pass did not record.
   */
  lemma InstancesSkipRecorded(enums: seq<Enum>, generated: seq<Enum>)
    ensures forall x :: x in InstancesOf(NotGenerated(enums, generated)) <==>
      exists e, l :: e in enums && !HasEnumId(generated, e.id) && l in e.literals && x == InstanceFor(e, l)
  {
    NotGeneratedExact(enums, generated);
    InstancesOfExact(NotGenerated(enums, generated));
  }

  /** The filter loop of `getRdfsInstancesArr()`: the enumerations whose id is not among `generated`. */
  method FilterNotGenerated(enums: seq<Enum>, generated: seq<Enum>) returns (filtered: seq<Enum>)
    ensures filtered == NotGenerated(enums, generated)
  {
    filtered := [];
    var i := 0;
    while i < |enums|
      invariant 0 <= i <= |enums|
      invariant filtered == NotGenerated(enums[..i], generated)
    {
      var enume := enums[i];
      assert enums[..i + 1][..i] == enums[..i];
      if !HasEnumId(generated, enume.id) {
        filtered := filtered + [enume];
      }
      i := i + 1;
    }
    assert enums[..i] == enums;
  }

  /** The literal loop of `getRdfsInstancesArr()` for one enumeration. */
  method EnumInstances(enume: Enum) returns (instances: seq<InstanceEntry>)
    ensures instances == LiteralInstances(enume, enume.literals)
  {
    instances := [];
    var j := 0;
    while j < |enume.literals|
      invariant 0 <= j <= |enume.literals|
      invariant instances == LiteralInstances(enume, enume.literals[..j])
    {
      var literal := enume.literals[j];
      assert enume.literals[..j + 1][..j] == enume.literals[..j];
      instances := instances + [InstanceEntry(enume.name + "/" + literal.name, enume.name)];
      j := j + 1;
    }
    assert enume.literals[..j] == enume.literals;
  }

  /** The emitting loop of `getRdfsInstancesArr()` over the surviving enumerations. */
  method InstancePass(enums: seq<Enum>) returns (instances: seq<InstanceEntry>)
    ensures instances == InstancesOf(enums)
  {
    instances := [];
    var k := 0;
    while k < |enums|
      invariant 0 <= k <= |enums|
      invariant instances == InstancesOf(enums[..k])
    {
      var literalInstances := EnumInstances(enums[k]);
      instances := instances + literalInstances;
      assert enums[..k + 1][..k] == enums[..k];
      k := k + 1;
    }
    assert enums[..k] == enums;
  }

  // ---------------------------------------------------------------------------
  // getRange and rdfs_properties
  // ---------------------------------------------------------------------------

  /** The diagnostics handed to the not-available tracker, one bucket each. */
  datatype Diagnostic =
    | NotLinkedType(className: string, attr: Attribute, typeName: string)
    | InvalidAttributeType(className: string, attr: Attribute, typeName: string)

  /**
   * The helpers getRange consults: the keys of the JSON-LD rule table and the
   * core-type test for a type name.
   */
  datatype TypeRules = TypeRules(ruleKeys: seq<string>, isStringCoreType: string -> bool)

  /** A range (None where the source produces `undefined`) and the diagnostic, if any. */
  datatype RangeResult = RangeResult(range: Option<string>, diagnostic: Option<Diagnostic>)

  /** The range written for a type name absent from the rule table. */
  function FallbackRange(typeName: string): string
  {
    if typeName == "Numeric" then "xsd:string"
    else if typeName == "Identifier" then "Identifier"
    else if typeName == "Code" then "Code"
    else if typeName == "Text" then "xsd:string"
    else if typeName == "Binary" then "xsd:string"
    else if typeName == "Measure" then "Measure"
    else if typeName == "Amount" then "Amount"
    else typeName
  }

  /**
   * `getRange(attr, className)`: a class or enumeration reference gives its
   * name; a name found in the rule table gives the `range` read off the
   * filtered array, which is undefined; any other name gives its fallback
   * range and one diagnostic.
   */
  function GetRange(attr: Attribute, className: string, rules: TypeRules): (r: RangeResult)
    ensures r.range.None? <==> attr.typ.Prim? && attr.typ.typeName in rules.ruleKeys
    ensures r.diagnostic.Some? <==> attr.typ.Prim? && attr.typ.typeName !in rules.ruleKeys
  {
    match attr.typ
    case ClassRef(c) => RangeResult(Some(c.name), None)
    case EnumRef(e) => RangeResult(Some(e.name), None)
    case OtherRef(n) => RangeResult(Some(n), None)
    case Prim(typeName) =>
      if typeName in rules.ruleKeys then RangeResult(None, None)
      else
        var diagnostic := if rules.isStringCoreType(typeName) then NotLinkedType(attr.parentName, attr, typeName)
                          else InvalidAttributeType(className, attr, typeName);
        RangeResult(Some(FallbackRange(typeName)), Some(diagnostic))
  }

  /** A reference to a class, an enumeration or another classifier gives its name and no diagnostic, whatever the rules. */
  lemma GetRangeOfReference(attr: Attribute, className: string, rules: TypeRules)
    requires !attr.typ.Prim?
    ensures GetRange(attr, className, rules).diagnostic == None
    ensures attr.typ.ClassRef? ==> GetRange(attr, className, rules).range == Some(attr.typ.cls.name)
    ensures attr.typ.EnumRef? ==> GetRange(attr, className, rules).range == Some(attr.typ.enum.name)
    ensures attr.typ.OtherRef? ==> GetRange(attr, className, rules).range == Some(attr.typ.name)
  {
  }

  /**
   * A type name absent from the rule table: Numeric, Text and Binary become
   * `xsd:string`, every other name is echoed back (Identifier, Code, Measure
   * and Amount included), and exactly one diagnostic is recorded, in the
   * not-linked bucket iff the name is a core type.
   */
  lemma GetRangeOfUnknownName(attr: Attribute, className: string, rules: TypeRules)
    requires attr.typ.Prim? && attr.typ.typeName !in rules.ruleKeys
    ensures var n := attr.typ.typeName;
      GetRange(attr, className, rules).range
        == Some(if n in {"Numeric", "Text", "Binary"} then "xsd:string" else n)
    ensures var n := attr.typ.typeName;
      GetRange(attr, className, rules).diagnostic
        == Some(if rules.isStringCoreType(n) then NotLinkedType(attr.parentName, attr, n)
                else InvalidAttributeType(className, attr, n))
  {
  }

  /** A rule-table hit records nothing and produces no range. */
  lemma GetRangeOfRuleHit(attr: Attribute, className: string, rules: TypeRules)
    requires attr.typ.Prim? && attr.typ.typeName in rules.ruleKeys
    ensures GetRange(attr, className, rules) == RangeResult(None, None)
  {
  }

  const RdfProperty := "rdf:Property"

  /** A property entry `{@id, @type: rdf:Property, rdfs:domain, rdfs:range}`. */
  datatype PropertyEntry = PropertyEntry(id: string, typ: string, domain: string, range: Option<string>)

  /** One property per attribute of the class, in order. */
  function AttrProperties(className: string, attrs: seq<Attribute>, rules: TypeRules): seq<PropertyEntry>
  {
    if attrs == [] then []
    else
      var a := attrs[|attrs| - 1];
      AttrProperties(className, attrs[..|attrs| - 1], rules)
        + [PropertyEntry(className + "/" + a.name, RdfProperty, className, GetRange(a, className, rules).range)]
  }

  /** The diagnostics getRange records for the attributes, in order. */
  function AttrDiagnostics(className: string, attrs: seq<Attribute>, rules: TypeRules): seq<Diagnostic>
  {
    if attrs == [] then []
    else
      var d := GetRange(attrs[|attrs| - 1], className, rules).diagnostic;
      AttrDiagnostics(className, attrs[..|attrs| - 1], rules) + (if d.Some? then [d.value] else [])
  }

  /** The association property for the class, if the association leaves it and is named. */
  function AssocProperty(c: Class, assoc: Association): seq<PropertyEntry>
  {
    if assoc.end1Id == c.id && assoc.name != "" then
      [PropertyEntry(c.name + "/" + assoc.name, RdfProperty, c.name, Some(assoc.end2Name))]
    else []
  }

  /** The properties of the named associations leaving the class, in association order. */
  function AssocProperties(c: Class, assocs: seq<Association>): seq<PropertyEntry>
  {
    if assocs == [] then []
    else AssocProperties(c, assocs[..|assocs| - 1]) + AssocProperty(c, assocs[|assocs| - 1])
  }

  /** The `rdfs_properties` array for a class list. */
  function PropertiesOf(classes: seq<Class>, assocs: seq<Association>, rules: TypeRules): seq<PropertyEntry>
  {
    if classes == [] then []
    else
      var c := classes[|classes| - 1];
      PropertiesOf(classes[..|classes| - 1], assocs, rules)
        + AttrProperties(c.name, c.attributes, rules) + AssocProperties(c, assocs)
  }

  /** The diagnostics the properties pass records for a class list. */
  function DiagnosticsOf(classes: seq<Class>, rules: TypeRules): seq<Diagnostic>
  {
    if classes == [] then []
    else
      var c := classes[|classes| - 1];
      DiagnosticsOf(classes[..|classes| - 1], rules) + AttrDiagnostics(c.name, c.attributes, rules)
  }

  /** Attribute properties: one per attribute, named Class/attr, with the class as domain. */
  lemma {:induction false} AttrPropertiesExact(className: string, attrs: seq<Attribute>, rules: TypeRules)
    ensures |AttrProperties(className, attrs, rules)| == |attrs|
    ensures forall k :: 0 <= k < |attrs| ==>
      AttrProperties(className, attrs, rules)[k]
        == PropertyEntry(className + "/" + attrs[k].name, RdfProperty, className, GetRange(attrs[k], className, rules).range)
  {
    if attrs != [] {
      AttrPropertiesExact(className, attrs[..|attrs| - 1], rules);
    }
  }

  /**
   * Association properties: exactly one per named association whose first
   * end is the class; unnamed associations and those of other classes give
   * none.
   */
  lemma {:induction false} AssocPropertiesExact(c: Class, assocs: seq<Association>)
    ensures forall x :: x in AssocProperties(c, assocs) <==>
      exists a :: a in assocs && a.end1Id == c.id && a.name != ""
                  && x == PropertyEntry(c.name + "/" + a.name, RdfProperty, c.name, Some(a.end2Name))
  {
    if assocs != [] {
      var init := assocs[..|assocs| - 1];
      AssocPropertiesExact(c, init);
      assert assocs == init + [assocs[|assocs| - 1]];
    }
  }

  /** The attribute loop of `getRdfsPropertiesArr()` for one class, with getRange's diagnostics. */
  method AttributeProperties(className: string, attrs: seq<Attribute>, rules: TypeRules)
    returns (properties: seq<PropertyEntry>, diagnostics: seq<Diagnostic>)
    ensures properties == AttrProperties(className, attrs, rules)
    ensures diagnostics == AttrDiagnostics(className, attrs, rules)
  {
    properties, diagnostics := [], [];
    var j := 0;
    while j < |attrs|
      invariant 0 <= j <= |attrs|
      invariant properties == AttrProperties(className, attrs[..j], rules)
      invariant diagnostics == AttrDiagnostics(className, attrs[..j], rules)
    {
      var attr := attrs[j];
      assert attrs[..j + 1][..j] == attrs[..j];
      var range := GetRange(attr, className, rules);
      properties := properties + [PropertyEntry(className + "/" + attr.name, RdfProperty, className, range.range)];
      if range.diagnostic.Some? {
        diagnostics := diagnostics + [range.diagnostic.value];
      }
      j := j + 1;
    }
    assert attrs[..j] == attrs;
  }

  /** The association loop of `getRdfsPropertiesArr()` for one class. */
  method AssociationProperties(mClass: Class, associations: seq<Association>) returns (properties: seq<PropertyEntry>)
    ensures properties == AssocProperties(mClass, associations)
  {
    properties := [];
    var k := 0;
    while k < |associations|
      invariant 0 <= k <= |associations|
      invariant properties == AssocProperties(mClass, associations[..k])
    {
      var assoc := associations[k];
      assert associations[..k + 1][..k] == associations[..k];
      if assoc.end1Id == mClass.id && assoc.name != "" {
        properties := properties + [PropertyEntry(mClass.name + "/" + assoc.name, RdfProperty, mClass.name, Some(assoc.end2Name))];
      }
      k := k + 1;
    }
    assert associations[..k] == associations;
  }

  /** One more class adds its attribute properties, association properties and diagnostics. */
  lemma PropertiesOfSnoc(classes: seq<Class>, c: Class, assocs: seq<Association>, rules: TypeRules)
    ensures PropertiesOf(classes + [c], assocs, rules)
         == PropertiesOf(classes, assocs, rules) + AttrProperties(c.name, c.attributes, rules) + AssocProperties(c, assocs)
    ensures DiagnosticsOf(classes + [c], rules) == DiagnosticsOf(classes, rules) + AttrDiagnostics(c.name, c.attributes, rules)
  {
    assert (classes + [c])[..|classes|] == classes;
  }

  /** The class loop of `getRdfsPropertiesArr()` over a class list. */
  method PropertyPass(classes: seq<Class>, associations: seq<Association>, rules: TypeRules)
    returns (properties: seq<PropertyEntry>, diagnostics: seq<Diagnostic>)
    ensures properties == PropertiesOf(classes, associations, rules)
    ensures diagnostics == DiagnosticsOf(classes, rules)
  {
    properties, diagnostics := [], [];
    var i := 0;
    while i < |classes|
      invariant 0 <= i <= |classes|
      invariant properties == PropertiesOf(classes[..i], associations, rules)
      invariant diagnostics == DiagnosticsOf(classes[..i], rules)
    {
      var mClass := classes[i];
      var attrProperties, attrDiagnostics := AttributeProperties(mClass.name, mClass.attributes, rules);
      var assocProperties := AssociationProperties(mClass, associations);
      PropertiesOfSnoc(classes[..i], mClass, associations, rules);
      assert classes[..i + 1] == classes[..i] + [mClass];
      properties := properties + attrProperties + assocProperties;
      diagnostics := diagnostics + attrDiagnostics;
      i := i + 1;
    }
    assert classes[..i] == classes;
  }

  // ---------------------------------------------------------------------------
  // The fixed templates
  // ---------------------------------------------------------------------------

  /** A nested context block `{"@reverse": ..., "@type": ...}`. */
  datatype TermDefinition = TermDefinition(reverse: string, typ: string)

  /** The single object of the `@context` array. */
  datatype Context = Context(
    version: real, base: string, language: string,
    rdf: string, rdfs: string, owl: string, xsd: string, dc: string,
    rdfsClasses: TermDefinition, rdfsProperties: TermDefinition,
    rdfsDatatypes: TermDefinition, rdfsInstances: TermDefinition)

  /** `getContext()`: one context object whose four nested blocks all say `rdfs:isDefinedBy` / `@id`. */
  function GetContext(): (ctx: seq<Context>)
    ensures |ctx| == 1
    ensures var c := ctx[0];
      && c.rdfsClasses == c.rdfsProperties == c.rdfsDatatypes == c.rdfsInstances
      && c.rdfsClasses == TermDefinition("rdfs:isDefinedBy", "@id")
  {
    [Context(1.1, "https://edi3.org/2019/11/vocab#", "en",
             "http://www.w3.org/1999/02/22-rdf-syntax-ns#", "http://www.w3.org/2000/01/rdf-schema#",
             "http://www.w3.org/2002/07/owl#", "http://www.w3.org/2001/XMLSchema#", "http://purl.org/dc/terms/",
             TermDefinition("rdfs:isDefinedBy", "@id"), TermDefinition("rdfs:isDefinedBy", "@id"),
             TermDefinition("rdfs:isDefinedBy", "@id"), TermDefinition("rdfs:isDefinedBy", "@id"))]
  }

  /** The `dc:date` value object. */
  datatype DcDate = DcDate(value: string, typ: string)

  /** The `@graph` object: fixed ontology metadata and the three generated arrays. */
  datatype Graph = Graph(
    id: string, typ: string, title: string, description: string, date: DcDate, seeAlso: seq<string>,
    rdfsClasses: seq<ClassEntry>, rdfsProperties: seq<PropertyEntry>, rdfsInstances: seq<InstanceEntry>)

  /** The fixed ontology header every graph carries: id, type, title, description, date and see-also. */
  predicate OntologyHeader(g: Graph)
  {
    && g.id == "https://edi3.org/2019/11/vocab#" && g.typ == "owl:Ontology"
    && g.title == "EDI3 ontology"
    && g.description == "This document describes the RDFS vocabulary used for EDI3 UN/CEFACT Standards."
    && g.date == DcDate("2019-11-29", "xsd:date") && g.seeAlso == ["https://edi3.org/"]
  }

  /** The document `generateJSONLD` returns. */
  datatype JsonLdDocument = JsonLdDocument(context: seq<Context>, graph: Graph)

  /** What the host's repository queries return for one export. */
  datatype HostQueries = HostQueries(
    generalizations: seq<Generalization>,   // select("@UMLGeneralization")
    associations: seq<Association>,         // select("@UMLAssociation")
    packageEnumerations: seq<Enum>)         // select(package name + "::@UMLEnumeration")

  /**
   * Across the two passes, an enumeration of the package is emitted either as
   * an `rdfs:Class` entry of the class pass (when an exported class has an
   * attribute of its type) or through its literal instances, never both.
   */
  lemma EnumerationEmittedOnce(classes: seq<Class>, generalizations: seq<Generalization>,
                               packageEnumerations: seq<Enum>, e: Enum)
    requires e in packageEnumerations
    ensures var instances := InstancesOf(NotGenerated(packageEnumerations, EnumTypesOf(classes)));
      if exists c, a :: c in classes && a in c.attributes && a.typ.EnumRef? && a.typ.enum.id == e.id then
        && e !in NotGenerated(packageEnumerations, EnumTypesOf(classes))
        && exists e': Enum :: e'.id == e.id && ClassEntry(e'.name, RdfsClass, None) in ClassEntriesOf(classes, generalizations)
      else
        && e in NotGenerated(packageEnumerations, EnumTypesOf(classes))
        && forall l :: l in e.literals ==> InstanceFor(e, l) in instances
  {
    var generated := EnumTypesOf(classes);
    EnumTypesOfExact(classes);
    NotGeneratedExact(packageEnumerations, generated);
    InstancesOfExact(NotGenerated(packageEnumerations, generated));
    if exists c, a :: c in classes && a in c.attributes && a.typ.EnumRef? && a.typ.enum.id == e.id {
      var c, a :| c in classes && a in c.attributes && a.typ.EnumRef? && a.typ.enum.id == e.id;
      var e' := a.typ.enum;
      assert a.typ == EnumRef(e');
      assert e' in generated;
      var k :| 0 <= k < |generated| && generated[k] == e';
      assert HasEnumId(generated, e.id);
      EnumEntryInClassEntries(classes, generalizations, c, a);
    } else {
      forall k | 0 <= k < |generated| ensures generated[k].id != e.id {
        assert generated[k] in generated;
      }
    }
  }

  /** An enumeration-typed attribute of a listed class puts an entry for its enumeration in the class pass. */
  lemma {:induction false} EnumEntryInClassEntries(classes: seq<Class>, generalizations: seq<Generalization>, c: Class, a: Attribute)
    requires c in classes && a in c.attributes && a.typ.EnumRef?
    ensures ClassEntry(a.typ.enum.name, RdfsClass, None) in ClassEntriesOf(classes, generalizations)
  {
    var init := classes[..|classes| - 1];
    var last := classes[|classes| - 1];
    assert classes == init + [last];
    if c in init {
      EnumEntryInClassEntries(init, generalizations, c, a);
    } else {
      EnumClassEntriesMatch(c.attributes);
      EnumTypesExact(c.attributes);
      assert a.typ == EnumRef(a.typ.enum);
      var k :| 0 <= k < |EnumTypes(c.attributes)| && EnumTypes(c.attributes)[k] == a.typ.enum;
      assert EnumClassEntries(c.attributes)[k] == ClassEntry(a.typ.enum.name, RdfsClass, None);
      assert ClassEntries(c, generalizations)[k + 1] == ClassEntry(a.typ.enum.name, RdfsClass, None);
    }
  }

  // ---------------------------------------------------------------------------
  // The module state and the passes
  // ---------------------------------------------------------------------------

  /** The module-level state of jsonld.js and the functions that read or write it. */
  class JsonLdExporter {
    var exportElement: Option<Package>
    var exportElementName: Option<string>
    var filePath: string
    /** The enumerations the last class pass emitted as classes. */
    var generatedEnumInstance: seq<Enum>
    /** Declared and returned by `getInvalidAttributeType`, but never appended to. */
    var invalidAttributeType: seq<Diagnostic>

    /**
     * The invariant every method keeps: nothing is ever added to
     * `invalidAttributeType`. No `modifies` clause of this class names that
     * field, so every method leaves it, and with it `Valid()`, as it was.
     */
    ghost predicate Valid()
      reads this
    {
      invalidAttributeType == []
    }

    /** The state when the module is loaded. */
    constructor ()
      ensures Valid()
      ensures exportElement == None && exportElementName == None && filePath == ""
      ensures generatedEnumInstance == []
    {
      exportElement, exportElementName, filePath := None, None, "";
      generatedEnumInstance, invalidAttributeType := [], [];
    }

    method SetExportElement(mUMLPackage: Package)
      modifies this`exportElement
      ensures exportElement == Some(mUMLPackage)
    {
      exportElement := Some(mUMLPackage);
    }

    method SetExportElementName(mEleName: string)
      modifies this`exportElementName
      ensures exportElementName == Some(mEleName)
    {
      exportElementName := Some(mEleName);
    }

    method SetFilePath(fPath: string)
      modifies this`filePath
      ensures filePath == fPath
    {
      filePath := fPath;
    }

    /** `getInvalidAttributeType()`: always the empty list. */
    function GetInvalidAttributeType(): (r: seq<Diagnostic>)
      requires Valid()
      reads this
      ensures r == []
    {
      invalidAttributeType
    }

    /**
     * The inner loop of `getRdfsClassesArr()` for one class: an entry per
     * enumeration-typed attribute, each enumeration recorded in
     * `generatedEnumInstance` as it is met.
     */
    method AddEnumerationClasses(attrs: seq<Attribute>) returns (entries: seq<ClassEntry>)
      modifies this`generatedEnumInstance
      ensures entries == EnumClassEntries(attrs)
      ensures generatedEnumInstance == old(generatedEnumInstance) + EnumTypes(attrs)
    {
      entries := [];
      var j := 0;
      while j < |attrs|
        invariant 0 <= j <= |attrs|
        invariant entries == EnumClassEntries(attrs[..j])
        invariant generatedEnumInstance == old(generatedEnumInstance) + EnumTypes(attrs[..j])
      {
        var attr := attrs[j];
        assert attrs[..j + 1][..j] == attrs[..j];
        if attr.typ.EnumRef? {
          entries := entries + [ClassEntry(attr.typ.enum.name, RdfsClass, None)];
          generatedEnumInstance := generatedEnumInstance + [attr.typ.enum];
        }
        j := j + 1;
      }
      assert attrs[..j] == attrs;
    }

    /**
     * `getRdfsClassesArr()`: resets `generatedEnumInstance`, then for each
     * listed class emits its entry followed by one entry per
     * enumeration-typed attribute, recording each such enumeration.
     */
    method GetRdfsClassesArr(generalizations: seq<Generalization>) returns (rdfsClassArr: seq<ClassEntry>)
      requires exportElement.Some?
      modifies this`generatedEnumInstance
      ensures rdfsClassArr == ClassEntriesOf(ExportClasses(exportElement.value), generalizations)
      ensures generatedEnumInstance == EnumTypesOf(ExportClasses(exportElement.value))
    {
      generatedEnumInstance := [];
      var mNewClasses := ExportClassList(exportElement.value);
      rdfsClassArr := ClassPass(mNewClasses, generalizations);
    }

    /**
     * The class loop of `getRdfsClassesArr()`: each class's entry, then its
     * enumeration entries, recording each such enumeration as it goes.
     */
    method ClassPass(classes: seq<Class>, generalizations: seq<Generalization>) returns (rdfsClassArr: seq<ClassEntry>)
      requires generatedEnumInstance == []
      modifies this`generatedEnumInstance
      ensures rdfsClassArr == ClassEntriesOf(classes, generalizations)
      ensures generatedEnumInstance == EnumTypesOf(classes)
    {
      rdfsClassArr := [];
      var i := 0;
      while i < |classes|
        invariant 0 <= i <= |classes|
        invariant rdfsClassArr == ClassEntriesOf(classes[..i], generalizations)
        invariant generatedEnumInstance == EnumTypesOf(classes[..i])
      {
        var mClass := classes[i];
        var parents := GetParentClasses(mClass, generalizations);
        var enumEntries := AddEnumerationClasses(mClass.attributes);
        ClassEntriesOfStep(classes, i, generalizations);
        rdfsClassArr := rdfsClassArr + ([ClassEntry(mClass.name, RdfsClass, Some(parents))] + enumEntries);
        i := i + 1;
      }
      assert classes[..i] == classes;
    }

    /**
     * `getRdfsInstancesArr()`: drops the package enumerations whose id the
     * class pass recorded, then emits one instance per literal of the rest.
     */
    method GetRdfsInstancesArr(packageEnumerations: seq<Enum>) returns (rdfsInstancesArr: seq<InstanceEntry>)
      requires exportElement.Some?
      ensures rdfsInstancesArr == InstancesOf(NotGenerated(packageEnumerations, generatedEnumInstance))
    {
      var newallyFiltered := FilterNotGenerated(packageEnumerations, generatedEnumInstance);
      rdfsInstancesArr := InstancePass(newallyFiltered);
    }

    /**
     * `getRdfsPropertiesArr()`: for each listed class, one property per
     * attribute, then one per named association leaving the class; the
     * diagnostics getRange records come back alongside.
     */
    method GetRdfsPropertiesArr(associations: seq<Association>, rules: TypeRules)
      returns (rdfsPropertiesArr: seq<PropertyEntry>, diagnostics: seq<Diagnostic>)
      requires exportElement.Some?
      ensures rdfsPropertiesArr == PropertiesOf(ExportClasses(exportElement.value), associations, rules)
      ensures diagnostics == DiagnosticsOf(ExportClasses(exportElement.value), rules)
    {
      var mNewClasses := ExportClassList(exportElement.value);
      rdfsPropertiesArr, diagnostics := PropertyPass(mNewClasses, associations, rules);
    }

    /**
     * `getGraph()`: the ontology header and the three arrays, the class pass
     * running before the instance pass, so that the instances skip exactly
     * the enumerations this export's class pass emitted.
     */
    method GetGraph(host: HostQueries, rules: TypeRules) returns (objGraph: Graph, diagnostics: seq<Diagnostic>)
      requires exportElement.Some?
      modifies this`generatedEnumInstance
      ensures var classes := ExportClasses(exportElement.value);
        && objGraph.rdfsClasses == ClassEntriesOf(classes, host.generalizations)
        && objGraph.rdfsProperties == PropertiesOf(classes, host.associations, rules)
        && objGraph.rdfsInstances == InstancesOf(NotGenerated(host.packageEnumerations, EnumTypesOf(classes)))
        && diagnostics == DiagnosticsOf(classes, rules)
      ensures generatedEnumInstance == EnumTypesOf(ExportClasses(exportElement.value))
      ensures OntologyHeader(objGraph)
    {
      var classes := GetRdfsClassesArr(host.generalizations);
      var properties;
      properties, diagnostics := GetRdfsPropertiesArr(host.associations, rules);
      var instances := GetRdfsInstancesArr(host.packageEnumerations);
      objGraph := Graph("https://edi3.org/2019/11/vocab#", "owl:Ontology", "EDI3 ontology",
                        "This document describes the RDFS vocabulary used for EDI3 UN/CEFACT Standards.",
                        DcDate("2019-11-29", "xsd:date"), ["https://edi3.org/"],
                        classes, properties, instances);
    }

    /** `generateJSONLD()`: the context template and the graph. */
    method GenerateJsonLd(host: HostQueries, rules: TypeRules) returns (doc: JsonLdDocument, diagnostics: seq<Diagnostic>)
      requires exportElement.Some?
      modifies this`generatedEnumInstance
      ensures doc.context == GetContext()
      ensures OntologyHeader(doc.graph)
      ensures generatedEnumInstance == EnumTypesOf(ExportClasses(exportElement.value))
      ensures var classes := ExportClasses(exportElement.value);
        && doc.graph.rdfsClasses == ClassEntriesOf(classes, host.generalizations)
        && doc.graph.rdfsProperties == PropertiesOf(classes, host.associations, rules)
        && doc.graph.rdfsInstances == InstancesOf(NotGenerated(host.packageEnumerations, EnumTypesOf(classes)))
        && diagnostics == DiagnosticsOf(classes, rules)
    {
      var graph;
      graph, diagnostics := GetGraph(host, rules);
      doc := JsonLdDocument(GetContext(), graph);
    }
  }
}
