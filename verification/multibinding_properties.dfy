/** What forMultibindingsInterface computes, stated against an independent
    three-stage reference: keep the methods Object does not declare, validate
    and declare each of them in order, then add the declarations to an
    insertion-ordered set. */
module MultibindingProperties {
  import opened Wrappers
  import opened Elements
  import opened ImmutableSets
  import opened MultibindingDeclarations

  /** A method whose return type, seen as a member of iface, is a set or a map. */
  predicate Declarable(f: Factory, iface: Element, m: Element) {
    IsSetOrMap(f.asMemberOf(iface, m).returnType)
  }

  /** ms[i] is the first method of ms that cannot be declared. */
  predicate FirstUndeclarable(f: Factory, iface: Element, ms: seq<Element>, i: int) {
    && 0 <= i < |ms|
    && !Declarable(f, iface, ms[i])
    && forall j :: 0 <= j < i ==> Declarable(f, iface, ms[j])
  }

  /** The enumerated methods that are not declared by java.lang.Object, in order. */
  function QualifyingMethods(f: Factory, methods: seq<Element>): (q: seq<Element>)
    ensures |q| <= |methods|
    ensures forall m :: m in q <==> m in methods && !DeclaredByObject(f, m)
    ensures NoDuplicates(methods) ==> NoDuplicates(q)
    decreases |methods|
  {
    if methods == [] then []
    else if DeclaredByObject(f, methods[0]) then QualifyingMethods(f, methods[1..])
    else [methods[0]] + QualifyingMethods(f, methods[1..])
  }

  /** Declares every method of ms in order, failing at the first one that does
      not return a set or a map. */
  function DeclareEach(f: Factory, bindingType: BindingType, iface: Element, ms: seq<Element>)
    : (r: Result<seq<MultibindingDeclaration>, Error>)
    ensures r.Success? <==> forall i :: 0 <= i < |ms| ==> Declarable(f, iface, ms[i])
    ensures r.Success? ==>
      && |r.value| == |ms|
      && forall i :: 0 <= i < |ms| ==> InterfaceDeclaration(f, bindingType, iface, ms[i]) == Success(r.value[i])
    ensures r.Success? && NoDuplicates(ms) ==> NoDuplicates(r.value)
    ensures r.Failure? ==> exists i :: FirstUndeclarable(f, iface, ms, i) && r.error == NotASetOrMap(ms[i])
    decreases |ms|
  {
    if ms == [] then Success([])
    else
      var d :- InterfaceDeclaration(f, bindingType, iface, ms[0]);
      var rest :- DeclareEach(f, bindingType, iface, ms[1..]);
      Success([d] + rest)
  }

  /** The single pass of forMultibindingsInterface agrees with the three-stage reference. */
  lemma {:induction false} CollectMatchesPipeline(
    f: Factory,
    bindingType: BindingType,
    iface: Element,
    methods: seq<Element>,
    acc: seq<MultibindingDeclaration>)
    ensures var ds := DeclareEach(f, bindingType, iface, QualifyingMethods(f, methods));
      CollectDeclarations(f, bindingType, iface, methods, acc) ==
        if ds.Success? then Success(AddAll(acc, ds.value)) else Failure(ds.error)
    decreases |methods|
  {
    if methods != [] {
      var m, rest := methods[0], methods[1..];
      var q := QualifyingMethods(f, rest);
      if DeclaredByObject(f, m) {
        CollectMatchesPipeline(f, bindingType, iface, rest, acc);
      } else {
        assert QualifyingMethods(f, methods) == [m] + q;
        assert ([m] + q)[0] == m && ([m] + q)[1..] == q;
        match InterfaceDeclaration(f, bindingType, iface, m)
        case Failure(e) =>
        case Success(d) =>
          CollectMatchesPipeline(f, bindingType, iface, rest, Add(acc, d));
          var tail := DeclareEach(f, bindingType, iface, q);
          if tail.Success? {
            assert ([d] + tail.value)[0] == d && ([d] + tail.value)[1..] == tail.value;
          }
      }
    }
  }

  /** With the enumeration duplicate-free (getLocalAndInheritedMethods yields a
      set), the result holds exactly one declaration per qualifying method, in
      enumeration order. */
  lemma {:induction false} InterfaceDeclarationsFollowEnumeration(f: Factory, iface: Element)
    requires NoDuplicates(f.localAndInheritedMethods(iface))
    ensures var r := ForMultibindingsInterface(f, iface);
      var q := QualifyingMethods(f, f.localAndInheritedMethods(iface));
      r.Success? ==>
        && |r.value| == |q|
        && (forall i :: 0 <= i < |q| ==>
             InterfaceDeclaration(f, EnclosingBindingType(iface).value, iface, q[i]) == Success(r.value[i]))
        && (forall i, j :: 0 <= i < j < |r.value| ==> r.value[i].bindingElement != r.value[j].bindingElement)
  {
    var r := ForMultibindingsInterface(f, iface);
    if r.Success? {
      var bindingType := EnclosingBindingType(iface).value;
      var methods := f.localAndInheritedMethods(iface);
      CollectMatchesPipeline(f, bindingType, iface, methods, []);
      var q := QualifyingMethods(f, methods);
      var ds := DeclareEach(f, bindingType, iface, q);
      assert [] + ds.value == ds.value;
      AddAllDistinct([], ds.value);
      assert r.value == ds.value;
      forall i, j | 0 <= i < j < |r.value|
        ensures r.value[i].bindingElement != r.value[j].bindingElement
      {
        assert r.value[i].bindingElement == Some(q[i]);
        assert r.value[j].bindingElement == Some(q[j]);
      }
    }
  }

  /** Method m is not declared by Object and yields declaration d. */
  predicate Yields(f: Factory, bindingType: BindingType, iface: Element, m: Element, d: MultibindingDeclaration) {
    !DeclaredByObject(f, m) && InterfaceDeclaration(f, bindingType, iface, m) == Success(d)
  }

  /** A declaration is in the result exactly when some enumerated method not
      declared by Object yields it. */
  lemma {:induction false} InterfaceDeclarationMembership(f: Factory, iface: Element, d: MultibindingDeclaration)
    ensures var r := ForMultibindingsInterface(f, iface);
      r.Success? ==>
        (d in r.value <==>
          exists m :: m in f.localAndInheritedMethods(iface) && Yields(f, EnclosingBindingType(iface).value, iface, m, d))
  {
    var r := ForMultibindingsInterface(f, iface);
    if r.Success? {
      var bindingType := EnclosingBindingType(iface).value;
      var methods := f.localAndInheritedMethods(iface);
      CollectMatchesPipeline(f, bindingType, iface, methods, []);
      var q := QualifyingMethods(f, methods);
      var ds := DeclareEach(f, bindingType, iface, q);
      assert r == Success(AddAll([], ds.value));
      assert d in r.value <==> d in ds.value;
      if d in ds.value {
        var i :| 0 <= i < |ds.value| && ds.value[i] == d;
        assert q[i] in q;
        assert Yields(f, bindingType, iface, q[i], d);
      }
      if exists m :: m in methods && Yields(f, bindingType, iface, m, d) {
        var m :| m in methods && Yields(f, bindingType, iface, m, d);
        assert m in q;
        var i :| 0 <= i < |q| && q[i] == m;
        assert ds.value[i] == d;
      }
    }
  }

  /** For a well-formed interface in a module, the call succeeds exactly when
      every method not declared by Object returns a set or a map; otherwise it
      fails at the first one that does not, and returns nothing. */
  lemma {:induction false} InterfaceValidation(f: Factory, iface: Element)
    requires IsMultibindingsInterface(iface) && EnclosingBindingType(iface).Success?
    ensures var r := ForMultibindingsInterface(f, iface);
      var q := QualifyingMethods(f, f.localAndInheritedMethods(iface));
      && (r.Success? <==> forall m :: m in q ==> Declarable(f, iface, m))
      && (r.Failure? ==> exists i :: FirstUndeclarable(f, iface, q, i) && r.error == NotASetOrMap(q[i]))
  {
    var bindingType := EnclosingBindingType(iface).value;
    var methods := f.localAndInheritedMethods(iface);
    CollectMatchesPipeline(f, bindingType, iface, methods, []);
    var q := QualifyingMethods(f, methods);
    if forall i :: 0 <= i < |q| ==> Declarable(f, iface, q[i]) {
      forall m | m in q
        ensures Declarable(f, iface, m)
      {
        var i :| 0 <= i < |q| && q[i] == m;
      }
    }
  }

  /** The binding type is the one whose annotation the module carries, with
      @Module taking precedence when both are present. */
  lemma BindingTypeFromAnnotations(b: BindingType, moduleElement: Element)
    requires IsAnnotationPresent(moduleElement, RequiredAnnotation(b))
    requires b == Production ==> !IsAnnotationPresent(moduleElement, ModuleAnnotation)
    ensures BindingTypeOf(moduleElement) == Success(b)
  {
  }

  /** A type of the shape a contribution type stands for is classified as that contribution type. */
  lemma ContributionTypeRoundTrip(c: ContributionType, name: string)
    ensures ContributionTypeOf(TypeMirror(name, ShapeOf(c))) == Success(c)
  {
  }

  /** An interface nested in a @ProducerModule that inherits hashCode from
      Object and declares a map-returning pluginsByName method yields exactly
      one production map declaration, for pluginsByName. */
  lemma {:induction false} ProducerModuleScenario(
    f: Factory,
    producerModule: Element,
    iface: Element,
    hashCode: Element,
    pluginsByName: Element)
    requires producerModule.annotations == {ProducerModuleAnnotation}
    requires iface == Element("Plugins", Interface, [], {MultibindingsAnnotation}, Some(producerModule))
    requires f.localAndInheritedMethods(iface) == [hashCode, pluginsByName]
    requires hashCode.enclosing == Some(f.objectElement)
    requires pluginsByName.enclosing == Some(iface) && iface != f.objectElement
    requires f.asMemberOf(iface, hashCode).returnType.shape == Other
    requires f.asMemberOf(iface, pluginsByName).returnType.shape == MapShape
    ensures ForMultibindingsInterface(f, iface) == Success([MultibindingDeclaration(
      Some(pluginsByName),
      Some(iface),
      f.keyFactory(Production, f.asMemberOf(iface, pluginsByName), pluginsByName),
      Map,
      Production)])
  {
    var methods := [hashCode, pluginsByName];
    var d := MultibindingDeclaration(
      Some(pluginsByName),
      Some(iface),
      f.keyFactory(Production, f.asMemberOf(iface, pluginsByName), pluginsByName),
      Map,
      Production);
    assert EnclosingBindingType(iface) == Success(Production);
    assert InterfaceDeclaration(f, Production, iface, pluginsByName) == Success(d);
    assert methods[1..] == [pluginsByName] && [pluginsByName][1..] == [];
    assert CollectDeclarations(f, Production, iface, [pluginsByName], []) == Success([d]);
    assert CollectDeclarations(f, Production, iface, methods, []) == Success([d]);
  }

  /** Two overloads of one name in a @Module's interface, one returning a set
      and one a map, yield two declarations: a Set one and then a Map one. */
  lemma {:induction false} OverloadScenario(
    f: Factory,
    moduleElement: Element,
    iface: Element,
    setOverload: Element,
    mapOverload: Element)
    requires moduleElement.annotations == {ModuleAnnotation}
    requires iface == Element("I", Interface, [], {MultibindingsAnnotation}, Some(moduleElement))
    requires setOverload == Element("foo", Method, [], {}, Some(iface))
    requires mapOverload == Element("foo", Method, [TypeMirror("int", Other)], {}, Some(iface))
    requires iface != f.objectElement
    requires f.localAndInheritedMethods(iface) == [setOverload, mapOverload]
    requires f.asMemberOf(iface, setOverload).returnType.shape == SetShape
    requires f.asMemberOf(iface, mapOverload).returnType.shape == MapShape
    ensures ForMultibindingsInterface(f, iface).Success?
    ensures var ds := ForMultibindingsInterface(f, iface).value;
      && |ds| == 2
      && ds[0].bindingElement == Some(setOverload) && ds[0].contributionType == Set
      && ds[1].bindingElement == Some(mapOverload) && ds[1].contributionType == Map
      && ds[0].bindingType == Provision && ds[1].bindingType == Provision
  {
    var methods := [setOverload, mapOverload];
    assert setOverload != mapOverload;
    InterfaceValidation(f, iface);
    InterfaceDeclarationsFollowEnumeration(f, iface);
    assert methods[1..] == [mapOverload] && [mapOverload][1..] == [];
    assert QualifyingMethods(f, [mapOverload]) == [mapOverload];
    assert QualifyingMethods(f, methods) == methods;
  }
}
