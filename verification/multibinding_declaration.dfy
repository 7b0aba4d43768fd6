/** MultibindingDeclaration and its Factory: a declaration that a map or set
    multibinding with a certain key may be injected even when nothing contributes
    to it, built from the methods of a @Multibindings interface or from a single
    @Multibinds method. */
module MultibindingDeclarations {
  import opened Wrappers
  import opened Elements
  import opened ImmutableSets

  /** Provision bindings come from @Module, production bindings from @ProducerModule. */
  datatype BindingType = Provision | Production

  datatype ContributionType = Map | Set

  /** Identity of an injectable value. Keys are produced by the key factory, which
      is a collaborator of this model, so only their equality matters here. */
  datatype Key = Key(typeName: string, qualifier: Option<string>)

  /** The immutable record. bindingElement is the declaring method and
      contributingModule the interface or module that contributes it. */
  datatype MultibindingDeclaration = MultibindingDeclaration(
    bindingElement: Option<Element>,
    contributingModule: Option<Element>,
    key: Key,
    contributionType: ContributionType,
    bindingType: BindingType)

  /** Why a factory call fails; each variant names the element at fault. */
  datatype Error =
    | NotAnInterface(element: Element)              // the interface-kind checkArgument
    | NotAnnotatedMultibindings(element: Element)   // the @Multibindings checkArgument
    | NotAnnotatedMultibinds(methodElement: Element) // the @Multibinds checkArgument
    | NoEnclosingElement(element: Element)          // javac would fail with a null enclosing element
    | NotAModule(element: Element)                  // neither @Module nor @ProducerModule
    | NotASetOrMap(methodElement: Element)          // "must return a set or map"
    | NotMapOrSetType(returnType: TypeMirror)       // "Must be Map or Set"

  /** The factory's collaborators: the java.lang.Object element, method
      enumeration (getLocalAndInheritedMethods), generic substitution
      (Types.asMemberOf) and key construction (Key.Factory.forMultibindsMethod),
      the last of which is left uninterpreted. */
  datatype Factory = Factory(
    objectElement: Element,
    localAndInheritedMethods: Element -> seq<Element>,
    asMemberOf: (Element, Element) -> ExecutableType,
    keyFactory: (BindingType, ExecutableType, Element) -> Key)

  /** The module annotation that selects each binding type. */
  function RequiredAnnotation(b: BindingType): Annotation {
    match b
    case Provision => ModuleAnnotation
    case Production => ProducerModuleAnnotation
  }

  /** The return shape each contribution type stands for. */
  function ShapeOf(c: ContributionType): Shape {
    match c
    case Map => MapShape
    case Set => SetShape
  }

  predicate IsSetOrMap(t: TypeMirror) {
    IsSet(t) || IsMap(t)
  }

  /** Factory.bindingType: @Module takes precedence over @ProducerModule; an
      element carrying neither is rejected. */
  function BindingTypeOf(moduleElement: Element): (r: Result<BindingType, Error>)
    ensures r.Success? <==>
      IsAnnotationPresent(moduleElement, ModuleAnnotation)
      || IsAnnotationPresent(moduleElement, ProducerModuleAnnotation)
    ensures r.Success? ==> IsAnnotationPresent(moduleElement, RequiredAnnotation(r.value))
    ensures r == Success(Production) ==> !IsAnnotationPresent(moduleElement, ModuleAnnotation)
    ensures r.Failure? ==> r.error == NotAModule(moduleElement)
  {
    if IsAnnotationPresent(moduleElement, ModuleAnnotation) then Success(Provision)
    else if IsAnnotationPresent(moduleElement, ProducerModuleAnnotation) then Success(Production)
    else Failure(NotAModule(moduleElement))
  }

  /** Factory.contributionType: a map is tested before a set; any other type is rejected. */
  function ContributionTypeOf(returnType: TypeMirror): (r: Result<ContributionType, Error>)
    ensures r.Success? <==> IsSetOrMap(returnType)
    ensures r.Success? ==> ShapeOf(r.value) == returnType.shape
    ensures r == Success(Set) ==> IsSet(returnType) && !IsMap(returnType)
    ensures r.Failure? ==> r.error == NotMapOrSetType(returnType)
  {
    if IsMap(returnType) then Success(Map)
    else if IsSet(returnType) then Success(Set)
    else Failure(NotMapOrSetType(returnType))
  }

  /** Factory.forDeclaredMethod: validates the resolved return type and builds
      the record from the arguments and the key factory. */
  function ForDeclaredMethod(
    f: Factory,
    bindingType: BindingType,
    m: Element,
    methodType: ExecutableType,
    contributingType: Element
  ): (r: Result<MultibindingDeclaration, Error>)
    ensures r.Failure? <==> !IsSetOrMap(methodType.returnType)
    ensures r.Failure? ==> r.error == NotASetOrMap(m)
    ensures r.Success? ==>
      && r.value.bindingElement == Some(m)
      && r.value.contributingModule == Some(contributingType)
      && r.value.key == f.keyFactory(bindingType, methodType, m)
      && ShapeOf(r.value.contributionType) == methodType.returnType.shape
      && r.value.bindingType == bindingType
  {
    var returnType := methodType.returnType;
    if !IsSetOrMap(returnType) then Failure(NotASetOrMap(m))
    else
      match ContributionTypeOf(returnType)
      case Success(contributionType) =>
        Success(MultibindingDeclaration(
          Some(m),
          Some(contributingType),
          f.keyFactory(bindingType, methodType, m),
          contributionType,
          bindingType))
  }

  /** Factory.forMultibindsMethod: the method must carry @Multibinds; the binding
      type comes from the owning module, which is also the contributing type. */
  function ForMultibindsMethod(f: Factory, moduleMethod: Element, moduleElement: Element)
    : (r: Result<MultibindingDeclaration, Error>)
    ensures !IsAnnotationPresent(moduleMethod, MultibindsAnnotation) ==>
      r == Failure(NotAnnotatedMultibinds(moduleMethod))
    ensures IsAnnotationPresent(moduleMethod, MultibindsAnnotation) && BindingTypeOf(moduleElement).Failure? ==>
      r == Failure(NotAModule(moduleElement))
    ensures
      && IsAnnotationPresent(moduleMethod, MultibindsAnnotation)
      && BindingTypeOf(moduleElement).Success?
      && !IsSetOrMap(f.asMemberOf(moduleElement, moduleMethod).returnType)
      ==> r == Failure(NotASetOrMap(moduleMethod))
    ensures r.Success? <==>
      && IsAnnotationPresent(moduleMethod, MultibindsAnnotation)
      && BindingTypeOf(moduleElement).Success?
      && IsSetOrMap(f.asMemberOf(moduleElement, moduleMethod).returnType)
    ensures r.Success? ==>
      && r.value.bindingType == BindingTypeOf(moduleElement).value
      && r.value.bindingElement == Some(moduleMethod)
      && r.value.contributingModule == Some(moduleElement)
      && r.value.key == f.keyFactory(r.value.bindingType, f.asMemberOf(moduleElement, moduleMethod), moduleMethod)
      && ShapeOf(r.value.contributionType) == f.asMemberOf(moduleElement, moduleMethod).returnType.shape
  {
    if !IsAnnotationPresent(moduleMethod, MultibindsAnnotation) then
      Failure(NotAnnotatedMultibinds(moduleMethod))
    else
      var bindingType :- BindingTypeOf(moduleElement);
      ForDeclaredMethod(f, bindingType, moduleMethod, f.asMemberOf(moduleElement, moduleMethod), moduleElement)
  }

  /** Methods inherited from java.lang.Object carry no multibinding. */
  predicate DeclaredByObject(f: Factory, m: Element) {
    m.enclosing == Some(f.objectElement)
  }

  /** The declaration an interface yields for one of its methods, resolved as a member of the interface. */
  function InterfaceDeclaration(f: Factory, bindingType: BindingType, iface: Element, m: Element)
    : Result<MultibindingDeclaration, Error>
  {
    ForDeclaredMethod(f, bindingType, m, f.asMemberOf(iface, m), iface)
  }

  /** The binding type of the module an interface is nested in. */
  function EnclosingBindingType(iface: Element): (r: Result<BindingType, Error>)
    ensures iface.enclosing.None? ==> r == Failure(NoEnclosingElement(iface))
    ensures r.Success? <==>
      && iface.enclosing.Some?
      && (IsAnnotationPresent(iface.enclosing.value, ModuleAnnotation)
          || IsAnnotationPresent(iface.enclosing.value, ProducerModuleAnnotation))
    ensures r.Success? ==> IsAnnotationPresent(iface.enclosing.value, RequiredAnnotation(r.value))
    ensures r == Success(Production) ==> !IsAnnotationPresent(iface.enclosing.value, ModuleAnnotation)
    ensures iface.enclosing.Some? && r.Failure? ==> r.error == NotAModule(iface.enclosing.value)
  {
    match iface.enclosing
    case None => Failure(NoEnclosingElement(iface))
    case Some(moduleElement) => BindingTypeOf(moduleElement)
  }

  /** The loop of forMultibindingsInterface: skips methods of Object, validates
      every other method and adds its declaration to the set builder acc. The
      first invalid method aborts the whole call. */
  function CollectDeclarations(
    f: Factory,
    bindingType: BindingType,
    iface: Element,
    methods: seq<Element>,
    acc: seq<MultibindingDeclaration>
  ): (r: Result<seq<MultibindingDeclaration>, Error>)
    ensures r.Success? ==> |acc| <= |r.value| && r.value[..|acc|] == acc
    ensures r.Success? && NoDuplicates(acc) ==> NoDuplicates(r.value)
    ensures r.Success? ==> forall d :: d in r.value && d !in acc ==>
      && d.bindingType == bindingType
      && d.contributingModule == Some(iface)
      && d.bindingElement.Some?
      && d.bindingElement.value in methods
      && !DeclaredByObject(f, d.bindingElement.value)
    decreases |methods|
  {
    if methods == [] then Success(acc)
    else if DeclaredByObject(f, methods[0]) then
      CollectDeclarations(f, bindingType, iface, methods[1..], acc)
    else
      var d :- InterfaceDeclaration(f, bindingType, iface, methods[0]);
      CollectDeclarations(f, bindingType, iface, methods[1..], Add(acc, d))
  }

  predicate IsMultibindingsInterface(iface: Element) {
    iface.kind == Interface && IsAnnotationPresent(iface, MultibindingsAnnotation)
  }

  /** Factory.forMultibindingsInterface: one declaration per method of the
      interface that Object does not declare, all sharing the binding type of
      the enclosing module and contributed by the interface. */
  function ForMultibindingsInterface(f: Factory, iface: Element)
    : (r: Result<seq<MultibindingDeclaration>, Error>)
    ensures iface.kind != Interface ==> r == Failure(NotAnInterface(iface))
    ensures iface.kind == Interface && !IsAnnotationPresent(iface, MultibindingsAnnotation) ==>
      r == Failure(NotAnnotatedMultibindings(iface))
    ensures IsMultibindingsInterface(iface) && EnclosingBindingType(iface).Failure? ==>
      r == Failure(EnclosingBindingType(iface).error)
    ensures r.Success? ==> IsMultibindingsInterface(iface) && EnclosingBindingType(iface).Success?
    ensures r.Success? ==> NoDuplicates(r.value)
    ensures r.Success? ==> forall d :: d in r.value ==>
      && d.bindingType == EnclosingBindingType(iface).value
      && d.contributingModule == Some(iface)
      && d.bindingElement.Some?
      && d.bindingElement.value in f.localAndInheritedMethods(iface)
      && !DeclaredByObject(f, d.bindingElement.value)
  {
    if iface.kind != Interface then Failure(NotAnInterface(iface))
    else if !IsAnnotationPresent(iface, MultibindingsAnnotation) then Failure(NotAnnotatedMultibindings(iface))
    else
      var bindingType :- EnclosingBindingType(iface);
      CollectDeclarations(f, bindingType, iface, f.localAndInheritedMethods(iface), [])
  }
}
