/** The parts of javax.lang.model the factory inspects, reduced to plain values:
    elements with a kind, a set of annotations and an enclosing element, and
    types reduced to the structural shape that MapType.isMap / SetType.isSet test. */
module Elements {
  import opened Wrappers

  datatype ElementKind = Package | Class | Interface | Enum | AnnotationType | Method

  /** The annotations the factory looks for; anything else is OtherAnnotation. */
  datatype Annotation =
    | ModuleAnnotation            // dagger.Module
    | ProducerModuleAnnotation    // dagger.producers.ProducerModule
    | MultibindingsAnnotation     // dagger.Multibindings
    | MultibindsAnnotation        // dagger.multibindings.Multibinds
    | OtherAnnotation(name: string)

  /** A program element. A method's enclosing element is the type declaring it;
      a nested interface's enclosing element is the type it is nested in. The
      parameter types tell overloads apart (empty for elements other than
      methods), so two methods of one type are equal values only when javac
      would treat them as the same method. */
  datatype Element = Element(
    name: string,
    kind: ElementKind,
    parameterTypes: seq<TypeMirror>,
    annotations: set<Annotation>,
    enclosing: Option<Element>)

  predicate IsAnnotationPresent(e: Element, a: Annotation) {
    a in e.annotations
  }

  /** Structural shape of a resolved type: java.util.Map<K, V>, java.util.Set<T>, or neither. */
  datatype Shape = MapShape | SetShape | Other

  datatype TypeMirror = TypeMirror(name: string, shape: Shape)

  /** A method signature resolved as a member of some declared type. */
  datatype ExecutableType = ExecutableType(returnType: TypeMirror)

  predicate IsMap(t: TypeMirror) {
    t.shape == MapShape
  }

  predicate IsSet(t: TypeMirror) {
    t.shape == SetShape
  }
}
