# MultibindingDeclaration — a Dafny model

This project models `MultibindingDeclaration` and its `Factory` from Dagger's annotation
processor (`compiler/src/main/java/dagger/internal/codegen/MultibindingDeclaration.java`).
A multibinding declaration records that a map or set multibinding with a given key may be
injected even when no module contributes to it. The factory builds these records in two ways.
It can start from every method of a `@Multibindings` interface nested in a module. It can also
start from a single `@Multibinds` method of a module.

Each record holds five things: a key, a contribution type (`Map` or `Set`), a binding type
(`Provision` or `Production`), the declaring method and the contributing type.

Files:

- `wrappers.dfy` (`Wrappers`): `Option` and `Result`. A `Failure` stands for the
  `IllegalArgumentException` that the Java code throws.
- `elements.dfy` (`Elements`): the parts of `javax.lang.model` the factory inspects.
  - An element has a name, a kind, parameter types, a set of annotations and an optional
    enclosing element. The parameter types keep overloads of one name apart.
  - A resolved type carries only its structural shape (`MapShape | SetShape | Other`). That
    shape is what `MapType.isMap` and `SetType.isSet` test.
- `immutable_sets.dfy` (`ImmutableSets`): the semantics of Guava's `ImmutableSet.Builder`. It is
  an insertion-ordered set, held as a duplicate-free sequence.
- `multibinding_declaration.dfy` (`MultibindingDeclarations`): the record, the `Factory`
  collaborators and the five factory operations.
- `multibinding_properties.dfy` (`MultibindingProperties`): a three-stage reference for the
  interface loop, and the lemmas that connect the loop to it. The three stages are: filter out
  `Object`'s methods, declare each remaining method in order, and add the results to the set.

The factory's collaborators are fields of the `Factory` datatype, given as total functions:

- the `java.lang.Object` element;
- `getLocalAndInheritedMethods`;
- `Types.asMemberOf`;
- `Key.Factory.forMultibindsMethod`.

Key construction is therefore uninterpreted. The model proves only that each key is exactly the
key factory's value for (binding type, resolved signature, method).

The doc comment at `MultibindingDeclaration.java:71-74` says `PROVISION` for both module kinds.
The code at `:128-137` returns `PRODUCTION` for a `@ProducerModule`, and this model follows the
code. The code also gives `@Module` precedence when an element carries both annotations. The
model follows that too, rather than treating two tags as a configuration error.

Every operation is a pure function. Two calls on equal inputs therefore give equal results, so
idempotence needs no separate statement.

## Model

| member | source | states |
|---|---|---|
| `MultibindingDeclarations.BindingTypeOf` | compiler/src/main/java/dagger/internal/codegen/MultibindingDeclaration.java:128-137 | succeeds iff the element carries `@Module` or `@ProducerModule`; the module annotation for the result is present; `Production` only when `@Module` is absent; otherwise the error names the element |
| `MultibindingDeclarations.ContributionTypeOf` | compiler/src/main/java/dagger/internal/codegen/MultibindingDeclaration.java:157-165 | succeeds iff the type is a set or a map; the result's shape is the type's shape; `Set` only for a set that is not a map; otherwise the error carries the type |
| `MultibindingDeclarations.ForDeclaredMethod` | compiler/src/main/java/dagger/internal/codegen/MultibindingDeclaration.java:139-155 | fails with "must return a set or map" naming the method exactly when the resolved return type is neither; otherwise the declaring method, the contributing type and the binding type are the arguments, the key is the key factory's value for (binding type, signature, method), and the contribution type matches the return shape |
| `MultibindingDeclarations.ForMultibindsMethod` | compiler/src/main/java/dagger/internal/codegen/MultibindingDeclaration.java:117-126 | without `@Multibinds` it fails naming the method; with it, a module lacking `@Module`/`@ProducerModule` fails naming the module, and then a return type that is neither set nor map fails naming the method; succeeds iff `@Multibinds` is present, the module has a binding type and the return type as seen from the module is a set or map; the binding type comes from the module, which is also the contributing type |
| `MultibindingDeclarations.EnclosingBindingType` | compiler/src/main/java/dagger/internal/codegen/MultibindingDeclaration.java:102 | fails with `NoEnclosingElement` when the interface has no enclosing element; succeeds iff the enclosing element carries `@Module` or `@ProducerModule`; that element carries the module annotation for the result, `Production` only when `@Module` is absent; otherwise the error names the enclosing element |
| `MultibindingDeclarations.CollectDeclarations` | compiler/src/main/java/dagger/internal/codegen/MultibindingDeclaration.java:105-113 | the loop keeps what the builder already held as a prefix and never introduces duplicates; every added declaration has the shared binding type and the interface as contributing type, and was declared by an enumerated method that `Object` does not declare |
| `MultibindingDeclarations.ForMultibindingsInterface` | compiler/src/main/java/dagger/internal/codegen/MultibindingDeclaration.java:99-114 | fails for a non-interface, then for a missing `@Multibindings`, then for an enclosing element that is not a module; on success there are no duplicates, and every declaration shares the enclosing module's binding type, has the interface as contributing type and stems from an enumerated method that `Object` does not declare |
| `MultibindingProperties.QualifyingMethods` | compiler/src/main/java/dagger/internal/codegen/MultibindingDeclaration.java:106-107 | holds exactly the enumerated methods that `Object` does not declare, and keeps a duplicate-free enumeration duplicate-free |
| `MultibindingProperties.DeclareEach` | compiler/src/main/java/dagger/internal/codegen/MultibindingDeclaration.java:108-110 | succeeds iff every method returns a set or map, and then yields one declaration per method in order; otherwise it fails naming the first method that does not; distinct methods give distinct declarations |
| `MultibindingProperties.CollectMatchesPipeline` | compiler/src/main/java/dagger/internal/codegen/MultibindingDeclaration.java:105-113 | the single pass of the loop equals the reference: filter out `Object`'s methods, declare each, add all to the set builder; a failure anywhere fails the whole call |
| `MultibindingProperties.InterfaceDeclarationsFollowEnumeration` | compiler/src/main/java/dagger/internal/codegen/MultibindingDeclaration.java:105-113 | for a duplicate-free enumeration the result has one declaration per qualifying method, in enumeration order, with pairwise distinct declaring methods |
| `MultibindingProperties.InterfaceDeclarationMembership` | compiler/src/main/java/dagger/internal/codegen/MultibindingDeclaration.java:106-110 | a declaration is in the result iff some enumerated method that `Object` does not declare yields it |
| `MultibindingProperties.InterfaceValidation` | compiler/src/main/java/dagger/internal/codegen/MultibindingDeclaration.java:105-113 | for a `@Multibindings` interface in a module, the call succeeds iff every qualifying method returns a set or map; otherwise it fails naming the first qualifying method that does not, and returns no partial set |
| `MultibindingProperties.BindingTypeFromAnnotations` | compiler/src/main/java/dagger/internal/codegen/MultibindingDeclaration.java:128-132 | the converse of `BindingTypeOf`: an element carrying a binding type's module annotation gets that binding type, provided `@Module` does not override `@ProducerModule` |
| `MultibindingProperties.ContributionTypeRoundTrip` | compiler/src/main/java/dagger/internal/codegen/MultibindingDeclaration.java:157-161 | a type of the shape that a contribution type stands for is classified as that contribution type |
| `MultibindingProperties.ProducerModuleScenario` | compiler/src/main/java/dagger/internal/codegen/MultibindingDeclaration.java:99-114 | an interface in a `@ProducerModule` that inherits a non-collection `hashCode` from `Object` and declares a map-returning method yields exactly one `Map`, `Production` declaration for that method |
| `MultibindingProperties.OverloadScenario` | compiler/src/main/java/dagger/internal/codegen/MultibindingDeclaration.java:105-113 | two overloads of one name in a `@Module`'s interface, one returning a set and one a map, yield two `Provision` declarations in enumeration order: a `Set` one, then a `Map` one |
| `ImmutableSets.Add` | compiler/src/main/java/dagger/internal/codegen/MultibindingDeclaration.java:110 | adding keeps the existing elements as a prefix, adds the element only if absent, and preserves duplicate-freedom |
| `ImmutableSets.AddAll` | compiler/src/main/java/dagger/internal/codegen/MultibindingDeclaration.java:105-113 | the built set holds exactly the old and the added elements, keeps the old ones as a prefix and stays duplicate-free |
| `ImmutableSets.AddAllDistinct` | compiler/src/main/java/dagger/internal/codegen/MultibindingDeclaration.java:105-113 | when nothing repeats, the builder keeps every element in insertion order |

## Left out

- javac introspection (`Elements`, `Types.asMemberOf`, `getLocalAndInheritedMethods`, `isAnnotationPresent`, the `Object` element lookup) is replaced by plain inputs. These are element records, total functions in `Factory`, and a method sequence. Generic substitution itself is not modelled.
- `Key.Factory.forMultibindsMethod` is not part of this model. That includes unwrapping the `Provider`/`Producer` value wrapper and rejecting a wrapper that does not match the binding type. The key is the factory function's value, and nothing is assumed about its contents.
- `MapType.isMap` and `SetType.isSet` are not part of this model. A resolved type carries its shape directly, so a type is never both a map and a set.
- Exception messages are not modelled. Each failure is an `Error` value naming the offending element or type.
- EnclosingBindingType: javac gives every type element an enclosing element. The Java code would throw a `NullPointerException` on a missing one; the model instead fails with `NoEnclosingElement`.
- AutoValue's generated `equals`/`hashCode` is left out; declarations use Dafny's structural equality. Guava's `ImmutableSet` is modelled only as a set with insertion order.
- The `BindingDeclaration`, `HasBindingType` and `HasContributionType` interfaces are left out. The record exposes its fields directly.
- InterfaceDeclarationsFollowEnumeration: assumes the method enumeration is duplicate-free. `getLocalAndInheritedMethods` returns a set of distinct method elements. Methods of one type differ in name or parameter types, and methods of different types differ in their enclosing element, so distinct methods are distinct values in the model. For an enumeration with repeats, `InterfaceDeclarationMembership` still holds, and the builder drops the repeats.
