/**
 * The values the builder hands to the binary encoder library. The builder
 * never looks inside them: it only decides which section each one goes to
 * and in which order. Their byte encoding is not part of this model, so
 * every payload is kept as an abstract value (indices are `nat`, names are
 * strings, type descriptions are identifiers).
 */
module Encoder {

  /** Kind of an item exported by a core module instance. */
  datatype ExportKind = Func | Table | Memory | Global | Tag

  /** Kind of an item exported by a component. */
  datatype ComponentExportKind = Module | Func | Value | Type | Instance | Component

  /**
   * The type an import refers to. Each variant carries the type index or
   * type description it names, kept abstract as a number.
   */
  datatype ComponentTypeRef =
    | Module(index: nat)
    | Func(index: nat)
    | Value(index: nat)
    | Type(index: nat)
    | Instance(index: nat)
    | Component(index: nat)

  /** Options of a canonical lift or lower. */
  datatype CanonicalOption =
    | Utf8
    | Utf16
    | CompactUtf16
    | Memory(index: nat)
    | Realloc(index: nat)
    | PostReturn(index: nat)

  /** An argument to a core module instantiation. */
  datatype ModuleArg = Instance(index: nat)

  /** An embedded core module: a structured module value or pre-encoded bytes. */
  datatype ModuleBody = Structured(id: nat) | Raw(bytes: seq<bv8>)

  /** One entry written into a batchable section. */
  datatype Entry =
      /** `instantiate` of a core module with named arguments (core instance section). */
    | CoreInstantiate(moduleIndex: nat, args: seq<(string, ModuleArg)>)
      /** A core instance made of a list of core exports (core instance section). */
    | CoreExportItems(coreItems: seq<(string, ExportKind, nat)>)
      /** A component instance made of a list of exports (component instance section). */
    | ExportItems(items: seq<(string, ComponentExportKind, nat)>)
      /** `canon lower` of a component function (canonical function section). */
    | Lower(func: nat, options: seq<CanonicalOption>)
      /** `canon lift` of a core function at a type (canonical function section). */
    | Lift(coreFunc: nat, funcType: nat, options: seq<CanonicalOption>)
      /** Alias of an export of a component instance (alias section). */
    | InstanceExportAlias(instance: nat, kind: ComponentExportKind, name: string)
      /** Alias of an export of a core instance (alias section). */
    | CoreInstanceExportAlias(instance: nat, coreKind: ExportKind, name: string)
      /** Alias of a type of an enclosing component (alias section). */
    | OuterTypeAlias(count: nat, index: nat)
      /** An export of the component (export section). */
    | ExportEntry(name: string, url: string, kind: ComponentExportKind, index: nat)
      /** An import of the component (import section). */
    | ImportEntry(name: string, url: string, ty: ComponentTypeRef)
      /** An instance type definition (type section). */
    | InstanceTypeEntry(decl: nat)
      /** A defined type whose body the caller writes through the returned encoder (type section). */
    | DefinedTypeEntry
      /** A function type whose body the caller writes through the returned encoder (type section). */
    | FunctionTypeEntry
}
