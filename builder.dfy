/**
 * The component builder: registers items one call at a time, hands out
 * each item's index in its index space, and writes each entry into the
 * open section of its kind, sealing the open section whenever the kind
 * changes. `Finish` seals what is still open and returns the sections.
 */
module Builder {
  import opened Encoder
  import opened IndexSpaces
  import opened Batching

  /** Core export kinds that `AliasCoreItem` supports. */
  predicate AliasableCoreKind(kind: ExportKind)
  {
    kind.Func? || kind.Table? || kind.Memory?
  }

  /** Index space advanced by aliasing a core export of a supported kind. */
  function AliasSpace(kind: ExportKind): Space
    requires AliasableCoreKind(kind)
  {
    match kind
    case Func => CoreFuncs
    case Table => CoreTables
    case Memory => CoreMemories
  }

  /** Component export kinds that `Export` supports. */
  predicate ExportableKind(kind: ComponentExportKind)
  {
    kind.Type? || kind.Func? || kind.Module? || kind.Instance?
  }

  /** Index space advanced by exporting an item of a supported kind. */
  function ExportSpace(kind: ComponentExportKind): Space
    requires ExportableKind(kind)
  {
    match kind
    case Type => Types
    case Func => Funcs
    case Module => CoreModules
    case Instance => Instances
  }

  /** Type references that `Import` supports. */
  predicate ImportableRef(ty: ComponentTypeRef)
  {
    ty.Instance? || ty.Func?
  }

  /** Index space advanced by importing a supported type reference. */
  function ImportSpace(ty: ComponentTypeRef): Space
    requires ImportableRef(ty)
  {
    if ty.Instance? then Instances else Funcs
  }

  class ComponentBuilder {
    /** The sections sealed so far. */
    var component: seq<Section>
    /** The open section, extended while entries of its kind keep coming. */
    var lastSection: LastSection

    // Core index spaces
    var coreModules: nat
    var coreFuncs: nat
    var coreMemories: nat
    var coreTables: nat
    var coreInstances: nat

    // Component index spaces
    var funcs: nat
    var instances: nat
    var types: nat

    /** Every registration so far, as seen by the section logic. */
    ghost var trace: seq<Event>
    /** The index space of every index handed out so far, in order. */
    ghost var issued: seq<Space>

    function Counter(s: Space): nat
      reads this`coreModules, this`coreFuncs, this`coreMemories, this`coreTables,
            this`coreInstances, this`funcs, this`instances, this`types
    {
      match s
      case CoreModules => coreModules
      case CoreFuncs => coreFuncs
      case CoreMemories => coreMemories
      case CoreTables => coreTables
      case CoreInstances => coreInstances
      case Funcs => funcs
      case Instances => instances
      case Types => types
    }

    function Snapshot(): State
      reads this`component, this`lastSection
    {
      State(component, lastSection)
    }

    /**
     * The section state is what replaying the registrations produces, and
     * each counter is the number of indices handed out in its space.
     */
    ghost predicate Valid()
      reads this
    {
      Replayed() && Counted()
    }

    /** The section state is what replaying the registrations produces. */
    ghost predicate Replayed()
      reads this`component, this`lastSection, this`trace
    {
      WellFormed(lastSection) && Snapshot() == Replay(trace)
    }

    /** Each counter is the number of indices handed out in its space. */
    ghost predicate Counted()
      reads this`coreModules, this`coreFuncs, this`coreMemories, this`coreTables,
            this`coreInstances, this`funcs, this`instances, this`types, this`issued
    {
      forall s :: Counter(s) == Occurrences(issued, s)
    }

    /** Exactly counter `s` moved, by one. */
    twostate predicate Advanced(s: Space)
      reads this
    {
      forall s' :: Counter(s') == old(Counter(s')) + (if s' == s then 1 else 0)
    }

    /**
     * The effect shared by every batched registration: entry `e` went into
     * a section of kind `k` (joining the open one or sealing it first), and
     * one index was taken from space `s`.
     */
    twostate predicate Registered(k: SectionKind, e: Entry, s: Space)
      reads this
    {
      && Snapshot() == Append(old(Snapshot()), k, e)
      && trace == old(trace) + [Write(k, e)]
      && issued == old(issued) + [s]
      && Advanced(s)
    }

    /** A fresh builder: no sections, no open section, every counter zero. */
    constructor ()
      ensures Valid()
      ensures component == [] && lastSection == None
      ensures trace == [] && issued == []
      ensures forall s :: Counter(s) == 0
    {
      component := [];
      lastSection := None;
      coreModules, coreFuncs, coreMemories, coreTables, coreInstances := 0, 0, 0, 0, 0;
      funcs, instances, types := 0, 0, 0;
      trace := [];
      issued := [];
    }

    /** `inc`: hand out the current value of counter `s` and bump it; nothing else changes. */
    method Inc(s: Space) returns (ret: nat)
      requires Counted()
      modifies this`coreModules, this`coreFuncs, this`coreMemories, this`coreTables,
               this`coreInstances, this`funcs, this`instances, this`types, this`issued
      ensures Counted()
      ensures ret == old(Counter(s)) && Advanced(s)
      ensures issued == old(issued) + [s]
    {
      ret := Counter(s);
      Bump(s);
      issued := issued + [s];
      CountedAfterBump(s);
    }

    /** Bumping counter `s` and logging `s` keeps every counter equal to its count. */
    twostate lemma CountedAfterBump(s: Space)
      requires old(Counted()) && Advanced(s) && issued == old(issued) + [s]
      ensures Counted()
    {
      forall s' | true
        ensures Counter(s') == Occurrences(issued, s')
      {
        assert old(Counter(s')) == Occurrences(old(issued), s');
        OccurrencesSnoc(old(issued), s, s');
      }
    }

    /** The increment half of `inc`, on the field that counter `s` names. */
    method Bump(s: Space)
      modifies this`coreModules, this`coreFuncs, this`coreMemories, this`coreTables,
               this`coreInstances, this`funcs, this`instances, this`types
      ensures Advanced(s)
    {
      match s {
        case CoreModules => coreModules := coreModules + 1;
        case CoreFuncs => coreFuncs := coreFuncs + 1;
        case CoreMemories => coreMemories := coreMemories + 1;
        case CoreTables => coreTables := coreTables + 1;
        case CoreInstances => coreInstances := coreInstances + 1;
        case Funcs => funcs := funcs + 1;
        case Instances => instances := instances + 1;
        case Types => types := types + 1;
      }
    }

    /**
     * `flush`: take the open section, leaving none, and append it to the
     * output if there was one. Flushing twice in a row changes nothing the
     * second time.
     */
    method Flush()
      modifies this`component, this`lastSection
      ensures Snapshot() == Flushed(old(Snapshot()))
      ensures lastSection == None
      ensures |component| == |old(component)| + (if old(lastSection).Open? then 1 else 0)
      ensures old(lastSection) == None ==> component == old(component)
    {
      var taken := lastSection;
      lastSection := None;
      match taken
      case None =>
      case Open(k, es) => component := component + [Batched(k, es)];
    }

    /**
     * A section accessor: keep the open section if it has kind `k`;
     * otherwise flush it and open an empty section of kind `k`.
     */
    method OpenSection(k: SectionKind)
      modifies this`component, this`lastSection
      ensures lastSection.Open? && lastSection.kind == k
      ensures old(lastSection).Open? && old(lastSection).kind == k ==>
                component == old(component) && lastSection == old(lastSection)
      ensures !(old(lastSection).Open? && old(lastSection).kind == k) ==>
                component == old(component) + Sealed(old(lastSection)) && lastSection == Open(k, [])
    {
      if !(lastSection.Open? && lastSection.kind == k) {
        Flush();
        lastSection := Open(k, []);
      }
    }

    /** Write entry `e` through the accessor of section kind `k`. */
    method Record(k: SectionKind, e: Entry)
      requires Valid()
      modifies this`component, this`lastSection, this`trace
      ensures Valid()
      ensures Snapshot() == Append(old(Snapshot()), k, e)
      ensures trace == old(trace) + [Write(k, e)]
    {
      OpenSection(k);
      assert old(lastSection).Open? && old(lastSection).kind == k ==>
        lastSection.entries == old(lastSection).entries;
      assert [] + [e] == [e];
      lastSection := Open(k, lastSection.entries + [e]);
      assert Snapshot() == Append(old(Snapshot()), k, e);
      ReplaySnoc(State([], None), trace, Write(k, e));
      trace := trace + [Write(k, e)];
    }

    /**
     * `finish`: seal the open section, if any, and return the component's
     * sections; they are the grouping of every registration into maximal
     * same-kind runs, one section per embedded module.
     */
    method Finish() returns (sections: seq<Section>)
      requires Valid()
      modifies this`component, this`lastSection
      ensures sections == old(component) + Sealed(old(lastSection))
      ensures sections == Grouped(old(trace))
    {
      FinishMatchesGrouping(trace);
      Flush();
      sections := component;
    }

    /** Instantiate core module `moduleIndex`; returns the new core instance index. */
    method Instantiate(moduleIndex: nat, args: seq<(string, ModuleArg)>) returns (idx: nat)
      requires Valid()
      modifies this
      ensures Valid() && idx == old(coreInstances)
      ensures Registered(InstanceSection, CoreInstantiate(moduleIndex, args), CoreInstances)
    {
      Record(InstanceSection, CoreInstantiate(moduleIndex, args));
      idx := Inc(CoreInstances);
    }

    /** Alias function export `name` of component instance `instance`; returns the new function index. */
    method AliasFunc(instance: nat, name: string) returns (idx: nat)
      requires Valid()
      modifies this
      ensures Valid() && idx == old(funcs)
      ensures Registered(ComponentAliasSection, InstanceExportAlias(instance, ComponentExportKind.Func, name), Funcs)
    {
      Record(ComponentAliasSection, InstanceExportAlias(instance, ComponentExportKind.Func, name));
      idx := Inc(Funcs);
    }

    /** Lower component function `funcIndex`; returns the new core function index. */
    method LowerFunc(funcIndex: nat, options: seq<CanonicalOption>) returns (idx: nat)
      requires Valid()
      modifies this
      ensures Valid() && idx == old(coreFuncs)
      ensures Registered(CanonicalFunctionSection, Lower(funcIndex, options), CoreFuncs)
    {
      Record(CanonicalFunctionSection, Lower(funcIndex, options));
      idx := Inc(CoreFuncs);
    }

    /** Lift core function `coreFuncIndex` at type `typeIndex`; returns the new function index. */
    method LiftFunc(coreFuncIndex: nat, typeIndex: nat, options: seq<CanonicalOption>) returns (idx: nat)
      requires Valid()
      modifies this
      ensures Valid() && idx == old(funcs)
      ensures Registered(CanonicalFunctionSection, Lift(coreFuncIndex, typeIndex, options), Funcs)
    {
      Record(CanonicalFunctionSection, Lift(coreFuncIndex, typeIndex, options));
      idx := Inc(Funcs);
    }

    /** Build a core instance out of core exports; returns the new core instance index. */
    method InstantiateCoreExports(exports: seq<(string, ExportKind, nat)>) returns (idx: nat)
      requires Valid()
      modifies this
      ensures Valid() && idx == old(coreInstances)
      ensures Registered(InstanceSection, CoreExportItems(exports), CoreInstances)
    {
      Record(InstanceSection, CoreExportItems(exports));
      idx := Inc(CoreInstances);
    }

    /** Build a component instance out of exports; returns the new instance index. */
    method InstantiateExports(exports: seq<(string, ComponentExportKind, nat)>) returns (idx: nat)
      requires Valid()
      modifies this
      ensures Valid() && idx == old(instances)
      ensures Registered(ComponentInstanceSection, ExportItems(exports), Instances)
    {
      Record(ComponentInstanceSection, ExportItems(exports));
      idx := Inc(Instances);
    }

    /** Embed a structured core module in a section of its own; returns the new core module index. */
    method CoreModule(moduleId: nat) returns (idx: nat)
      requires Valid()
      modifies this
      ensures Valid() && idx == old(coreModules) && Advanced(CoreModules)
      ensures component == old(component) + Sealed(old(lastSection)) + [ModuleSection(Structured(moduleId))]
      ensures lastSection == None
      ensures trace == old(trace) + [Embed(Structured(moduleId))]
      ensures issued == old(issued) + [CoreModules]
    {
      Flush();
      component := component + [ModuleSection(Structured(moduleId))];
      ReplaySnoc(State([], None), trace, Embed(Structured(moduleId)));
      trace := trace + [Embed(Structured(moduleId))];
      idx := Inc(CoreModules);
    }

    /** Embed a pre-encoded core module in a section of its own; returns the new core module index. */
    method CoreModuleRaw(bytes: seq<bv8>) returns (idx: nat)
      requires Valid()
      modifies this
      ensures Valid() && idx == old(coreModules) && Advanced(CoreModules)
      ensures component == old(component) + Sealed(old(lastSection)) + [ModuleSection(Raw(bytes))]
      ensures lastSection == None
      ensures trace == old(trace) + [Embed(Raw(bytes))]
      ensures issued == old(issued) + [CoreModules]
    {
      Flush();
      component := component + [ModuleSection(Raw(bytes))];
      ReplaySnoc(State([], None), trace, Embed(Raw(bytes)));
      trace := trace + [Embed(Raw(bytes))];
      idx := Inc(CoreModules);
    }

    /**
     * Alias export `name` of core instance `instance`. Functions, tables and
     * memories advance the core function, table and memory spaces; globals
     * and tags are not supported.
     */
    method AliasCoreItem(instance: nat, kind: ExportKind, name: string) returns (idx: nat)
      requires Valid()
      requires AliasableCoreKind(kind)
      modifies this
      ensures Valid() && idx == old(Counter(AliasSpace(kind)))
      ensures Registered(ComponentAliasSection, CoreInstanceExportAlias(instance, kind, name), AliasSpace(kind))
    {
      Record(ComponentAliasSection, CoreInstanceExportAlias(instance, kind, name));
      if kind.Func? {
        idx := Inc(CoreFuncs);
      } else if kind.Table? {
        idx := Inc(CoreTables);
      } else {
        idx := Inc(CoreMemories);
      }
    }

    /**
     * Export item `index` of the given kind under `name`. Types, functions,
     * modules and instances advance the type, function, core module and
     * instance spaces; components and values are not supported.
     */
    method Export(name: string, url: string, kind: ComponentExportKind, index: nat) returns (idx: nat)
      requires Valid()
      requires ExportableKind(kind)
      modifies this
      ensures Valid() && idx == old(Counter(ExportSpace(kind)))
      ensures Registered(ComponentExportSection, ExportEntry(name, url, kind, index), ExportSpace(kind))
    {
      Record(ComponentExportSection, ExportEntry(name, url, kind, index));
      if kind.Type? {
        idx := Inc(Types);
      } else if kind.Func? {
        idx := Inc(Funcs);
      } else if kind.Module? {
        idx := Inc(CoreModules);
      } else {
        idx := Inc(Instances);
      }
    }

    /**
     * Import `name` at type reference `ty`. Instance references advance the
     * instance space and function references the function space; every
     * other reference is not supported.
     */
    method Import(name: string, url: string, ty: ComponentTypeRef) returns (idx: nat)
      requires Valid()
      requires ImportableRef(ty)
      modifies this
      ensures Valid() && idx == old(Counter(ImportSpace(ty)))
      ensures Registered(ComponentImportSection, ImportEntry(name, url, ty), ImportSpace(ty))
    {
      if ty.Instance? {
        idx := Inc(Instances);
      } else {
        idx := Inc(Funcs);
      }
      Record(ComponentImportSection, ImportEntry(name, url, ty));
    }

    /** Define instance type `decl`; returns the new type index. */
    method InstanceType(decl: nat) returns (idx: nat)
      requires Valid()
      modifies this
      ensures Valid() && idx == old(types)
      ensures Registered(ComponentTypeSection, InstanceTypeEntry(decl), Types)
    {
      idx := Inc(Types);
      Record(ComponentTypeSection, InstanceTypeEntry(decl));
    }

    /** Start a defined type in the type section; returns the new type index. */
    method DefinedType() returns (idx: nat)
      requires Valid()
      modifies this
      ensures Valid() && idx == old(types)
      ensures Registered(ComponentTypeSection, DefinedTypeEntry, Types)
    {
      idx := Inc(Types);
      Record(ComponentTypeSection, DefinedTypeEntry);
    }

    /** Start a function type in the type section; returns the new type index. */
    method FunctionType() returns (idx: nat)
      requires Valid()
      modifies this
      ensures Valid() && idx == old(types)
      ensures Registered(ComponentTypeSection, FunctionTypeEntry, Types)
    {
      idx := Inc(Types);
      Record(ComponentTypeSection, FunctionTypeEntry);
    }

    /** Alias type export `name` of component instance `instance`; returns the new type index. */
    method AliasTypeExport(instance: nat, name: string) returns (idx: nat)
      requires Valid()
      modifies this
      ensures Valid() && idx == old(types)
      ensures Registered(ComponentAliasSection, InstanceExportAlias(instance, ComponentExportKind.Type, name), Types)
    {
      Record(ComponentAliasSection, InstanceExportAlias(instance, ComponentExportKind.Type, name));
      idx := Inc(Types);
    }

    /** Alias type `index` of the component `count` levels out; returns the new type index. */
    method AliasOuterType(count: nat, index: nat) returns (idx: nat)
      requires Valid()
      modifies this
      ensures Valid() && idx == old(types)
      ensures Registered(ComponentAliasSection, OuterTypeAlias(count, index), Types)
    {
      Record(ComponentAliasSection, OuterTypeAlias(count, index));
      idx := Inc(Types);
    }
  }

  /**
   * Two function imports on a fresh builder get function indices 0 and 1
   * and share the one open import section; nothing is sealed yet.
   */
  method TwoImports(a: string, b: string) returns (first: nat, second: nat, sealed: seq<Section>, open: LastSection)
    ensures first == 0 && second == 1
    ensures sealed == []
    ensures open == Open(ComponentImportSection, [ImportEntry(a, "", ComponentTypeRef.Func(0)),
                                                  ImportEntry(b, "", ComponentTypeRef.Func(0))])
  {
    var builder := new ComponentBuilder();
    first := builder.Import(a, "", ComponentTypeRef.Func(0));
    second := builder.Import(b, "", ComponentTypeRef.Func(0));
    sealed, open := builder.component, builder.lastSection;
  }

  /**
   * A function import followed by a type export on a fresh builder: both
   * get index 0 in their own spaces; the export seals the import section
   * and `Finish` seals the export section, so the component holds exactly
   * two sections, in call order.
   */
  method ImportThenExport(a: string, t: string) returns (imported: nat, exported: nat, sections: seq<Section>)
    ensures imported == 0 && exported == 0
    ensures sections == [
      Batched(ComponentImportSection, [ImportEntry(a, "", ComponentTypeRef.Func(0))]),
      Batched(ComponentExportSection, [ExportEntry(t, "", ComponentExportKind.Type, 0)])]
  {
    var builder := new ComponentBuilder();
    imported := builder.Import(a, "", ComponentTypeRef.Func(0));
    exported := builder.Export(t, "", ComponentExportKind.Type, 0);
    sections := builder.Finish();
  }

  /**
   * Two embedded modules in a row on a fresh builder get core module
   * indices 0 and 1 and two separate sections.
   */
  method TwoModules(m1: seq<bv8>, m2: seq<bv8>) returns (first: nat, second: nat, sections: seq<Section>)
    ensures first == 0 && second == 1
    ensures sections == [ModuleSection(Raw(m1)), ModuleSection(Raw(m2))]
  {
    var builder := new ComponentBuilder();
    first := builder.CoreModuleRaw(m1);
    assert builder.Counter(CoreModules) == 1;
    second := builder.CoreModuleRaw(m2);
    sections := builder.Finish();
  }
}
