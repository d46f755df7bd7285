# ComponentBuilder: section batching and index spaces

This project models `ComponentBuilder` of the `wit-component` crate: the
stateful helper that writes a WebAssembly component one item at a time.
It does two things. It hands every registered item its index in one of
eight index spaces (core modules, core functions, core memories, core
tables, core instances, functions, instances, types). It also writes each
item's entry into the open section of that item's kind. Same-kind entries
share one section. A change of kind seals the open section into the
component. A core module always takes a section of its own.

The model is split in four modules:

- `Encoder` (`encoder.dfy`): the values handed to the encoder library,
  kept abstract. These are export kinds, type references, canonical
  options, module bodies, and the `Entry` written into a section.
- `IndexSpaces` (`index_spaces.dfy`): the eight spaces and a log of the
  indices handed out, with the lemma that indices in one space never repeat.
- `Batching` (`batching.dfy`): the open-section slot (`LastSection`), the
  sealed `Section`s, and the step machine the builder runs (`Step`,
  `Replay`, `Output`). It also holds an independent reference description,
  `Grouped`, which cuts the registration trace into maximal same-kind
  runs, plus the lemmas that connect the two.
- `Builder` (`builder.dfy`): the class `ComponentBuilder`. It has the eight
  counters, the `component` section list and the `lastSection` slot as
  fields, and one method per operation of the source. Two ghost fields
  record the registrations (`trace`) and the spaces indices were taken from
  (`issued`). `Valid()` ties them to the real fields. `Replayed()` says
  the section state is `Replay(trace)`. `Counted()` says each counter is
  the number of indices taken from its space.

The key result is `Builder.ComponentBuilder.Finish`. The sections it returns
equal `Grouped` of every registration made: maximal same-kind runs in call
order, one section per embedded module. `Batching.FinishMatchesGrouping`
proves the step machine agrees with that grouping. `Batching.UnbatchGrouped`
and `Batching.GroupedUnbatch` prove that grouping is a bijection between
traces and canonical section lists. Canonical means no empty section and no
two neighbouring sections that could merge.

## Model

| member | source | states |
|---|---|---|
| `Builder.ComponentBuilder.constructor` | crates/wit-component/src/builder.rs:7-31 | A default builder has no sections, no open section and every counter at zero. |
| `Builder.ComponentBuilder.Inc` | crates/wit-component/src/builder.rs:239-243 | Returns the counter's prior value, and that counter alone grows by exactly one. Every counter still equals the number of indices handed out in its space. Sections and the open slot are outside its frame. |
| `Builder.ComponentBuilder.CountedAfterBump` | crates/wit-component/src/builder.rs:239-243 | Bumping one counter and logging its space keeps every counter equal to its count. |
| `Builder.ComponentBuilder.Bump` | crates/wit-component/src/builder.rs:241 | The increment moves the named counter by one and no other counter. |
| `Builder.ComponentBuilder.Flush` | crates/wit-component/src/builder.rs:212-223 | Afterwards the slot is empty. Exactly one section is appended if a section was open, and none otherwise, so a second flush in a row changes nothing. |
| `Builder.ComponentBuilder.OpenSection` | crates/wit-component/src/builder.rs:190-209 | If the open section has the requested kind, the output and slot are unchanged. Otherwise the previous open section, if any, is appended to the output and an empty section of the requested kind is opened. Either way the slot ends up holding the requested kind. |
| `Builder.ComponentBuilder.Record` | crates/wit-component/src/builder.rs:190-209 | An accessor call plus one entry write. The entry joins the open section of its kind, or the open section is sealed and a new one holds just this entry. The class invariant is kept. |
| `Builder.ComponentBuilder.Finish` | crates/wit-component/src/builder.rs:34-37 | An open section is flushed and ends up as the last section. The result equals the grouping of all registrations into maximal same-kind runs in call order, with one section per core module. |
| `Builder.ComponentBuilder.Instantiate` | crates/wit-component/src/builder.rs:39-46 | Writes an instantiation into the core instance section. Returns the prior `core_instances` and advances only that counter. |
| `Builder.ComponentBuilder.AliasFunc` | crates/wit-component/src/builder.rs:48-55 | Writes a function instance-export alias into the alias section. Returns the prior `funcs` and advances only that counter. |
| `Builder.ComponentBuilder.LowerFunc` | crates/wit-component/src/builder.rs:57-64 | Writes a lower into the canonical function section. Returns the prior `core_funcs` and advances only that counter. |
| `Builder.ComponentBuilder.LiftFunc` | crates/wit-component/src/builder.rs:66-74 | Writes a lift into the canonical function section. Returns the prior `funcs` and advances only that counter. |
| `Builder.ComponentBuilder.InstantiateCoreExports` | crates/wit-component/src/builder.rs:76-83 | Writes the export items into the core instance section. Returns the prior `core_instances` and advances only that counter. |
| `Builder.ComponentBuilder.InstantiateExports` | crates/wit-component/src/builder.rs:85-92 | Writes the export items into the component instance section. Returns the prior `instances` and advances only that counter. |
| `Builder.ComponentBuilder.CoreModule` | crates/wit-component/src/builder.rs:94-98 | Flushes first, then appends one standalone module section, leaving the slot empty. Returns the prior `core_modules` and advances only that counter. |
| `Builder.ComponentBuilder.CoreModuleRaw` | crates/wit-component/src/builder.rs:100-107 | Same as `CoreModule`, for pre-encoded module bytes. |
| `Builder.ComponentBuilder.AliasCoreItem` | crates/wit-component/src/builder.rs:109-121 | Writes a core instance-export alias into the alias section. Func, Table and Memory advance `core_funcs`, `core_tables` and `core_memories` only, and the prior value is returned. Global and Tag are excluded by the precondition. |
| `Builder.ComponentBuilder.Export` | crates/wit-component/src/builder.rs:123-132 | Writes the export into the export section. Type, Func, Module and Instance advance `types`, `funcs`, `core_modules` and `instances` only, and the prior value is returned. Component and Value are excluded by the precondition. |
| `Builder.ComponentBuilder.Import` | crates/wit-component/src/builder.rs:134-142 | Writes the import into the import section. Instance and Func references advance `instances` and `funcs` only, and the prior value is returned. Every other reference is excluded by the precondition. |
| `Builder.ComponentBuilder.InstanceType` | crates/wit-component/src/builder.rs:144-148 | Writes an instance type into the type section. Returns the prior `types` and advances only that counter. |
| `Builder.ComponentBuilder.DefinedType` | crates/wit-component/src/builder.rs:150-152 | Writes one defined-type entry into the type section. Returns the prior `types` and advances only that counter. |
| `Builder.ComponentBuilder.FunctionType` | crates/wit-component/src/builder.rs:154-156 | Writes one function-type entry into the type section. Returns the prior `types` and advances only that counter. |
| `Builder.ComponentBuilder.AliasTypeExport` | crates/wit-component/src/builder.rs:158-165 | Writes a type instance-export alias into the alias section. Returns the prior `types` and advances only that counter. |
| `Builder.ComponentBuilder.AliasOuterType` | crates/wit-component/src/builder.rs:167-174 | Writes an outer type alias into the alias section. Returns the prior `types` and advances only that counter. |
| `Builder.TwoImports` | crates/wit-component/src/builder.rs:134-142 | On a fresh builder, two function imports get indices 0 and 1. Both imports share the one open import section, in call order, and nothing is sealed yet. |
| `Builder.ImportThenExport` | crates/wit-component/src/builder.rs:123-142 | On a fresh builder, an import and an export both get index 0 in their own spaces. The finished component holds exactly two sections: the import section, then the export section. |
| `Builder.TwoModules` | crates/wit-component/src/builder.rs:100-107 | Two raw modules in a row get indices 0 and 1 and two separate sections. |
| `Batching.ReplaySnoc` | crates/wit-component/src/builder.rs:190-223 | Registering one more item is one more step of the machine, which is what lets each method keep the class invariant. |
| `Batching.RunLength` | crates/wit-component/src/builder.rs:191-196 | Returns the length of the longest prefix made only of entries of one kind. The prefix is all that kind, and the next event is not. |
| `Batching.Grouped` | crates/wit-component/src/builder.rs:180-223 | The reference grouping never has more sections than registrations. Its first section is batched exactly when the first registration is an entry, and then has that entry's kind. |
| `Batching.RunOfWrites` | crates/wit-component/src/builder.rs:191-196 | A run of same-kind entries followed by anything else is measured exactly. |
| `Batching.GroupedAfterRun` | crates/wit-component/src/builder.rs:191-209 | A non-empty same-kind run, ended by anything of another kind, forms exactly one section holding the run's entries in order. |
| `Batching.GroupedAfterPending` | crates/wit-component/src/builder.rs:214-223 | The open entries group into the section that flushing seals. |
| `Batching.EmbedKeepsOutput` | crates/wit-component/src/builder.rs:94-107 | A core module seals the open section and adds a standalone section. This agrees with the grouping. |
| `Batching.WritesSnoc` | crates/wit-component/src/builder.rs:205-207 | One more entry at the end of a run is the same events as that entry placed in front of what follows. |
| `Batching.WriteKeepsOutput` | crates/wit-component/src/builder.rs:191-209 | An entry either extends the open run or seals it and starts a new one. This agrees with the grouping. |
| `Batching.StepKeepsOutput` | crates/wit-component/src/builder.rs:180-223 | Each step preserves "sealed output plus grouping of pending entries", and keeps the slot non-empty when it is open. |
| `Batching.ReplayFromOutput` | crates/wit-component/src/builder.rs:180-223 | From any well-formed state, finishing after a trace gives the sealed output followed by the grouping of the pending entries and the trace. |
| `Batching.FinishMatchesGrouping` | crates/wit-component/src/builder.rs:34-37 | Finishing after any trace yields exactly the maximal-run grouping of that trace. |
| `Batching.WritesOfPayloads` | crates/wit-component/src/builder.rs:205-207 | A same-kind run is rebuilt from its entries. |
| `Batching.UnbatchGrouped` | crates/wit-component/src/builder.rs:180-223 | Reading the grouped sections back gives the trace itself. Grouping drops nothing and reorders nothing. |
| `Batching.GroupedCanonical` | crates/wit-component/src/builder.rs:191-209 | The grouping has no empty section and no two neighbouring sections of the same kind, so no run is split needlessly. |
| `Batching.GroupedUnbatch` | crates/wit-component/src/builder.rs:191-209 | Every canonical section list is the grouping of the registrations it stands for. |
| `Batching.CoalesceRun` | crates/wit-component/src/builder.rs:191-196 | Consecutive same-kind entries end up in a single section in call order. |
| `Batching.KindChangeSplits` | crates/wit-component/src/builder.rs:197-203 | One entry of another kind between two same-kind runs yields three sections, never a merged one. |
| `Batching.ModulesIsolated` | crates/wit-component/src/builder.rs:94-107 | Consecutive core modules get one section each, in order. |
| `IndexSpaces.OccurrencesSnoc` | crates/wit-component/src/builder.rs:239-243 | One more index taken from a space raises that space's count by one and no other count. |
| `IndexSpaces.OccurrencesMonotone` | crates/wit-component/src/builder.rs:239-243 | Counters never decrease as registrations accumulate. |
| `IndexSpaces.IndicesDistinct` | crates/wit-component/src/builder.rs:239-243 | Two registrations in the same space never get the same index. The later one gets a larger index. |

## Left out

- The byte encoding is left out: section ids, lengths, LEB128, the component header and `Component::finish`. The encoder library's per-section writers are left out too. Entries and module bodies are abstract values, and `Finish` returns the section list instead of bytes.
- The encoders that `defined_type` and `function_type` lend to the caller are not modelled. Each call is one type entry, and what the caller later writes through the encoder is not modelled.
- Builder.ComponentBuilder.Inc: counters are unbounded `nat`. The `u32` overflow of `*idx += 1` (a panic or a wrap, depending on the build) is not modelled.
- Unsupported kinds are preconditions, not modelled panics. These are Global/Tag for `alias_core_item`, Component/Value for `export`, and every reference other than Instance/Func for `import`. In the source, `alias_core_item` and `export` write their entry before panicking, while `import` panics before writing. No output is visible after a panic, so the model does not represent that order.
- The payloads of type references, instance types and structured modules are abstract numbers. Generic iterator arguments are sequences.
- Cross-referenced indices are never checked against the counters, as in the source.
- `flush` is private in the source. It is reached only through the accessors, `core_module`, `core_module_raw` and `finish`, and is modelled that way. Traces contain no stand-alone flush.
- Use after `finish` is not modelled. In the source, `finish` takes the builder by value.
