/**
 * Section batching. The builder keeps at most one open section; an entry of
 * the open section's kind is appended to it, any other entry first seals
 * the open section into the output and then opens a fresh one. Embedded
 * core modules always flush and then take a section of their own.
 *
 * Two descriptions of the resulting output are given here: the step-by-step
 * machine the builder runs (`Step`, `Replay`, `Output`), and an independent
 * one (`Grouped`) that cuts the registration trace into maximal runs of
 * same-kind entries. `FinishMatchesGrouping` proves they agree, and
 * `UnbatchGrouped` / `GroupedUnbatch` prove that grouping loses nothing and
 * reorders nothing.
 */
module Batching {
  import opened Encoder

  /** The seven batchable section kinds. */
  datatype SectionKind =
    | ComponentInstanceSection
    | InstanceSection
    | CanonicalFunctionSection
    | ComponentAliasSection
    | ComponentExportSection
    | ComponentImportSection
    | ComponentTypeSection

  /** A sealed section of the output component. */
  datatype Section =
    | Batched(kind: SectionKind, entries: seq<Entry>)
    | ModuleSection(body: ModuleBody)

  /** The open-section slot: nothing, or the entries gathered so far for one kind. */
  datatype LastSection = None | Open(kind: SectionKind, entries: seq<Entry>)

  /** The builder's section state: the sealed output and the open slot. */
  datatype State = State(component: seq<Section>, last: LastSection)

  /** An open section always holds at least the entry that opened it. */
  predicate WellFormed(last: LastSection)
  {
    last.Open? ==> last.entries != []
  }

  /** What sealing the slot adds to the output. */
  function Sealed(last: LastSection): seq<Section>
  {
    match last
    case None => []
    case Open(k, es) => [Batched(k, es)]
  }

  /** `flush`: the open section, if any, moves to the output; the slot empties. */
  function Flushed(s: State): State
  {
    State(s.component + Sealed(s.last), None)
  }

  /** A section accessor followed by one entry write of kind `k`. */
  function Append(s: State, k: SectionKind, e: Entry): State
  {
    if s.last.Open? && s.last.kind == k then State(s.component, Open(k, s.last.entries + [e]))
    else State(Flushed(s).component, Open(k, [e]))
  }

  /** `core_module` / `core_module_raw`: flush, then one standalone module section. */
  function Embedded(s: State, b: ModuleBody): State
  {
    State(Flushed(s).component + [ModuleSection(b)], None)
  }

  /** One registration as seen by the section logic. */
  datatype Event = Write(kind: SectionKind, entry: Entry) | Embed(body: ModuleBody)

  function Step(s: State, ev: Event): State
  {
    match ev
    case Write(k, e) => Append(s, k, e)
    case Embed(b) => Embedded(s, b)
  }

  function ReplayFrom(s: State, t: seq<Event>): State
    decreases |t|
  {
    if t == [] then s else ReplayFrom(Step(s, t[0]), t[1..])
  }

  /** The section state after registering `t` on a fresh builder. */
  function Replay(t: seq<Event>): State
  {
    ReplayFrom(State([], None), t)
  }

  /** The section sequence `finish` writes: the output after a final flush. */
  function Output(s: State): seq<Section>
  {
    Flushed(s).component
  }

  /** Replaying one more event is one more step. */
  lemma {:induction false} ReplaySnoc(s: State, t: seq<Event>, ev: Event)
    ensures ReplayFrom(s, t + [ev]) == Step(ReplayFrom(s, t), ev)
    decreases |t|
  {
    if t != [] {
      assert (t + [ev])[1..] == t[1..] + [ev];
      ReplaySnoc(Step(s, t[0]), t[1..], ev);
    }
  }

  // ---------------------------------------------------------------------
  // The reference description: maximal runs of same-kind entries.
  // ---------------------------------------------------------------------

  /** Length of the longest prefix of `t` made of entries of kind `k`. */
  function RunLength(t: seq<Event>, k: SectionKind): (n: nat)
    ensures n <= |t|
    ensures forall i :: 0 <= i < n ==> (t[i].Write? && t[i].kind == k)
    ensures n < |t| ==> !(t[n].Write? && t[n].kind == k)
    decreases |t|
  {
    if t != [] && (t[0].Write? && t[0].kind == k) then 1 + RunLength(t[1..], k) else 0
  }

  /** The events that write `es`, in order, into sections of kind `k`. */
  function Writes(k: SectionKind, es: seq<Entry>): seq<Event>
  {
    seq(|es|, i requires 0 <= i < |es| => Write(k, es[i]))
  }

  /** The entries carried by a run of writes. */
  function Payloads(t: seq<Event>): seq<Entry>
    requires forall i :: 0 <= i < |t| ==> t[i].Write?
  {
    seq(|t|, i requires 0 <= i < |t| => t[i].entry)
  }

  /**
   * The expected sections for trace `t`: every maximal run of same-kind
   * entries becomes one section holding the run's entries in order, and
   * every embedded module becomes a section of its own.
   */
  function Grouped(t: seq<Event>): (r: seq<Section>)
    ensures |r| <= |t|
    ensures t != [] ==> r != [] && (r[0].Batched? <==> t[0].Write?)
    ensures t != [] && t[0].Write? ==> r[0].kind == t[0].kind
    decreases |t|
  {
    if t == [] then []
    else match t[0]
      case Embed(b) => [ModuleSection(b)] + Grouped(t[1..])
      case Write(k, _) =>
        var n := RunLength(t, k);
        [Batched(k, Payloads(t[..n]))] + Grouped(t[n..])
  }

  /** A run of writes of kind `k` followed by anything else is exactly as long as the run. */
  lemma {:induction false} RunOfWrites(k: SectionKind, es: seq<Entry>, t: seq<Event>)
    requires t == [] || !(t[0].Write? && t[0].kind == k)
    ensures RunLength(Writes(k, es) + t, k) == |es|
    decreases |es|
  {
    var u := Writes(k, es) + t;
    if es == [] {
      assert u == t;
    } else {
      assert u[0] == Write(k, es[0]);
      assert u[1..] == Writes(k, es[1..]) + t;
      RunOfWrites(k, es[1..], t);
    }
  }

  /** A non-empty run of kind `k`, ended by anything but kind `k`, forms exactly one section. */
  lemma GroupedAfterRun(k: SectionKind, es: seq<Entry>, t: seq<Event>)
    requires es != []
    requires t == [] || !(t[0].Write? && t[0].kind == k)
    ensures Grouped(Writes(k, es) + t) == [Batched(k, es)] + Grouped(t)
  {
    var u := Writes(k, es) + t;
    RunOfWrites(k, es, t);
    assert u[0] == Write(k, es[0]);
    assert u[..|es|] == Writes(k, es);
    assert Payloads(Writes(k, es)) == es;
    assert u[|es|..] == t;
  }

  /** The events still held in the open slot, as if they were replayed again. */
  function Pending(last: LastSection): seq<Event>
  {
    match last
    case None => []
    case Open(k, es) => Writes(k, es)
  }

  /** The open entries, followed by anything they cannot merge with, group into the sealed slot. */
  lemma GroupedAfterPending(last: LastSection, t: seq<Event>)
    requires WellFormed(last)
    requires last.Open? && t != [] ==> !(t[0].Write? && t[0].kind == last.kind)
    ensures Grouped(Pending(last) + t) == Sealed(last) + Grouped(t)
  {
    match last
    case None =>
      assert Pending(last) + t == t;
    case Open(k, es) =>
      GroupedAfterRun(k, es, t);
  }

  /** An embedded module seals the open section and stands alone. */
  lemma EmbedKeepsOutput(s: State, b: ModuleBody, rest: seq<Event>)
    requires WellFormed(s.last)
    ensures Embedded(s, b).component + Grouped(rest)
         == s.component + Grouped(Pending(s.last) + ([Embed(b)] + rest))
  {
    var t := [Embed(b)] + rest;
    assert t[1..] == rest;
    assert Grouped(t) == [ModuleSection(b)] + Grouped(rest);
    GroupedAfterPending(s.last, t);
  }

  /** Writing one more entry of the open kind extends the pending run by that entry. */
  lemma WritesSnoc(k: SectionKind, es: seq<Entry>, e: Entry, rest: seq<Event>)
    ensures Writes(k, es + [e]) + rest == Writes(k, es) + ([Write(k, e)] + rest)
  {
    assert Writes(k, es + [e]) == Writes(k, es) + [Write(k, e)];
  }

  /** An entry either joins the open run or seals it and starts a new one. */
  lemma WriteKeepsOutput(s: State, k: SectionKind, e: Entry, rest: seq<Event>)
    requires WellFormed(s.last)
    ensures Append(s, k, e).component + Grouped(Pending(Append(s, k, e).last) + rest)
         == s.component + Grouped(Pending(s.last) + ([Write(k, e)] + rest))
  {
    if s.last.Open? && s.last.kind == k {
      WritesSnoc(k, s.last.entries, e, rest);
    } else {
      assert Writes(k, [e]) == [Write(k, e)];
      GroupedAfterPending(s.last, [Write(k, e)] + rest);
    }
  }

  /** One step of the machine keeps "sealed output + grouping of what is still pending" fixed. */
  lemma StepKeepsOutput(s: State, ev: Event, rest: seq<Event>)
    requires WellFormed(s.last)
    ensures WellFormed(Step(s, ev).last)
    ensures Step(s, ev).component + Grouped(Pending(Step(s, ev).last) + rest)
         == s.component + Grouped(Pending(s.last) + ([ev] + rest))
  {
    match ev
    case Embed(b) =>
      assert Pending(Step(s, ev).last) + rest == rest;
      EmbedKeepsOutput(s, b, rest);
    case Write(k, e) =>
      WriteKeepsOutput(s, k, e, rest);
  }

  /**
   * Generalised agreement of the machine with the grouping: from any
   * well-formed state, finishing after `t` gives the sealed output followed
   * by the grouping of the open entries and `t`.
   */
  lemma {:induction false} ReplayFromOutput(s: State, t: seq<Event>)
    requires WellFormed(s.last)
    ensures Output(ReplayFrom(s, t)) == s.component + Grouped(Pending(s.last) + t)
    decreases |t|
  {
    if t == [] {
      assert Pending(s.last) + t == Pending(s.last) + [];
      GroupedAfterPending(s.last, []);
    } else {
      StepKeepsOutput(s, t[0], t[1..]);
      ReplayFromOutput(Step(s, t[0]), t[1..]);
      assert [t[0]] + t[1..] == t;
    }
  }

  /**
   * What `finish` writes after the trace `t` is exactly the grouping of `t`
   * into maximal same-kind runs, with one section per embedded module.
   */
  lemma FinishMatchesGrouping(t: seq<Event>)
    ensures Output(Replay(t)) == Grouped(t)
  {
    ReplayFromOutput(State([], None), t);
    assert [] + t == t;
  }

  // ---------------------------------------------------------------------
  // Grouping loses nothing, reorders nothing and splits no run.
  // ---------------------------------------------------------------------

  /** The events a section stands for. */
  function Expand(sec: Section): seq<Event>
  {
    match sec
    case Batched(k, es) => Writes(k, es)
    case ModuleSection(b) => [Embed(b)]
  }

  /** The registrations a section sequence stands for, in order. */
  function Unbatch(secs: seq<Section>): seq<Event>
    decreases |secs|
  {
    if secs == [] then [] else Expand(secs[0]) + Unbatch(secs[1..])
  }

  /**
   * A section sequence with no empty batched section and no two neighbouring
   * batched sections of the same kind: nothing left to merge.
   */
  predicate Canonical(secs: seq<Section>)
    decreases |secs|
  {
    secs == [] ||
    ((secs[0].Batched? ==>
        secs[0].entries != [] &&
        (|secs| > 1 && secs[1].Batched? ==> secs[1].kind != secs[0].kind))
     && Canonical(secs[1..]))
  }

  /** Reading the grouped sections back gives the trace itself, in the same order. */
  lemma {:induction false} UnbatchGrouped(t: seq<Event>)
    ensures Unbatch(Grouped(t)) == t
    decreases |t|
  {
    if t != [] {
      var g := Grouped(t);
      match t[0]
      case Embed(b) =>
        UnbatchGrouped(t[1..]);
        assert g[1..] == Grouped(t[1..]);
        assert t == [Embed(b)] + t[1..];
      case Write(k, _) =>
        var n := RunLength(t, k);
        UnbatchGrouped(t[n..]);
        assert g == [Batched(k, Payloads(t[..n]))] + Grouped(t[n..]);
        assert g[1..] == Grouped(t[n..]);
        WritesOfPayloads(k, t[..n]);
        assert Unbatch(g) == t[..n] + t[n..];
        assert t[..n] + t[n..] == t;
    }
  }

  /** A run of writes of one kind is rebuilt from its entries. */
  lemma WritesOfPayloads(k: SectionKind, t: seq<Event>)
    requires forall i :: 0 <= i < |t| ==> (t[i].Write? && t[i].kind == k)
    ensures Writes(k, Payloads(t)) == t
  {
    assert forall i :: 0 <= i < |t| ==> Writes(k, Payloads(t))[i] == t[i];
  }

  /** The grouping never leaves an empty section or two mergeable neighbours. */
  lemma {:induction false} GroupedCanonical(t: seq<Event>)
    ensures Canonical(Grouped(t))
    decreases |t|
  {
    if t != [] {
      var g := Grouped(t);
      match t[0]
      case Embed(b) =>
        GroupedCanonical(t[1..]);
        assert g[1..] == Grouped(t[1..]);
      case Write(k, _) =>
        var n := RunLength(t, k);
        GroupedCanonical(t[n..]);
        assert g[1..] == Grouped(t[n..]);
        assert |g[0].entries| == n;
    }
  }

  /** Conversely, a canonical section sequence is the grouping of the registrations it stands for. */
  lemma {:induction false} GroupedUnbatch(secs: seq<Section>)
    requires Canonical(secs)
    ensures Grouped(Unbatch(secs)) == secs
    decreases |secs|
  {
    if secs != [] {
      var rest := Unbatch(secs[1..]);
      GroupedUnbatch(secs[1..]);
      if |secs| > 1 {
        assert secs[1..][1..] == secs[2..];
        assert rest == Expand(secs[1]) + Unbatch(secs[2..]);
        if secs[1].Batched? {
          assert rest[0] == Write(secs[1].kind, secs[1].entries[0]);
        }
      }
      match secs[0]
      case ModuleSection(b) =>
        assert ([Embed(b)] + rest)[1..] == rest;
      case Batched(k, es) =>
        GroupedAfterRun(k, es, rest);
    }
  }

  // ---------------------------------------------------------------------
  // The batching rules on small traces.
  // ---------------------------------------------------------------------

  /** Consecutive entries of one kind end up in a single section, in call order. */
  lemma CoalesceRun(k: SectionKind, es: seq<Entry>)
    requires es != []
    ensures Grouped(Writes(k, es)) == [Batched(k, es)]
  {
    assert Writes(k, es) + [] == Writes(k, es);
    GroupedAfterRun(k, es, []);
  }

  /** One entry of another kind between two runs of kind `k` splits them into two sections. */
  lemma KindChangeSplits(k: SectionKind, before: seq<Entry>, k': SectionKind, e: Entry, after: seq<Entry>)
    requires k != k' && before != [] && after != []
    ensures Grouped(Writes(k, before) + [Write(k', e)] + Writes(k, after))
         == [Batched(k, before), Batched(k', [e]), Batched(k, after)]
  {
    CoalesceRun(k, after);
    assert Writes(k', [e]) == [Write(k', e)];
    GroupedAfterRun(k', [e], Writes(k, after));
    assert Writes(k, before) + [Write(k', e)] + Writes(k, after)
        == Writes(k, before) + (Writes(k', [e]) + Writes(k, after));
    GroupedAfterRun(k, before, Writes(k', [e]) + Writes(k, after));
  }

  function Embeds(bs: seq<ModuleBody>): seq<Event>
  {
    seq(|bs|, i requires 0 <= i < |bs| => Embed(bs[i]))
  }

  /** Consecutive embedded modules never share a section: one section each, in order. */
  lemma {:induction false} ModulesIsolated(bs: seq<ModuleBody>)
    ensures |Grouped(Embeds(bs))| == |bs|
    ensures forall i :: 0 <= i < |bs| ==> Grouped(Embeds(bs))[i] == ModuleSection(bs[i])
    decreases |bs|
  {
    if bs != [] {
      assert Embeds(bs)[1..] == Embeds(bs[1..]);
      ModulesIsolated(bs[1..]);
    }
  }
}
