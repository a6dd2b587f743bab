/** The broker's tool tables (runtime/toolbroker/broker.go): one adapter's tools are replaced all at
    once, and a request names a tool by identity or by model name. */
module ToolCatalogue {
  /** `admissible` stands for the checks of identity, limits, schema and effect classification. */
  datatype Descriptor = Descriptor(
    id: string, name: string, capability: string, policy: string, adapter: string,
    timeout: int, outputLimit: int, admissible: bool)

  datatype Outcome = Replaced | Invalid | Duplicate | AlreadyRegistered | NotTheSame | IdTaken | NameTaken

  const DEFAULT_TIMEOUT := 30000
  const OUTPUT_LIMIT := 1048576

  function Normalized(d: Descriptor, adapter: string): Descriptor {
    d.(adapter := adapter,
       timeout := if d.timeout <= 0 then DEFAULT_TIMEOUT else d.timeout,
       outputLimit := if d.outputLimit <= 0 || d.outputLimit > OUTPUT_LIMIT then OUTPUT_LIMIT else d.outputLimit)
  }

  predicate Admitted(d: Descriptor) {
    d.admissible && d.capability != "" && d.id != "" && d.name != ""
  }

  ghost predicate DistinctIds(ds: seq<Descriptor>) {
    forall i, j | 0 <= i < j < |ds| :: ds[i].id != ds[j].id && ds[i].name != ds[j].name
  }

  /** The two tables are inverse to each other, and every tool belongs to a registered adapter. */
  ghost predicate Paired(tools: map<string, Descriptor>, names: map<string, string>) {
    && (forall id | id in tools :: tools[id].id == id && id != "" && tools[id].name in names && names[tools[id].name] == id)
    && (forall n | n in names :: names[n] in tools && tools[names[n]].name == n)
  }

  ghost function ToolsOf(tools: map<string, Descriptor>, adapter: string): set<Descriptor> {
    set id | id in tools && tools[id].adapter == adapter :: tools[id]
  }

  ghost function Others(tools: map<string, Descriptor>, adapter: string): map<string, Descriptor> {
    map id | id in tools && tools[id].adapter != adapter :: tools[id]
  }

  /** A request names a tool by identity first, then by model name. */
  function Resolve(tools: map<string, Descriptor>, names: map<string, string>, request: string): string {
    if request in tools then request
    else if request in names && names[request] in tools then names[request]
    else ""
  }

  /** A model name finds its own tool exactly when it is not the identity of another one: nothing
      keeps an adapter from choosing an identity that is another tool's name. */
  lemma NameResolvesExactly(tools: map<string, Descriptor>, names: map<string, string>, id: string)
    requires Paired(tools, names) && id in tools
    ensures Resolve(tools, names, tools[id].name) == id <==> tools[id].name !in tools || tools[id].name == id
    ensures Resolve(tools, names, id) == id
  {
  }

  class Catalogue {
    var tools: map<string, Descriptor>
    var names: map<string, string>
    /** The implementation behind each adapter identity. */
    var adapters: map<string, nat>

    ghost predicate Valid()
      reads this
    {
      Paired(tools, names) && forall id | id in tools :: tools[id].adapter in adapters
    }

    constructor ()
      ensures Valid() && tools == map[] && adapters == map[]
    {
      tools, names, adapters := map[], map[], map[];
    }

    /** The loop over the submitted descriptors. */
    method Validate(adapter: string, ds: seq<Descriptor>) returns (outcome: Outcome, validated: seq<Descriptor>)
      ensures outcome.Replaced? <==> (forall d | d in ds :: Admitted(d)) && DistinctIds(ds)
      ensures outcome.Replaced? || outcome.Invalid? || outcome.Duplicate?
      ensures outcome.Replaced? ==> |validated| == |ds| && forall i | 0 <= i < |ds| :: validated[i] == Normalized(ds[i], adapter)
    {
      validated := [];
      var seenIds: set<string>, seenNames: set<string> := {}, {};
      for i := 0 to |ds|
        invariant forall d | d in ds[..i] :: Admitted(d)
        invariant DistinctIds(ds[..i])
        invariant seenIds == set d | d in ds[..i] :: d.id
        invariant seenNames == set d | d in ds[..i] :: d.name
        invariant |validated| == i && forall k | 0 <= k < i :: validated[k] == Normalized(ds[k], adapter)
      {
        var d := ds[i];
        assert ds[..i + 1] == ds[..i] + [d];
        if !Admitted(d) { return Invalid, []; }
        if d.id in seenIds || d.name in seenNames {
          var k :| 0 <= k < i && (ds[k].id == d.id || ds[k].name == d.name);
          return Duplicate, [];
        }
        seenIds, seenNames := seenIds + {d.id}, seenNames + {d.name};
        validated := validated + [Normalized(d, adapter)];
      }
      assert ds[..|ds|] == ds;
      outcome := Replaced;
    }

    /** The loop that looks for tools of other adapters under the same identity or name. */
    method FindCollision(adapter: string, ds: seq<Descriptor>) returns (outcome: Outcome)
      requires Valid()
      ensures outcome.Replaced? <==> forall d | d in ds :: FreeFor(d, adapter)
      ensures outcome.Replaced? || outcome.IdTaken? || outcome.NameTaken?
    {
      for i := 0 to |ds|
        invariant forall d | d in ds[..i] :: FreeFor(d, adapter)
      {
        assert ds[..i + 1] == ds[..i] + [ds[i]];
        assert ds[i] in ds;
        if ds[i].id in tools && tools[ds[i].id].adapter != adapter { return IdTaken; }
        if ds[i].name in names && tools[names[ds[i].name]].adapter != adapter { return NameTaken; }
      }
      assert ds[..|ds|] == ds;
      return Replaced;
    }

    predicate FreeFor(d: Descriptor, adapter: string)
      reads this
      requires forall n | n in names :: names[n] in tools
    {
      && (d.id in tools ==> tools[d.id].adapter == adapter)
      && (d.name in names ==> tools[names[d.name]].adapter == adapter)
    }

    /** The loop that removes what the adapter had. */
    method DropTools(adapter: string)
      requires Valid()
      modifies this`tools, this`names
      ensures Valid() && tools == Others(old(tools), adapter)
      ensures forall n :: n in names <==> n in old(names) && old(tools)[old(names)[n]].adapter != adapter
      ensures forall n | n in names :: names[n] == old(names)[n]
    {
      var left := tools.Keys;
      while left != {}
        invariant left <= old(tools).Keys
        invariant forall id :: id in tools <==> id in old(tools) && (id in left || old(tools)[id].adapter != adapter)
        invariant forall id | id in tools :: tools[id] == old(tools)[id]
        invariant forall n :: n in names <==> n in old(names) && old(names)[n] in tools
        invariant forall n | n in names :: names[n] == old(names)[n]
        decreases left
      {
        var id :| id in left;
        left := left - {id};
        if tools[id].adapter == adapter {
          names := names - {tools[id].name};
          tools := tools - {id};
        }
      }
    }

    /** The loop that enters the new ones. */
    method InsertTools(adapter: string, ds: seq<Descriptor>)
      requires Valid() && adapter in adapters && DistinctIds(ds) && ToolsOf(tools, adapter) == {}
      requires Others(tools, adapter) == tools
      requires forall d | d in ds :: d.adapter == adapter && d.id != "" && d.id !in tools && d.name !in names
      modifies this`tools, this`names
      ensures Valid() && Others(tools, adapter) == old(tools) && ToolsOf(tools, adapter) == set d | d in ds
    {
      hide Paired, ToolsOf, Others;
      for i := 0 to |ds|
        invariant Valid() && Others(tools, adapter) == old(tools) && ToolsOf(tools, adapter) == set d | d in ds[..i]
        invariant forall k | i <= k < |ds| :: ds[k].id !in tools && ds[k].name !in names
      {
        assert ds[i] in ds && ds[..i + 1] == ds[..i] + [ds[i]];
        EnterOne(tools, names, ds[i], adapter);
        tools := tools[ds[i].id := ds[i]];
        names := names[ds[i].name := ds[i].id];
      }
      assert ds[..|ds|] == ds;
    }

    /** Replace one adapter's tools, or change nothing. `valid` stands for the checks of the adapter
        itself. */
    method ReplaceAdapterTools(adapter: string, implementation: nat, valid: bool, ds: seq<Descriptor>, replace: bool)
      returns (outcome: Outcome)
      requires Valid()
      modifies this
      ensures Valid()
      ensures !outcome.Replaced? ==> tools == old(tools) && names == old(names) && adapters == old(adapters)
      ensures outcome.Replaced? <==>
        && valid && (forall d | d in ds :: Admitted(d)) && DistinctIds(ds)
        && (adapter in old(adapters) ==> replace && old(adapters)[adapter] == implementation)
        && forall d | d in ds :: old(FreeFor(d, adapter))
      ensures outcome.Replaced? ==>
        && adapters == old(adapters)[adapter := implementation]
        && Others(tools, adapter) == Others(old(tools), adapter)
        && ToolsOf(tools, adapter) == set d | d in ds :: Normalized(d, adapter)
    {
      hide Paired, ToolsOf, Others, DistinctIds, FreeFor, Admitted, Normalized;
      var validated;
      outcome, validated := Inspect(adapter, implementation, valid, ds, replace);
      if outcome.Replaced? { Install(adapter, implementation, validated); }
    }

    /** The checks before the tables are changed. */
    method Inspect(adapter: string, implementation: nat, valid: bool, ds: seq<Descriptor>, replace: bool)
      returns (outcome: Outcome, validated: seq<Descriptor>)
      requires Valid()
      ensures forall n | n in names :: names[n] in tools
      ensures outcome.Replaced? <==>
        && valid && (forall d | d in ds :: Admitted(d)) && DistinctIds(ds)
        && (adapter in adapters ==> replace && adapters[adapter] == implementation)
        && forall d | d in ds :: FreeFor(d, adapter)
      ensures outcome.Replaced? ==>
        && DistinctIds(validated) && (set d | d in validated) == (set d | d in ds :: Normalized(d, adapter))
        && forall d | d in validated :: d.adapter == adapter && d.id != "" && FreeFor(d, adapter)
    {
      hide Paired, ToolsOf, Others, FreeFor;
      PairedTables(tools, names);
      if !valid { return Invalid, []; }
      outcome, validated := Validate(adapter, ds);
      if !outcome.Replaced? { return; }
      SameNames(ds, validated, adapter);
      if adapter in adapters && !replace { return AlreadyRegistered, []; }
      if adapter in adapters && adapters[adapter] != implementation { return NotTheSame, []; }
      outcome := FindCollision(adapter, validated);
      FreeAlike(ds, validated, adapter);
    }

    lemma FreeAlike(ds: seq<Descriptor>, validated: seq<Descriptor>, adapter: string)
      requires forall d | d in validated :: exists e | e in ds :: e.id == d.id && e.name == d.name
      requires forall e | e in ds :: exists d | d in validated :: e.id == d.id && e.name == d.name
      requires forall n | n in names :: names[n] in tools
      ensures (forall d | d in validated :: FreeFor(d, adapter)) <==> forall d | d in ds :: FreeFor(d, adapter)
    {
    }

    /** The section that changes the tables. */
    method Install(adapter: string, implementation: nat, validated: seq<Descriptor>)
      requires Valid() && DistinctIds(validated)
      requires forall n | n in names :: names[n] in tools
      requires forall d | d in validated :: d.adapter == adapter && d.id != "" && FreeFor(d, adapter)
      modifies this
      ensures Valid() && adapters == old(adapters)[adapter := implementation]
      ensures Others(tools, adapter) == Others(old(tools), adapter) && ToolsOf(tools, adapter) == set d | d in validated
    {
      hide Paired, ToolsOf, Others, DistinctIds;
      ghost var before := tools;
      ghost var namesBefore := names;
      if adapter in adapters { DropTools(adapter); }
      NothingLeft(before, namesBefore, tools, names, adapters, adapter);
      adapters := adapters[adapter := implementation];
      InsertTools(adapter, validated);
    }
  }

  /** Normalizing changes no identity, no name, and is one to one. */
  lemma SameNames(ds: seq<Descriptor>, validated: seq<Descriptor>, adapter: string)
    requires |validated| == |ds| && forall i | 0 <= i < |ds| :: validated[i] == Normalized(ds[i], adapter)
    requires DistinctIds(ds)
    ensures DistinctIds(validated)
    ensures forall d | d in validated :: d.adapter == adapter && exists e | e in ds :: e.id == d.id && e.name == d.name
    ensures forall e | e in ds :: exists d | d in validated :: e.id == d.id && e.name == d.name
    ensures (set d | d in validated) == set d | d in ds :: Normalized(d, adapter)
  {
    forall e | e in ds ensures Normalized(e, adapter) in validated {
      var i :| 0 <= i < |ds| && ds[i] == e;
      assert validated[i] == Normalized(e, adapter);
    }
    forall d | d in validated ensures exists e | e in ds :: d == Normalized(e, adapter) {
      var i :| 0 <= i < |validated| && validated[i] == d;
      assert ds[i] in ds;
    }
  }

  lemma PairedTables(tools: map<string, Descriptor>, names: map<string, string>)
    requires Paired(tools, names)
    ensures forall n | n in names :: names[n] in tools
    ensures forall id | id in tools :: tools[id].name in names && names[tools[id].name] == id
  {
  }

  /** After the adapter's tools are gone, whatever only it held is free. */
  lemma NothingLeft(before: map<string, Descriptor>, namesBefore: map<string, string>, after: map<string, Descriptor>,
                    names: map<string, string>, adapters: map<string, nat>, adapter: string)
    requires Paired(before, namesBefore) && forall id | id in before :: before[id].adapter in adapters
    requires after == if adapter in adapters then Others(before, adapter) else before
    requires adapter !in adapters ==> names == namesBefore
    requires adapter in adapters ==>
      forall n :: n in names <==> n in namesBefore && before[namesBefore[n]].adapter != adapter
    ensures after == Others(before, adapter) == Others(after, adapter) && ToolsOf(after, adapter) == {}
    ensures forall id | id in before && before[id].adapter == adapter :: id !in after
    ensures forall n | n in namesBefore && before[namesBefore[n]].adapter == adapter :: n !in names
    ensures forall id | id in after :: id in before
    ensures forall n | n in names :: n in namesBefore
  {
  }

  lemma EnterOne(tools: map<string, Descriptor>, names: map<string, string>, d: Descriptor, adapter: string)
    requires Paired(tools, names) && d.adapter == adapter && d.id != "" && d.id !in tools && d.name !in names
    ensures Paired(tools[d.id := d], names[d.name := d.id])
    ensures Others(tools[d.id := d], adapter) == Others(tools, adapter)
    ensures ToolsOf(tools[d.id := d], adapter) == ToolsOf(tools, adapter) + {d}
  {
    var after := tools[d.id := d];
    forall e ensures e in ToolsOf(after, adapter) <==> e in ToolsOf(tools, adapter) + {d} {
      if e in ToolsOf(tools, adapter) {
        var id :| id in tools && tools[id].adapter == adapter && tools[id] == e;
        assert after[id] == e;
      }
      if e == d { assert after[d.id] == e; }
    }
    assert Others(after, adapter) == Others(tools, adapter);
  }
}
