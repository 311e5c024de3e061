/**
 The state of generator.py: the module-level dictionary `args` that
 `add_parameter` fills, the output directory that receives one
 `<key>.json` file per call, and the module body's fixed sequence of calls.
 */
module Generator {

  import opened Wrappers
  import opened Index

  /**
   One run of the generator. `args` is the index under construction;
   `files` stands for the output directory, mapping each file name to the
   schema object serialised into it.
   */
  class Builder<A> {
    var args: map<string, Record>
    var files: map<string, A>

    /** Every record points at its own `<key>.json`, and that file has been written. */
    ghost predicate Valid()
      reads this
    {
      forall k :: k in args ==> args[k].fn == k + ".json" && args[k].fn in files
    }

    /**
     `args = {}`. The output directory is created if absent and otherwise kept
     as it is, so it starts out holding the `existing` files.
     */
    constructor (existing: map<string, A>)
      ensures Valid()
      ensures args == map[] && files == existing
    {
      args := map[];
      files := existing;
    }

    /**
     `add_parameter`: writes `argument` to `<key>.json`, then stores the index
     record under `key`, replacing any earlier record for it. `raised` is the
     `KeyError` of a malformed example; the file has been written by then but
     `args` is left as it was.
     */
    method AddParameter(key: string, name: string, argument: A, version: string,
                        repo: string, examples: Option<seq<InputExample>>)
      returns (raised: Option<Error>)
      requires Valid()
      modifies this
      ensures Valid()
      ensures files == old(files)[key + ".json" := argument]
      ensures raised.None? <==> IndexRecord(key, name, version, repo, examples).Ok?
      ensures raised.None? ==> args == old(args)[key := IndexRecord(key, name, version, repo, examples).value]
      ensures raised.Some? ==> raised.value == IndexRecord(key, name, version, repo, examples).error
                               && args == old(args)
    {
      var fn := key + ".json";
      files := files[fn := argument];
      var display := DisplayName(name, version);
      var links: Option<seq<ExampleLink>> := None;
      if examples.Some? {
        var built := BuildExamples(repo, version, examples.value);
        if built.Err? {
          return Some(built.error);
        }
        links := Some(built.value);
      }
      args := args[key := Record(display, fn, links)];
      return None;
    }
  }

  /** The examples that the module body lists for the DeePMD-kit entry: nine, each with a `name` and a `file`. */
  function DeepmdExamples(): (xs: seq<InputExample>)
    ensures |xs| == 9
    ensures forall i :: 0 <= i < |xs| ==> HasFields(xs[i])
  {
    [ map["name" := "Water se_e2_a", "file" := "examples/water/se_e2_a/input.json"],
      map["name" := "Water se_e2_r", "file" := "examples/water/se_e2_r/input.json"],
      map["name" := "Water se_e2_a_tebd", "file" := "examples/water/se_e2_a_tebd/input.json"],
      map["name" := "Water se_e3", "file" := "examples/water/se_e3/input.json"],
      map["name" := "Water hybrid", "file" := "examples/water/hybrid/input.json"],
      map["name" := "Water tensor polar", "file" := "examples/water_tensor/polar/polar_input.json"],
      map["name" := "Water tensor dipole", "file" := "examples/water_tensor/dipole/dipole_input.json"],
      map["name" := "Frame parameter", "file" := "examples/fparam/train/input.json"],
      map["name" := "Atomic parameter", "file" := "examples/fparam/train/input_aparam.json"] ]
  }

  /**
   The module body's calls of `add_parameter`, in order, as entries: five of
   them, under pairwise distinct keys, and only the first with examples.
   */
  function ModuleEntries<A>(deepmdVersion: string, dpgenVersion: string, dispatcherVersion: string,
                            deepmdSchema: A, dpgenSchema: A, machineSchema: A,
                            resourcesSchema: A, taskSchema: A): (es: seq<Entry<A>>)
    ensures |es| == 5
    ensures forall i, j :: 0 <= i < j < |es| ==> es[i].key != es[j].key
    ensures forall i :: 0 <= i < |es| ==> (es[i].examples.Some? <==> i == 0)
  {
    [ Entry("deepmd-kit", "DeePMD-kit", deepmdSchema, deepmdVersion,
            "deepmodeling/deepmd-kit", Some(DeepmdExamples())),
      Entry("dpgen", "DP-GEN Machine", dpgenSchema, dpgenVersion,
            "deepmodeling/dpgen", None),
      Entry("dpdispatcher-machine", "DPDispatcher Machine", machineSchema, dispatcherVersion,
            "deepmodeling/dpdispatcher", None),
      Entry("dpdispatcher-resources", "DPDispatcher Resources", resourcesSchema, dispatcherVersion,
            "deepmodeling/dpdispatcher", None),
      Entry("dpdispatcher-task", "DPDispatcher Task", taskSchema, dispatcherVersion,
            "deepmodeling/dpdispatcher", None) ]
  }

  lemma ModuleEntriesSucceed<A>(es: seq<Entry<A>>, deepmdVersion: string, dpgenVersion: string,
                                 dispatcherVersion: string, deepmdSchema: A, dpgenSchema: A,
                                 machineSchema: A, resourcesSchema: A, taskSchema: A)
    requires es == ModuleEntries(deepmdVersion, dpgenVersion, dispatcherVersion, deepmdSchema,
                                 dpgenSchema, machineSchema, resourcesSchema, taskSchema)
    ensures |es| == 5
    ensures forall i :: 0 <= i < 5 ==> EntryRecord(es[i]).Ok?
  {
    ExampleLinksElements("deepmodeling/deepmd-kit", deepmdVersion, DeepmdExamples());
  }

  lemma FoldFive<A>(m: map<string, Record>, es: seq<Entry<A>>)
    requires |es| == 5
    requires forall i :: 0 <= i < 5 ==> EntryRecord(es[i]).Ok?
    ensures Fold(m, es)
         == Ok(m[es[0].key := EntryRecord(es[0]).value]
                [es[1].key := EntryRecord(es[1]).value]
                [es[2].key := EntryRecord(es[2]).value]
                [es[3].key := EntryRecord(es[3]).value]
                [es[4].key := EntryRecord(es[4]).value])
  {
    var m1 := m[es[0].key := EntryRecord(es[0]).value];
    var m2 := m1[es[1].key := EntryRecord(es[1]).value];
    var m3 := m2[es[2].key := EntryRecord(es[2]).value];
    var m4 := m3[es[3].key := EntryRecord(es[3]).value];
    var m5 := m4[es[4].key := EntryRecord(es[4]).value];
    var t1 := es[1..];
    var t2 := t1[1..];
    var t3 := t2[1..];
    var t4 := t3[1..];
    var t5 := t4[1..];
    assert t1[0] == es[1] && t2[0] == es[2] && t3[0] == es[3] && t4[0] == es[4] && t5 == [];
    assert Fold(m4, t4) == Fold(m5, t5) == Ok(m5);
    assert Fold(m3, t3) == Fold(m4, t4);
    assert Fold(m2, t2) == Fold(m3, t3);
    assert Fold(m1, t1) == Fold(m2, t2);
    assert Fold(m, es) == Fold(m1, t1);
  }

  /** After the module body, `args` holds exactly the five keys, each record's `fn` is `<key>.json`, and only the DeePMD-kit record carries examples. */
  lemma ModuleIndexKeys<A>(deepmdVersion: string, dpgenVersion: string, dispatcherVersion: string,
                            deepmdSchema: A, dpgenSchema: A, machineSchema: A,
                            resourcesSchema: A, taskSchema: A)
    ensures var r := Fold(map[], ModuleEntries(deepmdVersion, dpgenVersion, dispatcherVersion, deepmdSchema,
                                               dpgenSchema, machineSchema, resourcesSchema, taskSchema));
      && r.Ok?
      && r.value.Keys == {"deepmd-kit", "dpgen", "dpdispatcher-machine",
                          "dpdispatcher-resources", "dpdispatcher-task"}
      && (forall k :: k in r.value ==> r.value[k].fn == k + ".json")
      && (forall k :: k in r.value ==> (r.value[k].examples.Some? <==> k == "deepmd-kit"))
  {
    var es := ModuleEntries(deepmdVersion, dpgenVersion, dispatcherVersion, deepmdSchema,
                            dpgenSchema, machineSchema, resourcesSchema, taskSchema);
    ModuleEntriesSucceed(es, deepmdVersion, dpgenVersion, dispatcherVersion, deepmdSchema,
                         dpgenSchema, machineSchema, resourcesSchema, taskSchema);
    FoldFive(map[], es);
  }

  /** After the module body, each record is named after its package and that package's version. */
  lemma ModuleIndexNames<A>(deepmdVersion: string, dpgenVersion: string, dispatcherVersion: string,
                            deepmdSchema: A, dpgenSchema: A, machineSchema: A,
                            resourcesSchema: A, taskSchema: A)
    ensures var r := Fold(map[], ModuleEntries(deepmdVersion, dpgenVersion, dispatcherVersion, deepmdSchema,
                                               dpgenSchema, machineSchema, resourcesSchema, taskSchema));
      && r.Ok?
      && "deepmd-kit" in r.value && r.value["deepmd-kit"].name == "DeePMD-kit" + " v" + deepmdVersion
      && "dpgen" in r.value && r.value["dpgen"].name == "DP-GEN Machine" + " v" + dpgenVersion
      && "dpdispatcher-machine" in r.value
      && r.value["dpdispatcher-machine"].name == "DPDispatcher Machine" + " v" + dispatcherVersion
      && "dpdispatcher-resources" in r.value
      && r.value["dpdispatcher-resources"].name == "DPDispatcher Resources" + " v" + dispatcherVersion
      && "dpdispatcher-task" in r.value
      && r.value["dpdispatcher-task"].name == "DPDispatcher Task" + " v" + dispatcherVersion
  {
    var es := ModuleEntries(deepmdVersion, dpgenVersion, dispatcherVersion, deepmdSchema,
                            dpgenSchema, machineSchema, resourcesSchema, taskSchema);
    ModuleEntriesSucceed(es, deepmdVersion, dpgenVersion, dispatcherVersion, deepmdSchema,
                         dpgenSchema, machineSchema, resourcesSchema, taskSchema);
    FoldFive(map[], es);
  }

  /** After the module body, the DeePMD-kit record lists its nine examples in order, each with its name and the CDN link of its file. */
  lemma ModuleIndexExamples<A>(deepmdVersion: string, dpgenVersion: string, dispatcherVersion: string,
                            deepmdSchema: A, dpgenSchema: A, machineSchema: A,
                            resourcesSchema: A, taskSchema: A)
    ensures var r := Fold(map[], ModuleEntries(deepmdVersion, dpgenVersion, dispatcherVersion, deepmdSchema,
                                               dpgenSchema, machineSchema, resourcesSchema, taskSchema));
      var xs := DeepmdExamples();
      && r.Ok?
      && "deepmd-kit" in r.value && r.value["deepmd-kit"].examples.Some?
      && |r.value["deepmd-kit"].examples.value| == 9
      && forall i :: 0 <= i < 9 ==>
           HasFields(xs[i]) &&
           r.value["deepmd-kit"].examples.value[i]
             == ExampleLink(xs[i]["name"], JsdelivrUrl("deepmodeling/deepmd-kit", deepmdVersion, xs[i]["file"]))
  {
    ExampleLinksElements("deepmodeling/deepmd-kit", deepmdVersion, DeepmdExamples());
    var es := ModuleEntries(deepmdVersion, dpgenVersion, dispatcherVersion, deepmdSchema,
                            dpgenSchema, machineSchema, resourcesSchema, taskSchema);
    ModuleEntriesSucceed(es, deepmdVersion, dpgenVersion, dispatcherVersion, deepmdSchema,
                         dpgenSchema, machineSchema, resourcesSchema, taskSchema);
    FoldFive(map[], es);
  }

  /**
   The module body: the five calls of `add_parameter` on a fresh generator
   whose output directory already holds `existing`. The versions and schema
   objects are what the external packages supply. Returns the final `args`
   and output directory: the index is the fold of the five entries, each
   schema object sits in its `<key>.json`, and every other file present
   before the run is still there.
   */
  method Generate<A>(deepmdVersion: string, dpgenVersion: string, dispatcherVersion: string,
                     deepmdSchema: A, dpgenSchema: A, machineSchema: A,
                     resourcesSchema: A, taskSchema: A, existing: map<string, A>)
    returns (index: map<string, Record>, files: map<string, A>)
    ensures Fold(map[], ModuleEntries(deepmdVersion, dpgenVersion, dispatcherVersion, deepmdSchema,
                                      dpgenSchema, machineSchema, resourcesSchema, taskSchema)) == Ok(index)
    ensures forall k :: k in index ==> index[k].fn in files
    ensures files == existing["deepmd-kit" + ".json" := deepmdSchema]
                             ["dpgen" + ".json" := dpgenSchema]
                             ["dpdispatcher-machine" + ".json" := machineSchema]
                             ["dpdispatcher-resources" + ".json" := resourcesSchema]
                             ["dpdispatcher-task" + ".json" := taskSchema]
  {
    ghost var es := ModuleEntries(deepmdVersion, dpgenVersion, dispatcherVersion, deepmdSchema,
                                  dpgenSchema, machineSchema, resourcesSchema, taskSchema);
    ModuleEntriesSucceed(es, deepmdVersion, dpgenVersion, dispatcherVersion, deepmdSchema,
                         dpgenSchema, machineSchema, resourcesSchema, taskSchema);
    FoldFive(map[], es);
    var g := new Builder<A>(existing);
    var _ := g.AddParameter("deepmd-kit", "DeePMD-kit", deepmdSchema, deepmdVersion,
                            "deepmodeling/deepmd-kit", Some(DeepmdExamples()));
    var _ := g.AddParameter("dpgen", "DP-GEN Machine", dpgenSchema, dpgenVersion,
                            "deepmodeling/dpgen", None);
    var _ := g.AddParameter("dpdispatcher-machine", "DPDispatcher Machine", machineSchema,
                            dispatcherVersion, "deepmodeling/dpdispatcher", None);
    var _ := g.AddParameter("dpdispatcher-resources", "DPDispatcher Resources", resourcesSchema,
                            dispatcherVersion, "deepmodeling/dpdispatcher", None);
    var _ := g.AddParameter("dpdispatcher-task", "DPDispatcher Task", taskSchema,
                            dispatcherVersion, "deepmodeling/dpdispatcher", None);
    index, files := g.args, g.files;
  }
}
