/** `es_create_index`: create the physical index `target_name` (by default the index name
    followed by the current unix time) with one document type per model the registry
    lists for `index_name`. */
module CreateIndex {
  import opened Py
  import opened Models
  import opened Tasks
  import opened Apps
  import opened Base

  /** The index the command creates: the given target, or `"{index}_{unix time}"`. */
  function TargetName(indexName: Value, target: Value, unixTime: int): (t: string)
    ensures !target.Null? ==> t == ToStr(target)
    ensures target.Null? ==> |t| > |ToStr(indexName)| && t[..|ToStr(indexName)|] == ToStr(indexName)
  {
    if target.Null? then
      var t := ToStr(indexName) + "_" + IntToString(unixTime);
      assert t[..|ToStr(indexName)|] == ToStr(indexName);
      t
    else ToStr(target)
  }

  /** A derived target is never the logical index name itself, and its suffix after the
      index name and "_" reads back as the unix time. */
  lemma DerivedTarget(indexName: Value, unixTime: int)
    ensures var t := TargetName(indexName, Null, unixTime);
            var n := |ToStr(indexName)|;
            && t != ToStr(indexName)
            && t[..n] == ToStr(indexName) && t[n] == '_'
            && ParseInt(t[n + 1..]) == Ok(unixTime)
  {
    Underscored(ToStr(indexName), IntToString(unixTime));
    IntRoundTrip(unixTime);
  }

  lemma Underscored(a: string, b: string)
    ensures var t := a + "_" + b;
            t != a && t[..|a|] == a && t[|a|] == '_' && t[|a| + 1..] == b
  {
    var t := a + "_" + b;
    assert |t| != |a|;
    assert t[|a| + 1..] == b;
  }

  /** The document type names registered on the new index, one per model, in order. */
  function DocTypeNames(models: seq<ModelClass>): (names: seq<string>)
    ensures |names| == |models|
    ensures forall i :: 0 <= i < |models| ==> names[i] == models[i].docType.name
  {
    seq(|models|, i requires 0 <= i < |models| => models[i].docType.name)
  }

  /** The end of `Command.run`: register one document type per model, in order, then
      create the target unless this is a dry run. */
  method CreateWithDocTypes(cmd: Command, cluster: Cluster, target: string, models: seq<ModelClass>)
    returns (o: Outcome)
    requires "dry_run" in cmd.attrs
    modifies cmd`out, cluster`indices
    ensures Truthy(cmd.attrs["dry_run"]) ==> o == Completed && cluster.indices == old(cluster.indices)
    ensures !Truthy(cmd.attrs["dry_run"]) && target in old(cluster.indices) ==>
              o == Raised(AlreadyExistsError) && cluster.indices == old(cluster.indices)
    ensures !Truthy(cmd.attrs["dry_run"]) && target !in old(cluster.indices) ==>
              o == Completed && cluster.indices == old(cluster.indices)[target := DocTypeNames(models)]
  {
    var registered: seq<string> := [];
    var i := 0;
    while i < |models|
      invariant 0 <= i <= |models| && |registered| == i
      invariant forall t :: 0 <= t < i ==> registered[t] == models[t].docType.name
      invariant cluster.indices == old(cluster.indices)
    {
      var name := models[i].docType.name;
      registered := registered + [name];
      cmd.PrintAt(Plain, "Add mapping " + name, 1);
      i := i + 1;
    }
    assert registered == DocTypeNames(models);
    if !Truthy(cmd.attrs["dry_run"]) {
      var created := cluster.CreateIndex(target, registered);
      if created.Err? {
        return Raised(created.error);
      }
    }
    cmd.PrintAt(Success, "New index created: '" + target + "'.", 1);
    return Completed;
  }

  /** `Command.run`: stop with status 1 when the registry lists no model for the index. */
  method Run(cmd: Command, cluster: Cluster, user: Option<Value>, modules: Modules, unixTime: int)
    returns (o: Outcome)
    requires "index_name" in cmd.attrs && "target_name" in cmd.attrs && "dry_run" in cmd.attrs
    modifies cmd`attrs, cmd`out, cmd`err, cluster`indices
    ensures var indexName := old(cmd.attrs["index_name"]);
            var models := IndexModels(user, modules, indexName);
            var target := TargetName(indexName, old(cmd.attrs["target_name"]), unixTime);
            && cmd.attrs == (if old(cmd.attrs["target_name"]).Null?
                             then old(cmd.attrs)["target_name" := Str(target)] else old(cmd.attrs))
            && (models.Err? ==> o == Raised(models.error) && cluster.indices == old(cluster.indices))
            && (models == Ok([]) ==>
                  o == Exited(1) && cluster.indices == old(cluster.indices)
                  && cmd.err == old(cmd.err) + [Line(Failure, "No models defined for index '" + ToStr(indexName) + "'.")])
            && (models.Ok? && models.value != [] ==>
                  && (Truthy(old(cmd.attrs["dry_run"])) ==> o == Completed && cluster.indices == old(cluster.indices))
                  && (!Truthy(old(cmd.attrs["dry_run"])) && target in old(cluster.indices) ==>
                        o == Raised(AlreadyExistsError) && cluster.indices == old(cluster.indices))
                  && (!Truthy(old(cmd.attrs["dry_run"])) && target !in old(cluster.indices) ==>
                        o == Completed && cluster.indices == old(cluster.indices)[target := DocTypeNames(models.value)]))
  {
    var indexName := cmd.attrs["index_name"];
    cmd.PrintAt(Info, "Creating index '" + ToStr(indexName) + "'.", 1);
    var target := TargetName(indexName, cmd.attrs["target_name"], unixTime);
    if cmd.attrs["target_name"].Null? {
      cmd.attrs := cmd.attrs["target_name" := Str(target)];
    }
    var models := GetIndexModels(user, modules, indexName);
    if models.Err? {
      return Raised(models.error);
    }
    if |models.value| == 0 {
      cmd.PrintError("No models defined for index '" + ToStr(indexName) + "'.");
      return Exited(1);
    }
    o := CreateWithDocTypes(cmd, cluster, target, models.value);
  }

  /** `handle` for this command: `parse_options`, then `run`, with an escaping exception
      turned into exit status 1. */
  method Handle(cmd: Command, options: Entries, cluster: Cluster, user: Option<Value>, modules: Modules,
                unixTime: int)
    returns (o: Outcome)
    requires cmd.requiredOptions == ["index_name"]
    requires DistinctKeys(options)
    requires HasKey(options, "index_name") && HasKey(options, "target_name") && HasKey(options, "dry_run")
    modifies cmd, cluster`indices
    ensures !o.Raised?
    ensures !IsSet(options, "index_name") ==>
              o == Exited(1) && cluster.indices == old(cluster.indices)
              && cmd.err == old(cmd.err) + [Line(Failure, RequiredMessage("index_name"))]
  {
    o := cmd.ParseOptions(options);
    if o == Completed {
      WithOptionsGet(old(cmd.attrs), options, "index_name");
      WithOptionsGet(old(cmd.attrs), options, "target_name");
      WithOptionsGet(old(cmd.attrs), options, "dry_run");
      o := Run(cmd, cluster, user, modules, unixTime);
    }
    o := cmd.Conclude(o);
  }
}
