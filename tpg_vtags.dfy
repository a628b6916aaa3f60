/** The equipment builder of `lib/tpg_create_vtags.py` (`TpgEquipmentApp`):
    how the configured CISS nodes and their sensors become the ordered tag
    list of a ThingsPro equipment, how an existing equipment is found, and
    whether the result is added or updated. */
module TpgVtags {
  import opened Values

  // ---------------------------------------------------------------------
  // Configuration and equipment

  /** One entry of a node's `sensors`: its key (`sid`) and the fields the
      builder reads. */
  datatype SensorConf = SensorConf(sid: string, name: string, enabled: bool, enableStatistics: bool)

  /** One entry of `ciss_nodes`: the node name and its sensors, in
      dictionary order. */
  datatype NodeConf = NodeConf(name: string, sensors: seq<SensorConf>)

  /** One entry of `equipmentTags`. */
  datatype Tag = Tag(name: string, dataType: string, access: string, size: nat, description: string)

  /** The `vtags` dictionary: `equipmentName`, the optional `id` key and
      `equipmentTags`. */
  datatype Equipment = Equipment(equipmentName: Value, id: Option<Value>, equipmentTags: seq<Tag>)

  /** Python truthiness of a configuration value. */
  predicate Truthy(v: Value)
  {
    match v
    case Null => false
    case Num(n) => n != 0
    case Text(s) => s != ""
  }

  /** What `TpgEquipmentApp` keeps: the API token, the equipment name and
      the node configuration. The fields are set once and never changed. */
  datatype TpgEquipmentApp = TpgEquipmentApp(mxApiToken: Value, equipmentName: Value, nodes: seq<NodeConf>)

  /** `TpgEquipmentApp.__init__`: the token, the equipment name and the node
      table must all be truthy, checked in that order; `None` stands for a
      missing `nodes` argument. */
  function NewTpgEquipmentApp(token: Value, equname: Value, nodes: Option<seq<NodeConf>>): (r: Result<TpgEquipmentApp>)
    ensures r.Ok? <==> Truthy(token) && Truthy(equname) && nodes.Some? && nodes.value != []
    ensures r.Ok? ==> r.value == TpgEquipmentApp(token, equname, nodes.value)
    ensures !Truthy(token) ==> r == Err(AppBaseError("Missing MX API Token"))
    ensures Truthy(token) && !Truthy(equname) ==> r == Err(AppBaseError("Missing Equipment Name"))
    ensures Truthy(token) && Truthy(equname) && (nodes.None? || nodes.value == []) ==>
      r == Err(AppBaseError("Missing Node Tag information"))
  {
    if !Truthy(token) then Err(AppBaseError("Missing MX API Token"))
    else if !Truthy(equname) then Err(AppBaseError("Missing Equipment Name"))
    else if nodes.None? || nodes.value == [] then Err(AppBaseError("Missing Node Tag information"))
    else Ok(TpgEquipmentApp(token, equname, nodes.value))
  }

  // ---------------------------------------------------------------------
  // Tag names

  /** `tpg_publish_tag_name(node_name, sensor_name, which)`. */
  function PublishTagName(nodeName: string, sensorName: string, which: string): string
  {
    nodeName + "-" + sensorName + "-" + which
  }

  /** The position of the first `-` in `t` at or after `from`, or `|t|`. */
  function NextDash(t: string, from: nat): (i: nat)
    requires from <= |t|
    ensures from <= i <= |t|
    ensures forall k :: from <= k < i ==> t[k] != '-'
    ensures i < |t| ==> t[i] == '-'
    decreases |t| - from
  {
    if from == |t| then |t| else if t[from] == '-' then from else NextDash(t, from + 1)
  }

  /** A string split at its first dash. */
  function SplitDash(t: string): Option<(string, string)>
  {
    var i := NextDash(t, 0);
    if i == |t| then None else Some((t[..i], t[i + 1..]))
  }

  /** A tag name split at its first two dashes. */
  function SplitTagName(t: string): Option<(string, string, string)>
  {
    match SplitDash(t)
    case None => None
    case Some((a, rest)) =>
      match SplitDash(rest)
      case None => None
      case Some((b, c)) => Some((a, b, c))
  }

  /** The first dash at or after `from` is the one right after a dash-free
      stretch. */
  lemma {:induction false} NextDashAfter(t: string, from: nat, i: nat)
    requires from <= i < |t| && t[i] == '-'
    requires forall k :: from <= k < i ==> t[k] != '-'
    ensures NextDash(t, from) == i
    decreases i - from
  {
    if from < i {
      NextDashAfter(t, from + 1, i);
    }
  }

  /** A dash-free prefix is split off at the dash after it. */
  lemma SplitDashJoin(a: string, rest: string)
    requires '-' !in a
    ensures SplitDash(a + "-" + rest) == Some((a, rest))
  {
    var t := a + "-" + rest;
    assert forall k :: 0 <= k < |a| ==> t[k] == a[k];
    NextDashAfter(t, 0, |a|);
    assert t[..|a|] == a && t[|a| + 1..] == rest;
  }

  /** Node and sensor names without a dash can be read back from a tag
      name. */
  lemma TagNameRoundTrip(nodeName: string, sensorName: string, which: string)
    requires '-' !in nodeName && '-' !in sensorName
    ensures SplitTagName(PublishTagName(nodeName, sensorName, which)) == Some((nodeName, sensorName, which))
  {
    var rest := sensorName + "-" + which;
    assert PublishTagName(nodeName, sensorName, which) == nodeName + "-" + rest;
    SplitDashJoin(nodeName, rest);
    SplitDashJoin(sensorName, which);
  }

  /** Among dash-free node and sensor names, distinct triples get distinct
      tag names. */
  lemma TagNameInjective(n1: string, s1: string, w1: string, n2: string, s2: string, w2: string)
    requires '-' !in n1 && '-' !in s1 && '-' !in n2 && '-' !in s2
    requires PublishTagName(n1, s1, w1) == PublishTagName(n2, s2, w2)
    ensures n1 == n2 && s1 == s2 && w1 == w2
  {
    TagNameRoundTrip(n1, s1, w1);
    TagNameRoundTrip(n2, s2, w2);
  }

  /** With a dash inside a node name two different nodes can publish the
      same tag name. */
  lemma TagNameAmbiguous()
    ensures PublishTagName("a-b", "c", "current") == PublishTagName("a", "b-c", "current")
  {
  }

  // ---------------------------------------------------------------------
  // The tag list

  /** The statistics a sensor publishes. */
  function StatList(enableStatistics: bool): seq<string>
  {
    if enableStatistics then ["current", "min", "max", "mean", "std"] else ["current"]
  }

  /** The tag dictionary the builder appends. */
  function NewTag(name: string): Tag
  {
    Tag(name, "uint32", "rw", 4, "n/a")
  }

  /** The tags `tpg_build_new_equ_tag` appends for the statistics `whats`
      of one sensor name: one per statistic, in order, except those whose
      name is excluded. */
  function TagsFor(nodeName: string, sensorName: string, whats: seq<string>, exclude: seq<string>): seq<Tag>
    decreases |whats|
  {
    if whats == [] then []
    else
      var name := PublishTagName(nodeName, sensorName, whats[|whats| - 1]);
      TagsFor(nodeName, sensorName, whats[..|whats| - 1], exclude) + (if name in exclude then [] else [NewTag(name)])
  }

  /** The axis sensors, which also publish one tag set per axis. */
  predicate IsAxisSensor(sid: string)
  {
    sid == "Accl" || sid == "Gyro" || sid == "Magn"
  }

  /** The names a sensor publishes under: its own, then `_x`, `_y`, `_z`
      for an axis sensor. */
  function SensorTagNames(s: SensorConf): seq<string>
  {
    [s.name] + if IsAxisSensor(s.sid) then AxisNames(s.name) else []
  }

  function AxisNames(name: string): seq<string>
  {
    [name + "_x", name + "_y", name + "_z"]
  }

  /** Concatenating `f(x)` for the elements of `xs` in order. */
  function ConcatMap<A, B>(f: A -> seq<B>, xs: seq<A>): seq<B>
    decreases |xs|
  {
    if xs == [] then [] else ConcatMap(f, xs[..|xs| - 1]) + f(xs[|xs| - 1])
  }

  /** The tags of each name of a sensor, as a function of the name. */
  function NameTags(nodeName: string, enableStatistics: bool, exclude: seq<string>): string -> seq<Tag>
  {
    (nm: string) => TagsFor(nodeName, nm, StatList(enableStatistics), exclude)
  }

  /** The tags of one sensor: none when it is disabled, otherwise the tags
      of each of its names in turn. */
  function SensorTags(nodeName: string, s: SensorConf, exclude: seq<string>): seq<Tag>
  {
    if !s.enabled then [] else ConcatMap(NameTags(nodeName, s.enableStatistics, exclude), SensorTagNames(s))
  }

  /** The tags of each sensor of a node, as a function of the sensor. */
  function SensorTagsOf(nodeName: string, exclude: seq<string>): SensorConf -> seq<Tag>
  {
    (s: SensorConf) => SensorTags(nodeName, s, exclude)
  }

  /** The tags of one node: its sensors' tags in order. */
  function NodeTags(node: NodeConf, exclude: seq<string>): seq<Tag>
  {
    ConcatMap(SensorTagsOf(node.name, exclude), node.sensors)
  }

  /** The tags of each node, as a function of the node. */
  function NodeTagsOf(exclude: seq<string>): NodeConf -> seq<Tag>
  {
    (node: NodeConf) => NodeTags(node, exclude)
  }

  /** The `equipmentTags` list `tpg_build_new_equipment` builds: the nodes'
      tags in order. */
  function EquipmentTags(nodes: seq<NodeConf>, exclude: seq<string>): seq<Tag>
  {
    ConcatMap(NodeTagsOf(exclude), nodes)
  }

  lemma ConcatMapSnoc<A, B>(f: A -> seq<B>, xs: seq<A>, x: A)
    ensures ConcatMap(f, xs + [x]) == ConcatMap(f, xs) + f(x)
  {
    assert (xs + [x])[..|xs|] == xs;
  }

  lemma {:induction false} ConcatMapCons<A, B>(f: A -> seq<B>, x: A, xs: seq<A>)
    ensures ConcatMap(f, [x] + xs) == f(x) + ConcatMap(f, xs)
    decreases |xs|
  {
    if xs == [] {
      assert ([x] + xs)[..0] == [] && [x] + xs == [x];
    } else {
      var init, last := xs[..|xs| - 1], xs[|xs| - 1];
      assert ([x] + xs)[..|xs|] == [x] + init && ([x] + xs)[|xs|] == last;
      calc {
        ConcatMap(f, [x] + xs);
        ConcatMap(f, [x] + init) + f(last);
        { ConcatMapCons(f, x, init); }
        f(x) + ConcatMap(f, init) + f(last);
        f(x) + ConcatMap(f, xs);
      }
    }
  }

  /** An element is in the concatenation exactly when it comes from one of
      the parts. */
  lemma {:induction false} ConcatMapMembership<A, B>(f: A -> seq<B>, xs: seq<A>, y: B)
    ensures y in ConcatMap(f, xs) <==> exists i :: 0 <= i < |xs| && y in f(xs[i])
    decreases |xs|
  {
    if xs != [] {
      var init := xs[..|xs| - 1];
      ConcatMapMembership(f, init, y);
      if y in ConcatMap(f, xs) && y !in f(xs[|xs| - 1]) {
        var i :| 0 <= i < |init| && y in f(init[i]);
        assert xs[i] == init[i];
      }
      if exists i :: 0 <= i < |xs| && y in f(xs[i]) {
        var i :| 0 <= i < |xs| && y in f(xs[i]);
        if i < |init| {
          assert init[i] == xs[i];
        }
      }
    }
  }

  /** A tag is published for a statistic exactly when its name is not
      excluded, and every tag carries the fixed type, access, size and
      description. */
  lemma {:induction false} TagsForMembership(nodeName: string, sensorName: string, whats: seq<string>,
                                             exclude: seq<string>, t: Tag)
    ensures t in TagsFor(nodeName, sensorName, whats, exclude) <==>
      && t == NewTag(t.name) && t.name !in exclude
      && exists k :: 0 <= k < |whats| && t.name == PublishTagName(nodeName, sensorName, whats[k])
    decreases |whats|
  {
    if whats != [] {
      var init, last := whats[..|whats| - 1], whats[|whats| - 1];
      TagsForMembership(nodeName, sensorName, init, exclude, t);
      if exists k :: 0 <= k < |whats| && t.name == PublishTagName(nodeName, sensorName, whats[k]) {
        var k :| 0 <= k < |whats| && t.name == PublishTagName(nodeName, sensorName, whats[k]);
        if k < |init| {
          assert init[k] == whats[k];
        }
      }
      if exists k :: 0 <= k < |init| && t.name == PublishTagName(nodeName, sensorName, init[k]) {
        var k :| 0 <= k < |init| && t.name == PublishTagName(nodeName, sensorName, init[k]);
        assert whats[k] == init[k];
      }
    }
  }

  /** With nothing excluded, a sensor name publishes one tag per statistic,
      in the order of the statistics. */
  lemma {:induction false} TagsForAll(nodeName: string, sensorName: string, whats: seq<string>)
    ensures |TagsFor(nodeName, sensorName, whats, [])| == |whats|
    ensures forall k :: 0 <= k < |whats| ==>
      TagsFor(nodeName, sensorName, whats, [])[k] == NewTag(PublishTagName(nodeName, sensorName, whats[k]))
    decreases |whats|
  {
    if whats != [] {
      var init := whats[..|whats| - 1];
      TagsForAll(nodeName, sensorName, init);
      forall k | 0 <= k < |init|
        ensures whats[k] == init[k]
      {
      }
    }
  }

  /** An enabled axis sensor publishes its own tags followed by the tags
      of its `_x`, `_y` and `_z` axes. */
  lemma AxisSensorTags(nodeName: string, s: SensorConf, exclude: seq<string>)
    requires s.enabled && IsAxisSensor(s.sid)
    ensures var whats := StatList(s.enableStatistics);
      SensorTags(nodeName, s, exclude) ==
        TagsFor(nodeName, s.name, whats, exclude) + TagsFor(nodeName, s.name + "_x", whats, exclude)
        + TagsFor(nodeName, s.name + "_y", whats, exclude) + TagsFor(nodeName, s.name + "_z", whats, exclude)
  {
    var f := NameTags(nodeName, s.enableStatistics, exclude);
    var names := SensorTagNames(s);
    assert names == [s.name, s.name + "_x", s.name + "_y", s.name + "_z"];
    assert names[..1] == [] + [names[0]];
    ConcatMapSnoc(f, [], names[0]);
    assert names[..2] == names[..1] + [names[1]];
    ConcatMapSnoc(f, names[..1], names[1]);
    assert names[..3] == names[..2] + [names[2]];
    ConcatMapSnoc(f, names[..2], names[2]);
    assert names == names[..3] + [names[3]];
    ConcatMapSnoc(f, names[..3], names[3]);
    calc {
      SensorTags(nodeName, s, exclude);
      ConcatMap(f, names);
      ConcatMap(f, names[..3]) + f(names[3]);
      ConcatMap(f, names[..2]) + f(names[2]) + f(names[3]);
      ConcatMap(f, names[..1]) + f(names[1]) + f(names[2]) + f(names[3]);
      { assert ConcatMap(f, names[..1]) == [] + f(names[0]) == f(names[0]); }
      f(names[0]) + f(names[1]) + f(names[2]) + f(names[3]);
    }
  }

  /** A tag ends up in the equipment exactly when some enabled sensor of
      some node publishes it under one of its names, for one of its
      statistics, and its name is not excluded. */
  lemma EquipmentTagsMembership(nodes: seq<NodeConf>, exclude: seq<string>, t: Tag)
    ensures t in EquipmentTags(nodes, exclude) <==>
      exists i, j, n :: 0 <= i < |nodes| && 0 <= j < |nodes[i].sensors| && 0 <= n < |SensorTagNames(nodes[i].sensors[j])|
        && nodes[i].sensors[j].enabled
        && t in TagsFor(nodes[i].name, SensorTagNames(nodes[i].sensors[j])[n],
                        StatList(nodes[i].sensors[j].enableStatistics), exclude)
  {
    ConcatMapMembership(NodeTagsOf(exclude), nodes, t);
    forall i | 0 <= i < |nodes|
      ensures t in NodeTags(nodes[i], exclude) <==>
        exists j, n :: 0 <= j < |nodes[i].sensors| && 0 <= n < |SensorTagNames(nodes[i].sensors[j])|
          && nodes[i].sensors[j].enabled
          && t in TagsFor(nodes[i].name, SensorTagNames(nodes[i].sensors[j])[n],
                          StatList(nodes[i].sensors[j].enableStatistics), exclude)
    {
      var node := nodes[i];
      ConcatMapMembership(SensorTagsOf(node.name, exclude), node.sensors, t);
      forall j | 0 <= j < |node.sensors| && node.sensors[j].enabled
        ensures t in SensorTags(node.name, node.sensors[j], exclude) <==>
          exists n :: 0 <= n < |SensorTagNames(node.sensors[j])|
            && t in TagsFor(node.name, SensorTagNames(node.sensors[j])[n], StatList(node.sensors[j].enableStatistics), exclude)
      {
        var s := node.sensors[j];
        ConcatMapMembership(NameTags(node.name, s.enableStatistics, exclude), SensorTagNames(s), t);
      }
    }
  }

  /** No excluded name is ever published, and every published tag is a
      `uint32`, read-write, four-byte tag. */
  lemma NoExcludedTag(nodes: seq<NodeConf>, exclude: seq<string>, t: Tag)
    requires t in EquipmentTags(nodes, exclude)
    ensures t.name !in exclude && t == NewTag(t.name)
  {
    EquipmentTagsMembership(nodes, exclude, t);
    var i, j, n :| 0 <= i < |nodes| && 0 <= j < |nodes[i].sensors| && 0 <= n < |SensorTagNames(nodes[i].sensors[j])|
      && nodes[i].sensors[j].enabled
      && t in TagsFor(nodes[i].name, SensorTagNames(nodes[i].sensors[j])[n],
                      StatList(nodes[i].sensors[j].enableStatistics), exclude);
    TagsForMembership(nodes[i].name, SensorTagNames(nodes[i].sensors[j])[n],
                      StatList(nodes[i].sensors[j].enableStatistics), exclude, t);
  }

  // ---------------------------------------------------------------------
  // The builder

  /** `tpg_build_new_equ_tag(vtags, sensor, node_name, sensor_name,
      excludeTags)`: append a tag for each statistic of the sensor whose
      name is not excluded. */
  method BuildNewEquTag(vtags: Equipment, sensor: SensorConf, nodeName: string, sensorName: string,
                        excludeTags: seq<string>) returns (out: Equipment, r: bool)
    ensures r
    ensures out == vtags.(equipmentTags := vtags.equipmentTags
                          + TagsFor(nodeName, sensorName, StatList(sensor.enableStatistics), excludeTags))
  {
    var valueList := StatList(sensor.enableStatistics);
    out := vtags;
    var k := 0;
    while k < |valueList|
      invariant 0 <= k <= |valueList|
      invariant out == vtags.(equipmentTags := vtags.equipmentTags + TagsFor(nodeName, sensorName, valueList[..k], excludeTags))
    {
      var tagName := PublishTagName(nodeName, sensorName, valueList[k]);
      assert valueList[..k + 1][..k] == valueList[..k];
      if tagName !in excludeTags {
        out := out.(equipmentTags := out.equipmentTags + [NewTag(tagName)]);
      }
      k := k + 1;
    }
    assert valueList[..k] == valueList;
    r := true;
  }

  /** The tags of one enabled sensor, as the builder appends them: its own
      name, then for an axis sensor the three axis names in turn. */
  method BuildSensorTags(vtags: Equipment, sensor: SensorConf, nodeName: string, excludeTags: seq<string>)
    returns (out: Equipment)
    requires sensor.enabled
    ensures out == vtags.(equipmentTags := vtags.equipmentTags + SensorTags(nodeName, sensor, excludeTags))
  {
    var f := NameTags(nodeName, sensor.enableStatistics, excludeTags);
    SensorTagsSplit(nodeName, sensor, excludeTags);
    var done;
    out, done := BuildNewEquTag(vtags, sensor, nodeName, sensor.name, excludeTags);
    if IsAxisSensor(sensor.sid) {
      ghost var acc := out.equipmentTags;
      var axes := AxisNames(sensor.name);
      var k := 0;
      while k < |axes|
        invariant 0 <= k <= |axes|
        invariant out == vtags.(equipmentTags := out.equipmentTags)
        invariant out.equipmentTags == acc + ConcatMap(f, axes[..k])
      {
        out, done := BuildNewEquTag(out, sensor, nodeName, axes[k], excludeTags);
        assert axes[..k + 1] == axes[..k] + [axes[k]];
        ConcatMapSnoc(f, axes[..k], axes[k]);
        AppendAssoc(acc, ConcatMap(f, axes[..k]), f(axes[k]));
        k := k + 1;
      }
      assert axes[..k] == axes;
      AppendAssoc(vtags.equipmentTags, f(sensor.name), ConcatMap(f, axes));
    } else {
      assert f(sensor.name) + [] == f(sensor.name);
    }
  }

  /** An enabled sensor's tags: those of its own name, then those of its
      axes if it has any. */
  lemma SensorTagsSplit(nodeName: string, s: SensorConf, exclude: seq<string>)
    requires s.enabled
    ensures var f := NameTags(nodeName, s.enableStatistics, exclude);
      SensorTags(nodeName, s, exclude) == f(s.name) + if IsAxisSensor(s.sid) then ConcatMap(f, AxisNames(s.name)) else []
  {
    var f := NameTags(nodeName, s.enableStatistics, exclude);
    if IsAxisSensor(s.sid) {
      ConcatMapCons(f, s.name, AxisNames(s.name));
    } else {
      ConcatMapCons(f, s.name, []);
      assert SensorTagNames(s) == [s.name] + [];
    }
  }

  /** The sensor loop of `tpg_build_new_equipment` for one node: disabled
      sensors are skipped, every other one appends its tags. */
  method BuildNodeTags(vtags: Equipment, node: NodeConf, excludeTags: seq<string>) returns (out: Equipment)
    ensures out == vtags.(equipmentTags := vtags.equipmentTags + NodeTags(node, excludeTags))
  {
    var f := SensorTagsOf(node.name, excludeTags);
    out := vtags;
    var j := 0;
    while j < |node.sensors|
      invariant 0 <= j <= |node.sensors|
      invariant out == vtags.(equipmentTags := out.equipmentTags)
      invariant out.equipmentTags == vtags.equipmentTags + ConcatMap(f, node.sensors[..j])
    {
      var sensor := node.sensors[j];
      ConcatMapSnoc(f, node.sensors[..j], sensor);
      assert node.sensors[..j + 1] == node.sensors[..j] + [sensor];
      AppendAssoc(vtags.equipmentTags, ConcatMap(f, node.sensors[..j]), f(sensor));
      if sensor.enabled {
        out := BuildSensorTags(out, sensor, node.name, excludeTags);
      }
      j := j + 1;
    }
    assert node.sensors[..j] == node.sensors;
  }

  /** `tpg_build_new_equipment(equipmentName, ciss_nodes, equid,
      excludeTags)`: the equipment named `equipmentName`, with an `id` key
      exactly when `equid` is not `None`, and the tags of every enabled
      sensor of every node, in configuration order. */
  method BuildNewEquipment(equipmentName: Value, cissNodes: seq<NodeConf>, equid: Value, excludeTags: seq<string>)
    returns (vtags: Equipment)
    ensures vtags.equipmentName == equipmentName
    ensures vtags.id == if equid != Null then Some(equid) else None
    ensures vtags.equipmentTags == EquipmentTags(cissNodes, excludeTags)
  {
    var f := NodeTagsOf(excludeTags);
    vtags := Equipment(equipmentName, None, []);
    if equid != Null {
      vtags := vtags.(id := Some(equid));
    }
    ghost var start := vtags;
    var i := 0;
    while i < |cissNodes|
      invariant 0 <= i <= |cissNodes|
      invariant vtags == start.(equipmentTags := vtags.equipmentTags)
      invariant vtags.equipmentTags == ConcatMap(f, cissNodes[..i])
    {
      var node := cissNodes[i];
      ConcatMapSnoc(f, cissNodes[..i], node);
      assert cissNodes[..i + 1] == cissNodes[..i] + [node];
      vtags := BuildNodeTags(vtags, node, excludeTags);
      i := i + 1;
    }
    assert cissNodes[..i] == cissNodes;
  }

  // ---------------------------------------------------------------------
  // Finding and writing the equipment

  /** A configured equipment entry with the given name. */
  predicate NamedEquipment(entry: Record, equipmentName: Value)
  {
    "equipmentName" in entry && entry["equipmentName"] == equipmentName
  }

  /** `tpg_equipment_exists(current_config, equipmentName)`: the first entry
      of the list that carries the name; `None` when nothing matches or the
      configuration is not a list (`None` here). */
  method TpgEquipmentExists(currentConfig: Option<seq<Record>>, equipmentName: Value) returns (r: Option<Record>)
    ensures r.None? <==> (currentConfig.None? ||
      forall i :: 0 <= i < |currentConfig.value| ==> !NamedEquipment(currentConfig.value[i], equipmentName))
    ensures r.Some? ==> (currentConfig.Some? &&
      exists i :: 0 <= i < |currentConfig.value| && currentConfig.value[i] == r.value
        && NamedEquipment(r.value, equipmentName)
        && forall j :: 0 <= j < i ==> !NamedEquipment(currentConfig.value[j], equipmentName))
  {
    if currentConfig.None? {
      return None;
    }
    var entries := currentConfig.value;
    var i := 0;
    while i < |entries|
      invariant 0 <= i <= |entries|
      invariant forall j :: 0 <= j < i ==> !NamedEquipment(entries[j], equipmentName)
    {
      if "equipmentName" in entries[i] && entries[i]["equipmentName"] == equipmentName {
        return Some(entries[i]);
      }
      i := i + 1;
    }
    return None;
  }

  /** The REST call `tpg_write_new_equipment` makes. */
  datatype RestCall = AddEquipment(data: Equipment) | UpdateEquipment(equId: Value, data: Equipment)

  /** `tpg_write_new_equipment(data)`: an update of the equipment's `id`
      when it has one that is not `None`, otherwise an add. */
  function WriteCall(data: Equipment): (c: RestCall)
    ensures c.data == data
    ensures c.UpdateEquipment? <==> data.id.Some? && data.id.value != Null
    ensures c.UpdateEquipment? ==> c.equId == data.id.value
  {
    if data.id.Some? && data.id.value != Null then UpdateEquipment(data.id.value, data) else AddEquipment(data)
  }

  /** `tpg_create_equipment(curEqu)`: rebuild the equipment, keeping the id
      of the entry found (`None` when none was), and write it. `status` is
      the HTTP status the call answers with; the write succeeds on 200. */
  method TpgCreateEquipment(app: TpgEquipmentApp, curEqu: Option<Record>, status: int) returns (call: RestCall, ok: bool)
    ensures ok <==> status == 200
    ensures call.data.equipmentName == app.equipmentName
    ensures call.data.equipmentTags == EquipmentTags(app.nodes, [])
    ensures call.UpdateEquipment? <==> curEqu.Some? && "id" in curEqu.value && curEqu.value["id"] != Null
    ensures call.UpdateEquipment? ==> call.equId == curEqu.value["id"]
  {
    var equid := Null;
    if curEqu.Some? && "id" in curEqu.value {
      equid := curEqu.value["id"];
    }
    var newEqu := BuildNewEquipment(app.equipmentName, app.nodes, equid, []);
    call := WriteCall(newEqu);
    ok := status == 200;
  }

  /** `tpg_check_equipment()`: the query answers with `status` and, on 200,
      with `body` (`None` when it is not a list); the equipment of the
      app's name, if any. */
  method TpgCheckEquipment(app: TpgEquipmentApp, status: int, body: Option<seq<Record>>) returns (r: Option<Record>)
    ensures status != 200 ==> r.None?
    ensures status == 200 ==> (r.None? <==> (body.None? ||
      forall i :: 0 <= i < |body.value| ==> !NamedEquipment(body.value[i], app.equipmentName)))
    ensures r.Some? ==> status == 200 && body.Some?
    ensures r.Some? ==>
      exists i :: 0 <= i < |body.value| && body.value[i] == r.value
        && NamedEquipment(r.value, app.equipmentName)
        && forall j :: 0 <= j < i ==> !NamedEquipment(body.value[j], app.equipmentName)
  {
    if status != 200 {
      return None;
    }
    r := TpgEquipmentExists(body, app.equipmentName);
  }
}
