/**
 * The MySQL Cluster provisioning script, reduced to its bookkeeping: how the
 * launched instances are named, how their records are split into manager and
 * workers, what the management node's `config.ini` says, and how each
 * provisioning step is sent and its status checked.
 *
 * EC2 and SSM calls are outside the model: the launched instances are an
 * input, and `check_command_status` is an oracle giving a status string.
 */
module Cluster {
  import opened Wrappers
  import opened Seqs
  import opened Text

  /** A launched instance after `load()`: the attributes the script records. */
  datatype Instance = Instance(id: string, publicDns: string, publicIp: string)

  /** One entry of `instance_data`, as dumped to the cluster details file. */
  datatype InstanceRecord = InstanceRecord(name: string, instanceId: string, publicDns: string, publicIp: string)

  const WorkerCount: nat := 3
  const WorkerTag: string := "worker"
  const ManagerName: string := "manager"

  // ----- Naming -----

  /** The name tag of the i-th launched instance, counting from 1. */
  function InstanceName(i: nat): string
    requires i >= 1
  {
    if i <= WorkerCount then WorkerTag + Decimal(i) else ManagerName
  }

  /** The partition test of the script: `'worker' in data['Name']`. */
  predicate IsWorkerName(name: string) {
    Contains(name, WorkerTag)
  }

  predicate IsWorkerRecord(r: InstanceRecord) {
    IsWorkerName(r.name)
  }

  /** The first three instances are named as workers, every later one `manager`. */
  lemma InstanceNameRule(i: nat)
    requires i >= 1
    ensures IsWorkerName(InstanceName(i)) <==> i <= WorkerCount
    ensures InstanceName(i) == ManagerName <==> i > WorkerCount
  {
    if i <= WorkerCount {
      assert OccursAt(InstanceName(i), WorkerTag, 0);
      assert InstanceName(i)[0] == 'w';
    } else {
      forall k | 0 <= k <= |ManagerName| - |WorkerTag|
        ensures !OccursAt(ManagerName, WorkerTag, k)
      {
        assert ManagerName[k..k + |WorkerTag|][0] == ManagerName[k] != 'w';
      }
    }
  }

  /** `instance_data`: one record per instance, in launch order. */
  function InstanceData(instances: seq<Instance>): seq<InstanceRecord> {
    seq(|instances|, k requires 0 <= k < |instances| =>
      InstanceRecord(InstanceName(k + 1), instances[k].id, instances[k].publicDns, instances[k].publicIp))
  }

  /** The `enumerate(instances, start=1)` loop that tags each instance and appends its record. */
  method BuildInstanceData(instances: seq<Instance>) returns (instanceData: seq<InstanceRecord>)
    ensures instanceData == InstanceData(instances)
  {
    instanceData := [];
    var i := 1;
    while i <= |instances|
      invariant 1 <= i <= |instances| + 1
      invariant instanceData == InstanceData(instances[..i - 1])
    {
      var instance := instances[i - 1];
      var instanceName := if i <= 3 then "worker" + Decimal(i) else "manager";
      instanceData := instanceData + [InstanceRecord(instanceName, instance.id, instance.publicDns, instance.publicIp)];
      i := i + 1;
    }
    assert instances[..i - 1] == instances;
  }

  /**
   * The k-th record carries the k-th instance's id, DNS name and IP; it is a
   * worker exactly when k < 3 and is named manager otherwise; with fewer
   * than four instances no record is named manager.
   */
  lemma LaunchOrderNaming(instances: seq<Instance>)
    ensures var data := InstanceData(instances);
      && |data| == |instances|
      && (forall k :: 0 <= k < |data| ==>
            data[k].instanceId == instances[k].id && data[k].publicDns == instances[k].publicDns &&
            data[k].publicIp == instances[k].publicIp)
      && (forall k :: 0 <= k < |data| ==> (IsWorkerRecord(data[k]) <==> k < WorkerCount))
      && (forall k :: 0 <= k < |data| ==> (data[k].name == ManagerName <==> k >= WorkerCount))
      && (|instances| <= WorkerCount ==> forall k :: 0 <= k < |data| ==> data[k].name != ManagerName)
  {
    var data := InstanceData(instances);
    forall k | 0 <= k < |data|
      ensures (IsWorkerRecord(data[k]) <==> k < WorkerCount) && (data[k].name == ManagerName <==> k >= WorkerCount)
    {
      InstanceNameRule(k + 1);
    }
  }

  // ----- Manager / worker partition -----

  /** The ids of the records, in order. */
  function Ids(rs: seq<InstanceRecord>): (ids: seq<string>)
    ensures |ids| == |rs|
  {
    if rs == [] then [] else Ids(rs[..|rs| - 1]) + [rs[|rs| - 1].instanceId]
  }

  /** The public DNS names of the records, in order. */
  function DnsNames(rs: seq<InstanceRecord>): (names: seq<string>)
    ensures |names| == |rs|
  {
    if rs == [] then [] else DnsNames(rs[..|rs| - 1]) + [rs[|rs| - 1].publicDns]
  }

  /** Entry k of each list comes from record k. */
  lemma {:induction false} ListsAt(rs: seq<InstanceRecord>)
    ensures forall k :: 0 <= k < |rs| ==> Ids(rs)[k] == rs[k].instanceId && DnsNames(rs)[k] == rs[k].publicDns
  {
    if rs != [] {
      var front := rs[..|rs| - 1];
      ListsAt(front);
      assert forall k :: 0 <= k < |front| ==> front[k] == rs[k];
    }
  }

  lemma ListsSnoc(rs: seq<InstanceRecord>, r: InstanceRecord)
    ensures Ids(rs + [r]) == Ids(rs) + [r.instanceId]
    ensures DnsNames(rs + [r]) == DnsNames(rs) + [r.publicDns]
  {
    assert (rs + [r])[..|rs|] == rs;
  }

  /** The five lists the partition loop builds. */
  datatype Partition = Partition(
    allInstanceIds: seq<string>,
    workerInstancesIds: seq<string>,
    managerInstanceId: seq<string>,
    workersDns: seq<string>,
    managerDns: seq<string>)

  function PartitionOf(data: seq<InstanceRecord>): Partition {
    var workers := Select(data, IsWorkerRecord, true);
    var managers := Select(data, IsWorkerRecord, false);
    Partition(Ids(data), Ids(workers), Ids(managers), DnsNames(workers), DnsNames(managers))
  }

  /** One more worker record: its id joins `all_instance_ids` and the worker lists; the manager lists stay. */
  lemma PartitionSnocWorker(data: seq<InstanceRecord>, r: InstanceRecord)
    requires IsWorkerRecord(r)
    ensures var p, q := PartitionOf(data), PartitionOf(data + [r]);
      && q.allInstanceIds == p.allInstanceIds + [r.instanceId]
      && q.workerInstancesIds == p.workerInstancesIds + [r.instanceId] && q.workersDns == p.workersDns + [r.publicDns]
      && q.managerInstanceId == p.managerInstanceId && q.managerDns == p.managerDns
  {
    SelectSnoc(data, r, IsWorkerRecord, true);
    SelectSnoc(data, r, IsWorkerRecord, false);
    ListsSnoc(data, r);
    ListsSnoc(Select(data, IsWorkerRecord, true), r);
    assert Select(data + [r], IsWorkerRecord, false) == Select(data, IsWorkerRecord, false);
  }

  /** One more manager record: its id joins `all_instance_ids` and the manager lists; the worker lists stay. */
  lemma PartitionSnocManager(data: seq<InstanceRecord>, r: InstanceRecord)
    requires !IsWorkerRecord(r)
    ensures var p, q := PartitionOf(data), PartitionOf(data + [r]);
      && q.allInstanceIds == p.allInstanceIds + [r.instanceId]
      && q.workerInstancesIds == p.workerInstancesIds && q.workersDns == p.workersDns
      && q.managerInstanceId == p.managerInstanceId + [r.instanceId] && q.managerDns == p.managerDns + [r.publicDns]
  {
    SelectSnoc(data, r, IsWorkerRecord, true);
    SelectSnoc(data, r, IsWorkerRecord, false);
    ListsSnoc(data, r);
    ListsSnoc(Select(data, IsWorkerRecord, false), r);
    assert Select(data + [r], IsWorkerRecord, true) == Select(data, IsWorkerRecord, true);
  }

  /** The loop over `instance_data` that appends each id, and sends the record to the worker or the manager lists. */
  method SplitInstances(instanceData: seq<InstanceRecord>) returns (p: Partition)
    ensures p == PartitionOf(instanceData)
  {
    var allInstanceIds, workerInstancesIds, managerInstanceId, workersDns, managerDns := [], [], [], [], [];
    var i := 0;
    while i < |instanceData|
      invariant 0 <= i <= |instanceData|
      invariant allInstanceIds == PartitionOf(instanceData[..i]).allInstanceIds
      invariant workerInstancesIds == PartitionOf(instanceData[..i]).workerInstancesIds
      invariant workersDns == PartitionOf(instanceData[..i]).workersDns
      invariant managerInstanceId == PartitionOf(instanceData[..i]).managerInstanceId
      invariant managerDns == PartitionOf(instanceData[..i]).managerDns
    {
      var data := instanceData[i];
      assert instanceData[..i + 1] == instanceData[..i] + [data];
      allInstanceIds := allInstanceIds + [data.instanceId];
      if Contains(data.name, "worker") {
        PartitionSnocWorker(instanceData[..i], data);
        workerInstancesIds := workerInstancesIds + [data.instanceId];
        workersDns := workersDns + [data.publicDns];
      } else {
        PartitionSnocManager(instanceData[..i], data);
        managerInstanceId := managerInstanceId + [data.instanceId];
        managerDns := managerDns + [data.publicDns];
      }
      i := i + 1;
    }
    assert instanceData[..i] == instanceData;
    p := Partition(allInstanceIds, workerInstancesIds, managerInstanceId, workersDns, managerDns);
  }

  function IdOf(r: InstanceRecord): string {
    r.instanceId
  }

  lemma IdsApply(rs: seq<InstanceRecord>)
    ensures Ids(rs) == Apply(rs, IdOf)
  {
    assert forall k :: 0 <= k < |rs| ==> Ids(rs)[k] == Apply(rs, IdOf)[k];
  }

  /** The worker ids and the manager ids together are exactly `all_instance_ids`, as a multiset. */
  lemma PartitionCoversAllIds(data: seq<InstanceRecord>)
    ensures multiset(Ids(Select(data, IsWorkerRecord, true))) + multiset(Ids(Select(data, IsWorkerRecord, false))) == multiset(Ids(data))
  {
    SelectApplyPartition(data, IsWorkerRecord, IdOf);
    IdsApply(Select(data, IsWorkerRecord, true));
    IdsApply(Select(data, IsWorkerRecord, false));
    IdsApply(data);
  }

  /**
   * Each id list and its DNS list have the same length and order: the k-th
   * entries of both come from the same record, and those records appear in
   * `instance_data` order.
   */
  lemma PartitionListsAlign(data: seq<InstanceRecord>, keep: bool)
    ensures var part := Select(data, IsWorkerRecord, keep); var pos := Positions(data, IsWorkerRecord, keep);
      && |Ids(part)| == |DnsNames(part)| == |pos|
      && (forall k :: 0 <= k < |pos| ==>
            IsWorkerRecord(data[pos[k]]) == keep &&
            Ids(part)[k] == data[pos[k]].instanceId && DnsNames(part)[k] == data[pos[k]].publicDns)
      && (forall j, k :: 0 <= j < k < |pos| ==> pos[j] < pos[k])
  {
    PositionsMatchSelect(data, IsWorkerRecord, keep);
    PositionsSound(data, IsWorkerRecord, keep);
    PositionsIncreasing(data, IsWorkerRecord, keep);
    ListsAt(Select(data, IsWorkerRecord, keep));
  }

  /**
   * Under the naming rule the first three launched instances are the
   * workers and the rest the manager(s), in launch order.
   */
  lemma PartitionFollowsLaunchOrder(instances: seq<Instance>)
    ensures var data := InstanceData(instances);
      var n := if |instances| < WorkerCount then |instances| else WorkerCount;
      && Select(data, IsWorkerRecord, true) == data[..n]
      && Select(data, IsWorkerRecord, false) == data[n..]
  {
    var data := InstanceData(instances);
    var n := if |instances| < WorkerCount then |instances| else WorkerCount;
    LaunchOrderNaming(instances);
    SelectKeepsPrefix(data, IsWorkerRecord, n);
    SelectDropsSuffix(data, IsWorkerRecord, n);
  }

  /** With the four instances the script launches: three workers and one manager, in launch order. */
  lemma FourInstancePartition(instances: seq<Instance>)
    requires |instances| == 4
    ensures var p := PartitionOf(InstanceData(instances));
      && p.workerInstancesIds == [instances[0].id, instances[1].id, instances[2].id]
      && p.workersDns == [instances[0].publicDns, instances[1].publicDns, instances[2].publicDns]
      && p.managerInstanceId == [instances[3].id]
      && p.managerDns == [instances[3].publicDns]
  {
    var data := InstanceData(instances);
    PartitionFollowsLaunchOrder(instances);
    ListsAt(data[..3]);
    ListsAt(data[3..]);
  }

  // ----- config.ini -----

  datatype Setting = Hostname(host: string) | NodeId(id: nat) | NoOfReplicas(count: nat) | DataDir(path: string)

  /** One `[kind]` section of `config.ini` with its settings in file order. */
  datatype Section = Section(kind: string, settings: seq<Setting>)

  const NdbDataDir: string := "/opt/mysqlcluster/deploy/ndb_data"
  const FirstDataNodeId: nat := 3
  const MysqldNodeId: nat := 50

  /**
   * The sections the manager steps write to `config.ini`. Building the step
   * list indexes `manager_dns[0]` and `workers_dns[0..2]`, so with fewer
   * hosts it raises IndexError (None here).
   */
  function ConfigIni(managerDns: seq<string>, workersDns: seq<string>): (r: Option<seq<Section>>)
    ensures r.Some? <==> |managerDns| >= 1 && |workersDns| >= 3
  {
    if |managerDns| < 1 || |workersDns| < 3 then None
    else Some([
      Section("ndb_mgmd", [Hostname(managerDns[0])]),
      Section("ndbd default", [NoOfReplicas(3), DataDir(NdbDataDir)]),
      DataNodeSection(workersDns[0], FirstDataNodeId),
      DataNodeSection(workersDns[1], FirstDataNodeId + 1),
      DataNodeSection(workersDns[2], FirstDataNodeId + 2),
      Section("mysqld", [NodeId(MysqldNodeId)])])
  }

  /** An `[ndbd]` section: a data node's host and node id. */
  function DataNodeSection(host: string, id: nat): Section {
    Section("ndbd", [Hostname(host), NodeId(id)])
  }

  function SettingLine(s: Setting): string {
    match s
    case Hostname(h) => "hostname=" + h
    case NodeId(n) => "nodeid=" + Decimal(n)
    case NoOfReplicas(n) => "noofreplicas=" + Decimal(n)
    case DataDir(p) => "datadir=" + p
  }

  function SettingLines(ss: seq<Setting>): seq<string> {
    if ss == [] then [] else [SettingLine(ss[0])] + SettingLines(ss[1..])
  }

  function SectionText(section: Section): seq<string> {
    ["[" + section.kind + "]"] + SettingLines(section.settings)
  }

  /** The lines of the file, one `echo ... >> config.ini` each, appended section after section. */
  function Render(sections: seq<Section>): seq<string> {
    if sections == [] then [] else Render(sections[..|sections| - 1]) + SectionText(sections[|sections| - 1])
  }

  lemma RenderSnoc(rest: seq<Section>, section: Section)
    ensures Render(rest + [section]) == Render(rest) + SectionText(section)
  {
    assert (rest + [section])[..|rest|] == rest;
  }

  lemma SectionTextOne(kind: string, a: Setting)
    ensures SectionText(Section(kind, [a])) == ["[" + kind + "]", SettingLine(a)]
  {
    assert [a][1..] == [];
    assert SettingLines([a]) == [SettingLine(a)];
  }

  lemma SectionTextTwo(kind: string, a: Setting, b: Setting)
    ensures SectionText(Section(kind, [a, b])) == ["[" + kind + "]", SettingLine(a), SettingLine(b)]
  {
    assert [a, b][1..] == [b];
    assert [b][1..] == [];
    assert SettingLines([b]) == [SettingLine(b)];
    assert SettingLines([a, b]) == [SettingLine(a), SettingLine(b)];
  }

  lemma NodeIdTexts()
    ensures SettingLine(NodeId(3)) == "nodeid=3" && SettingLine(NodeId(4)) == "nodeid=4"
    ensures SettingLine(NodeId(5)) == "nodeid=5" && SettingLine(NodeId(50)) == "nodeid=50"
  {
    assert Decimal(3) == "3";
    assert Decimal(4) == "4";
    assert Decimal(5) == "5";
    assert Decimal(50) == "50";
  }

  lemma ReplicasText()
    ensures SettingLine(NoOfReplicas(3)) == "noofreplicas=3"
  {
    assert Decimal(3) == "3";
  }

  /**
   * The lines the sixteen `echo` commands carry, section by section and in
   * order; the file holds them when `truncate` and every `echo` step succeed.
   */
  lemma ConfigIniText(managerDns: seq<string>, workersDns: seq<string>)
    requires |managerDns| >= 1 && |workersDns| >= 3
    ensures Render(ConfigIni(managerDns, workersDns).value) ==
      ["[ndb_mgmd]", "hostname=" + managerDns[0]] +
      ["[ndbd default]", "noofreplicas=3", "datadir=" + NdbDataDir] +
      ["[ndbd]", "hostname=" + workersDns[0], "nodeid=3"] +
      ["[ndbd]", "hostname=" + workersDns[1], "nodeid=4"] +
      ["[ndbd]", "hostname=" + workersDns[2], "nodeid=5"] +
      ["[mysqld]", "nodeid=50"]
  {
    var s0 := Section("ndb_mgmd", [Hostname(managerDns[0])]);
    var s1 := Section("ndbd default", [NoOfReplicas(3), DataDir(NdbDataDir)]);
    var s2 := Section("ndbd", [Hostname(workersDns[0]), NodeId(3)]);
    var s3 := Section("ndbd", [Hostname(workersDns[1]), NodeId(4)]);
    var s4 := Section("ndbd", [Hostname(workersDns[2]), NodeId(5)]);
    var s5 := Section("mysqld", [NodeId(50)]);
    var r1 := [s0];
    var r2 := r1 + [s1];
    var r3 := r2 + [s2];
    var r4 := r3 + [s3];
    var r5 := r4 + [s4];
    var r6 := r5 + [s5];
    assert r6 == [s0, s1, s2, s3, s4, s5];
    assert ConfigIni(managerDns, workersDns).value == r6;
    NodeIdTexts();
    ReplicasText();
    assert "[" + s0.kind + "]" == "[ndb_mgmd]";
    assert "[" + s1.kind + "]" == "[ndbd default]";
    assert "[" + s2.kind + "]" == "[ndbd]";
    assert "[" + s5.kind + "]" == "[mysqld]";
    RenderSnoc([], s0);
    assert [] + [s0] == r1;
    SectionTextOne(s0.kind, Hostname(managerDns[0]));
    RenderSnoc(r1, s1);
    SectionTextTwo(s1.kind, NoOfReplicas(3), DataDir(NdbDataDir));
    RenderSnoc(r2, s2);
    SectionTextTwo(s2.kind, Hostname(workersDns[0]), NodeId(3));
    RenderSnoc(r3, s3);
    SectionTextTwo(s3.kind, Hostname(workersDns[1]), NodeId(4));
    RenderSnoc(r4, s4);
    SectionTextTwo(s4.kind, Hostname(workersDns[2]), NodeId(5));
    RenderSnoc(r5, s5);
    SectionTextOne(s5.kind, NodeId(50));
  }

  function HostOf(ss: seq<Setting>): Option<string> {
    if ss == [] then None else if ss[0].Hostname? then Some(ss[0].host) else HostOf(ss[1..])
  }

  function NodeIdOf(ss: seq<Setting>): Option<nat> {
    if ss == [] then None else if ss[0].NodeId? then Some(ss[0].id) else NodeIdOf(ss[1..])
  }

  /** The hostname of the first `[ndb_mgmd]` section. */
  function ManagementHost(sections: seq<Section>): Option<string> {
    if sections == [] then None
    else if sections[0].kind == "ndb_mgmd" then HostOf(sections[0].settings)
    else ManagementHost(sections[1..])
  }

  /** The node id of the first `[ndbd]` section for the given host. */
  function DataNodeId(sections: seq<Section>, host: string): Option<nat> {
    if sections == [] then None
    else if sections[0].kind == "ndbd" && HostOf(sections[0].settings) == Some(host) then NodeIdOf(sections[0].settings)
    else DataNodeId(sections[1..], host)
  }

  /** Every node id the file assigns, in file order. */
  function AssignedNodeIds(sections: seq<Section>): seq<nat> {
    if sections == [] then []
    else (match NodeIdOf(sections[0].settings) case None => [] case Some(n) => [n]) + AssignedNodeIds(sections[1..])
  }

  lemma DataNodeIdCons(section: Section, rest: seq<Section>, host: string)
    ensures DataNodeId([section] + rest, host) ==
      if section.kind == "ndbd" && HostOf(section.settings) == Some(host) then NodeIdOf(section.settings)
      else DataNodeId(rest, host)
  {
    assert ([section] + rest)[1..] == rest;
  }

  lemma AssignedNodeIdsCons(section: Section, rest: seq<Section>)
    ensures AssignedNodeIds([section] + rest) ==
      (match NodeIdOf(section.settings) case None => [] case Some(n) => [n]) + AssignedNodeIds(rest)
  {
    assert ([section] + rest)[1..] == rest;
  }

  /** The sections of the file, as a chain of one-section prefixes. */
  lemma ConfigIniChain(managerDns: seq<string>, workersDns: seq<string>)
    requires |managerDns| >= 1 && |workersDns| >= 3
    ensures ConfigIni(managerDns, workersDns).value ==
      [Section("ndb_mgmd", [Hostname(managerDns[0])])] +
      ([Section("ndbd default", [NoOfReplicas(3), DataDir(NdbDataDir)])] +
      ([DataNodeSection(workersDns[0], 3)] +
      ([DataNodeSection(workersDns[1], 4)] +
      ([DataNodeSection(workersDns[2], 5)] +
      [Section("mysqld", [NodeId(50)])]))))
  {
  }

  /** Data node k's host maps to node id 3 + k, when the three hosts differ. */
  lemma ConfigIniDataNodes(managerDns: seq<string>, workersDns: seq<string>, j: nat)
    requires |managerDns| >= 1 && |workersDns| >= 3 && j < 3
    requires workersDns[0] != workersDns[1] && workersDns[0] != workersDns[2] && workersDns[1] != workersDns[2]
    ensures DataNodeId(ConfigIni(managerDns, workersDns).value, workersDns[j]) == Some(FirstDataNodeId + j)
  {
    var h := workersDns[j];
    var s0, s1 := Section("ndb_mgmd", [Hostname(managerDns[0])]), Section("ndbd default", [NoOfReplicas(3), DataDir(NdbDataDir)]);
    var s2, s3, s4 := DataNodeSection(workersDns[0], 3), DataNodeSection(workersDns[1], 4), DataNodeSection(workersDns[2], 5);
    var r4 := [s4] + [Section("mysqld", [NodeId(50)])];
    var r3 := [s3] + r4;
    var r2 := [s2] + r3;
    var r1 := [s1] + r2;
    ConfigIniChain(managerDns, workersDns);
    DataNodeIdCons(s0, r1, h);
    DataNodeIdCons(s1, r2, h);
    DataNodeIdCons(s2, r3, h);
    DataNodeSectionReads(workersDns[0], 3);
    if j > 0 {
      DataNodeIdCons(s3, r4, h);
      DataNodeSectionReads(workersDns[1], 4);
      if j > 1 {
        DataNodeIdCons(s4, [Section("mysqld", [NodeId(50)])], h);
        DataNodeSectionReads(workersDns[2], 5);
      }
    }
  }

  lemma DataNodeSectionReads(host: string, id: nat)
    ensures HostOf(DataNodeSection(host, id).settings) == Some(host)
    ensures NodeIdOf(DataNodeSection(host, id).settings) == Some(id)
  {
    assert DataNodeSection(host, id).settings[1..] == [NodeId(id)];
  }

  /** The node ids, in file order: 3, 4, 5 for the data nodes and 50 for the SQL node. */
  lemma ConfigIniNodeIds(managerDns: seq<string>, workersDns: seq<string>)
    requires |managerDns| >= 1 && |workersDns| >= 3
    ensures AssignedNodeIds(ConfigIni(managerDns, workersDns).value) == [3, 4, 5, 50]
  {
    var s0, s1 := Section("ndb_mgmd", [Hostname(managerDns[0])]), Section("ndbd default", [NoOfReplicas(3), DataDir(NdbDataDir)]);
    var s2, s3, s4 := DataNodeSection(workersDns[0], 3), DataNodeSection(workersDns[1], 4), DataNodeSection(workersDns[2], 5);
    var s5 := Section("mysqld", [NodeId(50)]);
    var r5 := [s5];
    var r4 := [s4] + r5;
    var r3 := [s3] + r4;
    var r2 := [s2] + r3;
    var r1 := [s1] + r2;
    ConfigIniChain(managerDns, workersDns);
    AssignedNodeIdsCons(s5, []);
    assert [s5] + [] == r5;
    assert AssignedNodeIds(r5) == [50];
    AssignedNodeIdsCons(s4, r5);
    assert AssignedNodeIds(r4) == [5, 50];
    AssignedNodeIdsCons(s3, r4);
    assert AssignedNodeIds(r3) == [4, 5, 50];
    AssignedNodeIdsCons(s2, r3);
    assert AssignedNodeIds(r2) == [3, 4, 5, 50];
    assert s1.settings[1..][1..] == [];
    assert NodeIdOf(s1.settings[1..]) == None;
    AssignedNodeIdsCons(s1, r2);
    AssignedNodeIdsCons(s0, r1);
  }

  /**
   * The management daemon runs on `manager_dns[0]`; `workers_dns[0..2]` are
   * data nodes 3, 4 and 5 in that order; the SQL node is 50; no id repeats.
   */
  lemma ConfigIniAssignments(managerDns: seq<string>, workersDns: seq<string>)
    requires |managerDns| >= 1 && |workersDns| >= 3
    requires workersDns[0] != workersDns[1] && workersDns[0] != workersDns[2] && workersDns[1] != workersDns[2]
    ensures var cfg := ConfigIni(managerDns, workersDns).value;
      && ManagementHost(cfg) == Some(managerDns[0])
      && (forall j :: 0 <= j < 3 ==> DataNodeId(cfg, workersDns[j]) == Some(FirstDataNodeId + j))
      && AssignedNodeIds(cfg) == [3, 4, 5, 50]
  {
    forall j | 0 <= j < 3
      ensures DataNodeId(ConfigIni(managerDns, workersDns).value, workersDns[j]) == Some(FirstDataNodeId + j)
    {
      ConfigIniDataNodes(managerDns, workersDns, j);
    }
    ConfigIniNodeIds(managerDns, workersDns);
  }

  // ----- Sending the steps -----

  const SuccessStatus: string := "Success"

  /** One `check_command_status` call and the status it reported. */
  datatype Check = Check(step: nat, instanceId: string, status: string)

  /** One `send_command` call: the command and the instances it went to. */
  datatype Sent = Sent(command: string, targets: seq<string>)

  /**
   * The checks of step i: instances in order, stopping after the first
   * status other than Success (the inner `break`).
   */
  function StepChecks(i: nat, ids: seq<string>, statusOf: (nat, string) -> string): seq<Check> {
    if ids == [] then []
    else
      var c := Check(i, ids[0], statusOf(i, ids[0]));
      if c.status != SuccessStatus then [c] else [c] + StepChecks(i, ids[1..], statusOf)
  }

  /**
   * The checks of a step are a prefix of its targets, all Success but the
   * last, and they stop early only at a failure.
   */
  lemma {:induction false} StepChecksStopAtFirstFailure(i: nat, ids: seq<string>, statusOf: (nat, string) -> string)
    ensures var cs := StepChecks(i, ids, statusOf);
      && |cs| <= |ids|
      && (forall k :: 0 <= k < |cs| ==> cs[k] == Check(i, ids[k], statusOf(i, ids[k])))
      && (forall k :: 0 <= k < |cs| - 1 ==> cs[k].status == SuccessStatus)
      && (|cs| < |ids| ==> |cs| > 0 && cs[|cs| - 1].status != SuccessStatus)
  {
    if ids != [] && statusOf(i, ids[0]) == SuccessStatus {
      StepChecksStopAtFirstFailure(i, ids[1..], statusOf);
    }
  }

  /** The checks of the first n steps, step after step. */
  function RunChecks(n: nat, ids: seq<string>, statusOf: (nat, string) -> string): seq<Check> {
    if n == 0 then [] else RunChecks(n - 1, ids, statusOf) + StepChecks(n - 1, ids, statusOf)
  }

  /** A failure stops the checks of its own step only: every step still has its first instance checked. */
  lemma {:induction false} EveryStepIsChecked(n: nat, ids: seq<string>, statusOf: (nat, string) -> string, i: nat)
    requires i < n && ids != []
    ensures Check(i, ids[0], statusOf(i, ids[0])) in RunChecks(n, ids, statusOf)
  {
    var before := RunChecks(n - 1, ids, statusOf);
    var last := StepChecks(n - 1, ids, statusOf);
    assert RunChecks(n, ids, statusOf) == before + last;
    if i < n - 1 {
      EveryStepIsChecked(n - 1, ids, statusOf, i);
      assert Check(i, ids[0], statusOf(i, ids[0])) in before;
    } else {
      StepChecksStopAtFirstFailure(i, ids, statusOf);
      assert |last| > 0;
      assert last[0] == Check(i, ids[0], statusOf(i, ids[0]));
      assert (before + last)[|before|] == last[0];
    }
  }

  /**
   * The status checks of one step: the targets' statuses are read in order
   * until one is not Success.
   */
  method CheckStep(i: nat, ids: seq<string>, statusOf: (nat, string) -> string) returns (stepChecks: seq<Check>)
    ensures stepChecks == StepChecks(i, ids, statusOf)
  {
    stepChecks := [];
    var j := 0;
    while j < |ids|
      invariant 0 <= j <= |ids|
      invariant stepChecks + StepChecks(i, ids[j..], statusOf) == StepChecks(i, ids, statusOf)
    {
      var status := statusOf(i, ids[j]);
      assert ids[j..][1..] == ids[j + 1..];
      stepChecks := stepChecks + [Check(i, ids[j], status)];
      if status != SuccessStatus {
        return;
      }
      j := j + 1;
    }
    assert ids[j..] == [];
  }

  /**
   * The step loop: each command is sent to every target, then the targets'
   * statuses are checked in order until one is not Success; the next command
   * is sent regardless.
   */
  method RunSteps(steps: seq<string>, ids: seq<string>, statusOf: (nat, string) -> string)
    returns (sent: seq<Sent>, checks: seq<Check>)
    ensures |sent| == |steps|
    ensures forall i :: 0 <= i < |steps| ==> sent[i] == Sent(steps[i], ids)
    ensures checks == RunChecks(|steps|, ids, statusOf)
  {
    sent, checks := [], [];
    var i := 0;
    while i < |steps|
      invariant 0 <= i <= |steps|
      invariant |sent| == i
      invariant forall j :: 0 <= j < i ==> sent[j] == Sent(steps[j], ids)
      invariant checks == RunChecks(i, ids, statusOf)
    {
      sent := sent + [Sent(steps[i], ids)];
      var stepChecks := CheckStep(i, ids, statusOf);
      checks := checks + stepChecks;
      i := i + 1;
    }
  }

  // ----- Who each phase is sent to -----

  /** The four step lists of the script, in the order they run. */
  datatype Phase = CommonSteps | ManagerSteps | WorkerSteps | SakilaSteps

  /** The instances each phase's commands go to, as the script has it: the worker steps go to the manager. */
  function PhaseTargetsAsWritten(phase: Phase, p: Partition): seq<string> {
    match phase
    case CommonSteps => p.allInstanceIds
    case ManagerSteps => p.managerInstanceId
    case WorkerSteps => p.managerInstanceId
    case SakilaSteps => p.managerInstanceId
  }

  /** The targets with the worker steps sent to the data nodes, as their comment says they should be. */
  function PhaseTargets(phase: Phase, p: Partition): seq<string> {
    match phase
    case CommonSteps => p.allInstanceIds
    case ManagerSteps => p.managerInstanceId
    case WorkerSteps => p.workerInstancesIds
    case SakilaSteps => p.managerInstanceId
  }

  /** As written, on the four-instance cluster no data node receives the data-node steps. */
  lemma WorkerStepsMissDataNodes(instances: seq<Instance>)
    requires |instances| == 4
    requires forall j, k :: 0 <= j < k < 4 ==> instances[j].id != instances[k].id
    ensures var p := PartitionOf(InstanceData(instances));
      && |p.workerInstancesIds| == 3
      && forall id :: id in p.workerInstancesIds ==> id !in PhaseTargetsAsWritten(WorkerSteps, p)
  {
    FourInstancePartition(instances);
  }

  /** Corrected, each of the three data nodes receives the data-node steps, and only they do. */
  lemma WorkerStepsReachDataNodes(instances: seq<Instance>)
    requires |instances| == 4
    ensures var p := PartitionOf(InstanceData(instances));
      PhaseTargets(WorkerSteps, p) == [instances[0].id, instances[1].id, instances[2].id]
  {
    FourInstancePartition(instances);
  }

  /**
   * As written, with four instances: the common steps reach all four, and
   * every later phase, the data-node phase included, reaches the manager alone.
   */
  lemma PhaseTargetsAsWrittenFourInstances(instances: seq<Instance>)
    requires |instances| == 4
    ensures var p := PartitionOf(InstanceData(instances));
      && PhaseTargetsAsWritten(CommonSteps, p) == [instances[0].id, instances[1].id, instances[2].id, instances[3].id]
      && forall phase :: phase != CommonSteps ==> PhaseTargetsAsWritten(phase, p) == [instances[3].id]
  {
    var data := InstanceData(instances);
    FourInstancePartition(instances);
    LaunchOrderNaming(instances);
    ListsAt(data);
  }

  /** One phase of provisioning as the script runs it: its steps sent to, and checked on, the targets it names. */
  method RunPhase(phase: Phase, steps: seq<string>, p: Partition, statusOf: (nat, string) -> string)
    returns (sent: seq<Sent>, checks: seq<Check>)
    ensures |sent| == |steps|
    ensures forall i :: 0 <= i < |steps| ==> sent[i] == Sent(steps[i], PhaseTargetsAsWritten(phase, p))
    ensures checks == RunChecks(|steps|, PhaseTargetsAsWritten(phase, p), statusOf)
  {
    sent, checks := RunSteps(steps, PhaseTargetsAsWritten(phase, p), statusOf);
  }

  /** One phase of provisioning, corrected: the data-node steps are sent to, and checked on, the data nodes. */
  method RunPhaseCorrected(phase: Phase, steps: seq<string>, p: Partition, statusOf: (nat, string) -> string)
    returns (sent: seq<Sent>, checks: seq<Check>)
    ensures |sent| == |steps|
    ensures forall i :: 0 <= i < |steps| ==> sent[i] == Sent(steps[i], PhaseTargets(phase, p))
    ensures checks == RunChecks(|steps|, PhaseTargets(phase, p), statusOf)
  {
    sent, checks := RunSteps(steps, PhaseTargets(phase, p), statusOf);
  }
}
