/**
 * The cluster details file links the two programs: the provisioning script
 * dumps `instance_data`, and the proxy reads the `Name` and `PublicDNS`
 * of each entry. The script partitions by "name contains worker", the proxy
 * by "name is manager"; on the names the script gives out the two tests are
 * complements, so the proxy's nodes are the script's nodes.
 */
module Handoff {
  import opened Wrappers
  import opened Seqs
  import Cluster
  import Proxy

  /** The two keys of a details-file entry that the proxy reads. */
  function ToNodeRecord(r: Cluster.InstanceRecord): Proxy.NodeRecord {
    Proxy.NodeRecord(r.name, r.publicDns)
  }

  function ToNodeRecords(rs: seq<Cluster.InstanceRecord>): (ns: seq<Proxy.NodeRecord>)
    ensures |ns| == |rs|
    ensures forall k :: 0 <= k < |rs| ==> ns[k] == ToNodeRecord(rs[k])
  {
    seq(|rs|, k requires 0 <= k < |rs| => ToNodeRecord(rs[k]))
  }

  /** Every entry is either a worker for the script or the manager for the proxy, never both. */
  predicate NamesAgree(rs: seq<Cluster.InstanceRecord>) {
    forall k :: 0 <= k < |rs| ==> (Cluster.IsWorkerRecord(rs[k]) <==> !Proxy.IsManagerRecord(ToNodeRecord(rs[k])))
  }

  /** Every name the script gives out passes exactly one of the two tests. */
  lemma LaunchNamesAgree(instances: seq<Cluster.Instance>)
    ensures NamesAgree(Cluster.InstanceData(instances))
  {
    Cluster.LaunchOrderNaming(instances);
  }

  lemma ToNodeRecordsSnoc(rs: seq<Cluster.InstanceRecord>, x: Cluster.InstanceRecord)
    ensures ToNodeRecords(rs + [x]) == ToNodeRecords(rs) + [ToNodeRecord(x)]
  {
  }

  /**
   * On agreeing names the proxy's workers are the script's workers (keep is
   * true) and its managers are the script's managers (keep is false), in order.
   */
  lemma {:induction false} SelectionsAgree(rs: seq<Cluster.InstanceRecord>, keep: bool)
    requires NamesAgree(rs)
    ensures Select(ToNodeRecords(rs), Proxy.IsManagerRecord, !keep) == ToNodeRecords(Select(rs, Cluster.IsWorkerRecord, keep))
  {
    if rs != [] {
      var front, x := rs[..|rs| - 1], rs[|rs| - 1];
      assert rs == front + [x];
      assert NamesAgree(front) by {
        forall k | 0 <= k < |front|
          ensures Cluster.IsWorkerRecord(front[k]) <==> !Proxy.IsManagerRecord(ToNodeRecord(front[k]))
        {
          assert front[k] == rs[k];
        }
      }
      SelectionsAgree(front, keep);
      ToNodeRecordsSnoc(front, x);
      SelectSnoc(ToNodeRecords(front), ToNodeRecord(x), Proxy.IsManagerRecord, !keep);
      SelectSnoc(front, x, Cluster.IsWorkerRecord, keep);
      ToNodeRecordsSnoc(Select(front, Cluster.IsWorkerRecord, keep), x);
    }
  }

  /**
   * The proxy, reading the file the script wrote, routes `random` and
   * `customized` to the script's `workers_dns` in order, and `direct_hit` to
   * the last of its `manager_dns`; `master_config` is unbound exactly when
   * the script found no manager.
   */
  lemma ProxyServesClusterNodes(instances: seq<Cluster.Instance>)
    ensures var data := Cluster.InstanceData(instances);
      var p := Cluster.PartitionOf(data);
      var t := Proxy.TopologyOf(ToNodeRecords(data));
      && |t.workers| == |p.workersDns|
      && (forall k :: 0 <= k < |t.workers| ==> t.workers[k].host == p.workersDns[k])
      && (t.master.None? <==> p.managerDns == [])
      && (t.master.Some? ==> t.master.value.host == p.managerDns[|p.managerDns| - 1])
  {
    var data := Cluster.InstanceData(instances);
    var nodes := ToNodeRecords(data);
    LaunchNamesAgree(instances);
    SelectionsAgree(data, true);
    SelectionsAgree(data, false);
    Proxy.LastManagerIsLastSelected(nodes);
    Cluster.ListsAt(Select(data, Cluster.IsWorkerRecord, true));
    Cluster.ListsAt(Select(data, Cluster.IsWorkerRecord, false));
  }

  /**
   * With the four instances the script launches, `direct_hit` goes to the
   * host that `config.ini` makes the management node, and the k-th worker
   * the proxy knows is data node 3 + k.
   */
  lemma ProxyMatchesConfigIni(instances: seq<Cluster.Instance>)
    requires |instances| == 4
    requires forall j, k :: 0 <= j < k < 3 ==> instances[j].publicDns != instances[k].publicDns
    ensures var p := Cluster.PartitionOf(Cluster.InstanceData(instances));
      var t := Proxy.TopologyOf(ToNodeRecords(Cluster.InstanceData(instances)));
      && Cluster.ConfigIni(p.managerDns, p.workersDns).Some?
      && var cfg := Cluster.ConfigIni(p.managerDns, p.workersDns).value;
      && t.master.Some?
      && Cluster.ManagementHost(cfg) == Some(t.master.value.host)
      && |t.workers| == 3
      && forall k :: 0 <= k < 3 ==> Cluster.DataNodeId(cfg, t.workers[k].host) == Some(Cluster.FirstDataNodeId + k)
  {
    var p := Cluster.PartitionOf(Cluster.InstanceData(instances));
    Cluster.FourInstancePartition(instances);
    ProxyServesClusterNodes(instances);
    Cluster.ConfigIniAssignments(p.managerDns, p.workersDns);
  }
}
