/**
 * The proxy in front of the MySQL cluster: it reads the cluster details file
 * once, splits the records into the manager's connection settings and an
 * ordered list of worker settings, and serves each query through one of three
 * routes: `direct_hit` (the manager), `random` (some worker) and `customized`
 * (the node that answered a ping fastest).
 *
 * Flask, the MySQL connector, `ping3.ping` and `random.choice` are outside the
 * model; each appears as a parameter (an oracle) of the operation that uses it.
 */
module Proxy {
  import opened Wrappers
  import opened Seqs

  /** One entry of the cluster details file, reduced to the two keys the proxy reads. */
  datatype NodeRecord = NodeRecord(name: string, publicDns: string)

  /** The keyword arguments given to the MySQL connector for one node. */
  datatype DbConfig = DbConfig(host: string, user: string, password: string, database: string)

  /** The proxy's view of the cluster: `master_config` (unbound when no record is the manager) and `workers_config`. */
  datatype Topology = Topology(master: Option<DbConfig>, workers: seq<DbConfig>)

  const ManagerName: string := "manager"

  predicate IsManagerRecord(r: NodeRecord) {
    r.name == ManagerName
  }

  /** Every node is reached as MySQL user root, empty password, database sakila. */
  predicate SharedCredentials(c: DbConfig) {
    c.user == "root" && c.password == "" && c.database == "sakila"
  }

  function ConfigFor(r: NodeRecord): DbConfig {
    DbConfig(r.publicDns, "root", "", "sakila")
  }

  function Configs(rs: seq<NodeRecord>): (cs: seq<DbConfig>)
    ensures |cs| == |rs|
    ensures forall k :: 0 <= k < |rs| ==> cs[k] == ConfigFor(rs[k])
  {
    seq(|rs|, k requires 0 <= k < |rs| => ConfigFor(rs[k]))
  }

  /** The record that `master_config` ends up built from: the split has no `break`, so the last manager wins. */
  function LastManager(rs: seq<NodeRecord>): Option<NodeRecord> {
    if rs == [] then None
    else if IsManagerRecord(rs[|rs| - 1]) then Some(rs[|rs| - 1])
    else LastManager(rs[..|rs| - 1])
  }

  /** The topology the module-level split produces from the records, in file order. */
  function TopologyOf(rs: seq<NodeRecord>): Topology {
    Topology(
      match LastManager(rs) case None => None case Some(m) => Some(ConfigFor(m)),
      Configs(Select(rs, IsManagerRecord, false)))
  }

  /** One more record: a manager replaces `master_config`, any other record appends a worker. */
  lemma TopologySnoc(rs: seq<NodeRecord>, r: NodeRecord)
    ensures TopologyOf(rs + [r]) ==
      if IsManagerRecord(r) then Topology(Some(ConfigFor(r)), TopologyOf(rs).workers)
      else Topology(TopologyOf(rs).master, TopologyOf(rs).workers + [ConfigFor(r)])
  {
    assert (rs + [r])[..|rs|] == rs;
    SelectSnoc(rs, r, IsManagerRecord, false);
    var front := Select(rs, IsManagerRecord, false);
    assert Configs(front + [r]) == Configs(front) + [ConfigFor(r)];
  }

  /** The module-level loop: overwrite `master_config` on a manager record, append to `workers_config` otherwise. */
  method LoadTopology(records: seq<NodeRecord>) returns (t: Topology)
    ensures t == TopologyOf(records)
  {
    var master: Option<DbConfig> := None;
    var workers: seq<DbConfig> := [];
    var i := 0;
    while i < |records|
      invariant 0 <= i <= |records|
      invariant Topology(master, workers) == TopologyOf(records[..i])
    {
      var data := records[i];
      assert records[..i + 1] == records[..i] + [data];
      TopologySnoc(records[..i], data);
      if data.name == ManagerName {
        master := Some(ConfigFor(data));
      } else {
        workers := workers + [ConfigFor(data)];
      }
      i := i + 1;
    }
    assert records[..i] == records;
    t := Topology(master, workers);
  }

  /** The manager record that sets `master_config` is the last one: no manager record follows it. */
  lemma {:induction false} LastManagerWins(rs: seq<NodeRecord>, i: nat)
    requires i < |rs| && IsManagerRecord(rs[i])
    requires forall j :: i < j < |rs| ==> !IsManagerRecord(rs[j])
    ensures TopologyOf(rs).master == Some(ConfigFor(rs[i]))
  {
    if i < |rs| - 1 {
      var front := rs[..|rs| - 1];
      LastManagerWins(front, i);
    }
  }

  /** `master_config` comes from the last of the manager records, in file order. */
  lemma {:induction false} LastManagerIsLastSelected(rs: seq<NodeRecord>)
    ensures var ms := Select(rs, IsManagerRecord, true);
      LastManager(rs) == if ms == [] then None else Some(ms[|ms| - 1])
  {
    if rs != [] {
      LastManagerIsLastSelected(rs[..|rs| - 1]);
    }
  }

  /** `master_config` stays unbound exactly when no record is named manager. */
  lemma {:induction false} MasterUndefinedIffNoManager(rs: seq<NodeRecord>)
    ensures TopologyOf(rs).master.None? <==> forall i :: 0 <= i < |rs| ==> !IsManagerRecord(rs[i])
  {
    if rs != [] {
      var front := rs[..|rs| - 1];
      MasterUndefinedIffNoManager(front);
      assert forall i :: 0 <= i < |rs| - 1 ==> front[i] == rs[i];
    }
  }

  /**
   * Every record not named manager becomes exactly one worker config, in
   * input order: `pos` lists, increasingly, exactly the non-manager
   * positions, and the k-th worker is built from the record at pos[k]. So the
   * worker count plus the manager count is the record count.
   */
  lemma WorkersAreNonManagersInOrder(rs: seq<NodeRecord>)
    ensures var t := TopologyOf(rs); var pos := Positions(rs, IsManagerRecord, false);
      && |t.workers| == |pos|
      && (forall k :: 0 <= k < |pos| ==> t.workers[k] == ConfigFor(rs[pos[k]]) && !IsManagerRecord(rs[pos[k]]))
      && (forall j, k :: 0 <= j < k < |pos| ==> pos[j] < pos[k])
      && (forall i :: 0 <= i < |rs| && !IsManagerRecord(rs[i]) ==> i in pos)
      && |t.workers| + |Select(rs, IsManagerRecord, true)| == |rs|
  {
    PositionsMatchSelect(rs, IsManagerRecord, false);
    PositionsSound(rs, IsManagerRecord, false);
    PositionsIncreasing(rs, IsManagerRecord, false);
    PositionsComplete(rs, IsManagerRecord, false);
    SelectPartition(rs, IsManagerRecord);
    assert |multiset(Select(rs, IsManagerRecord, true))| + |multiset(Select(rs, IsManagerRecord, false))| == |multiset(rs)|;
  }

  /** All configs share user root, the empty password and database sakila. */
  lemma TopologySharesCredentials(rs: seq<NodeRecord>)
    ensures var t := TopologyOf(rs);
      && (t.master.Some? ==> SharedCredentials(t.master.value))
      && forall c :: c in t.workers ==> SharedCredentials(c)
  {
  }

  // ----- Choosing the node -----

  datatype Strategy = DirectHit | Random | Customized

  /** Why no node could be chosen: each is an exception in the Python handler. */
  datatype RouteError =
    | MasterUndefined   // NameError: `master_config` was never assigned
    | NoWorkers         // IndexError: `random.choice` on an empty list
    | NoReachableNode   // UnboundLocalError: `selected_server` was never assigned

  /** `direct_hit`: the manager, whatever the workers and the pings are. */
  function DirectHitTarget(t: Topology): (r: Result<DbConfig, RouteError>)
    ensures r.Success? <==> t.master.Some?
    ensures r.Success? ==> t.master == Some(r.value)
    ensures r.Failure? ==> r.error == MasterUndefined
  {
    match t.master
    case None => Failure(MasterUndefined)
    case Some(m) => Success(m)
  }

  /**
   * `random`: the draw of `random.choice`, given as `pick`, names a worker. An
   * empty worker list fails first; the tunnel set-up then reads the manager's
   * host, so a missing manager fails too.
   */
  function RandomTarget(t: Topology, pick: nat): (r: Result<DbConfig, RouteError>)
    ensures r.Success? ==> r.value in t.workers && t.master.Some?
    ensures r == Failure(NoWorkers) <==> t.workers == []
    ensures r == Failure(MasterUndefined) <==> t.workers != [] && t.master.None?
    ensures r.Success? <==> t.workers != [] && t.master.Some?
  {
    if t.workers == [] then Failure(NoWorkers)
    else if t.master.None? then Failure(MasterUndefined)
    else Success(t.workers[pick % |t.workers|])
  }

  /** No worker is out of reach of the random choice. */
  lemma RandomCanPickEveryWorker(t: Topology, k: nat)
    requires t.master.Some? && k < |t.workers|
    ensures RandomTarget(t, k) == Success(t.workers[k])
  {
  }

  /** The ping answer for each candidate, in scan order: None for a timeout, Some(0.0) for the `False` of an unresolvable host. */
  function Pings(cands: seq<DbConfig>, ping: string -> Option<real>): (ps: seq<Option<real>>)
    ensures |ps| == |cands|
    ensures forall k :: 0 <= k < |cands| ==> ps[k] == ping(cands[k].host)
  {
    seq(|cands|, k requires 0 <= k < |cands| => ping(cands[k].host))
  }

  /**
   * The position the `customized` scan settles on: start from "infinity" (no
   * candidate) and take a candidate whenever its answer is strictly below
   * the best so far. Defined on prefixes, as the loop walks them.
   */
  function FastestIndex(ps: seq<Option<real>>): (r: Option<nat>)
    ensures r.Some? ==> r.value < |ps| && ps[r.value].Some?
  {
    if ps == [] then None
    else
      var prev := FastestIndex(ps[..|ps| - 1]);
      var last := ps[|ps| - 1];
      if last.Some? && (prev.None? || last.value < ps[prev.value].value) then Some(|ps| - 1)
      else prev
  }

  /**
   * k answered, no answer is lower than k's, and every earlier answer is
   * strictly higher: the fastest node, earliest in scan order among equals.
   */
  ghost predicate IsFastest(ps: seq<Option<real>>, k: nat) {
    && k < |ps| && ps[k].Some?
    && (forall j :: 0 <= j < |ps| && ps[j].Some? ==> ps[k].value <= ps[j].value)
    && (forall j :: 0 <= j < k && ps[j].Some? ==> ps[k].value < ps[j].value)
  }

  lemma {:induction false} FastestIndexIsFastest(ps: seq<Option<real>>)
    ensures FastestIndex(ps).Some? ==> IsFastest(ps, FastestIndex(ps).value)
    ensures FastestIndex(ps).None? <==> forall j :: 0 <= j < |ps| ==> ps[j].None?
  {
    if ps != [] {
      var front := ps[..|ps| - 1];
      FastestIndexIsFastest(front);
      assert forall j :: 0 <= j < |ps| - 1 ==> front[j] == ps[j];
    }
  }

  lemma FastestIsUnique(ps: seq<Option<real>>, k1: nat, k2: nat)
    requires IsFastest(ps, k1) && IsFastest(ps, k2)
    ensures k1 == k2
  {
  }

  /** The scan picks k exactly when k is the earliest of the fastest answers. */
  lemma FastestIndexExact(ps: seq<Option<real>>, k: nat)
    ensures FastestIndex(ps) == Some(k) <==> IsFastest(ps, k)
  {
    FastestIndexIsFastest(ps);
    if IsFastest(ps, k) {
      assert ps[k].Some?;
      assert FastestIndex(ps).Some?;
      FastestIsUnique(ps, k, FastestIndex(ps).value);
    }
  }

  /** `customized`: workers in list order, then the manager; no manager or no answer at all fails. */
  function CustomizedTarget(t: Topology, ping: string -> Option<real>): Result<DbConfig, RouteError> {
    match t.master
    case None => Failure(MasterUndefined)
    case Some(m) =>
      var cands := t.workers + [m];
      match FastestIndex(Pings(cands, ping))
      case None => Failure(NoReachableNode)
      case Some(k) => Success(cands[k])
  }

  /** The chosen node answered, and no worker and not the manager answered faster. */
  lemma CustomizedPicksFastest(t: Topology, ping: string -> Option<real>)
    requires CustomizedTarget(t, ping).Success?
    ensures var c := CustomizedTarget(t, ping).value;
      && ping(c.host).Some?
      && (forall w :: w in t.workers && ping(w.host).Some? ==> ping(c.host).value <= ping(w.host).value)
      && (ping(t.master.value.host).Some? ==> ping(c.host).value <= ping(t.master.value.host).value)
  {
    var cands := t.workers + [t.master.value];
    var ps := Pings(cands, ping);
    FastestIndexIsFastest(ps);
    forall w | w in t.workers && ping(w.host).Some?
      ensures ping(CustomizedTarget(t, ping).value.host).value <= ping(w.host).value
    {
      var j :| 0 <= j < |t.workers| && t.workers[j] == w;
      assert cands[j] == w;
    }
    assert cands[|t.workers|] == t.master.value;
  }

  /** The request fails for want of a node exactly when the manager exists and nobody answered the ping. */
  lemma CustomizedFailsIffNoAnswer(t: Topology, ping: string -> Option<real>)
    ensures CustomizedTarget(t, ping) == Failure(NoReachableNode) <==>
      t.master.Some? && ping(t.master.value.host).None? &&
      forall w :: w in t.workers ==> ping(w.host).None?
  {
    if t.master.Some? {
      var cands := t.workers + [t.master.value];
      var ps := Pings(cands, ping);
      FastestIndexIsFastest(ps);
      assert cands[|t.workers|] == t.master.value;
      if forall w :: w in t.workers ==> ping(w.host).None? {
        assert forall j :: 0 <= j < |t.workers| ==> cands[j] in t.workers;
      }
      if FastestIndex(ps).None? {
        forall w | w in t.workers ensures ping(w.host).None? {
          var j :| 0 <= j < |t.workers| && t.workers[j] == w;
          assert cands[j] == w;
        }
      }
    }
  }

  /** The manager (scanned last) is chosen only when it answered strictly faster than every worker that answered. */
  lemma CustomizedMasterOnlyIfStrictlyFaster(t: Topology, ping: string -> Option<real>)
    requires t.master.Some?
    ensures var ps := Pings(t.workers + [t.master.value], ping);
      FastestIndex(ps) == Some(|t.workers|) <==>
        ping(t.master.value.host).Some? &&
        forall j :: 0 <= j < |t.workers| && ping(t.workers[j].host).Some? ==>
          ping(t.master.value.host).value < ping(t.workers[j].host).value
  {
    var cands := t.workers + [t.master.value];
    var ps := Pings(cands, ping);
    FastestIndexExact(ps, |t.workers|);
    assert cands[|t.workers|] == t.master.value;
    assert forall j :: 0 <= j < |t.workers| ==> cands[j] == t.workers[j];
  }

  /** Of two workers with the same answer, the later one in `workers_config` is never chosen. */
  lemma CustomizedEarliestWorkerWinsTies(t: Topology, ping: string -> Option<real>, i: nat, j: nat)
    requires t.master.Some? && i < j < |t.workers|
    requires ping(t.workers[i].host).Some? && ping(t.workers[i].host) == ping(t.workers[j].host)
    ensures FastestIndex(Pings(t.workers + [t.master.value], ping)) != Some(j)
  {
    var cands := t.workers + [t.master.value];
    var ps := Pings(cands, ping);
    FastestIndexExact(ps, j);
    assert cands[i] == t.workers[i] && cands[j] == t.workers[j];
  }

  /** One more candidate in the scan: it is taken when it answered strictly below the best so far. */
  lemma ScanStep(cands: seq<DbConfig>, i: nat, ping: string -> Option<real>)
    requires i < |cands|
    ensures var prev := FastestIndex(Pings(cands[..i], ping)); var p := ping(cands[i].host);
      FastestIndex(Pings(cands[..i + 1], ping)) ==
        if p.Some? && (prev.None? || p.value < ping(cands[prev.value].host).value) then Some(i) else prev
  {
    var ps := Pings(cands[..i + 1], ping);
    assert ps[..i] == Pings(cands[..i], ping);
  }

  /** The `customized` scan: the loop over the workers, then the manager, both with strict `<`. */
  method CustomizedSelect(t: Topology, ping: string -> Option<real>) returns (target: Result<DbConfig, RouteError>)
    ensures target == CustomizedTarget(t, ping)
  {
    var lowest: Option<real> := None;        // float('inf')
    var selected: Option<DbConfig> := None;  // `selected_server` not yet bound
    ghost var at: Option<nat> := None;
    var i := 0;
    while i < |t.workers|
      invariant 0 <= i <= |t.workers|
      invariant at == FastestIndex(Pings(t.workers[..i], ping))
      invariant at.None? ==> lowest.None? && selected.None?
      invariant at.Some? ==> at.value < i && selected == Some(t.workers[at.value]) && lowest == ping(t.workers[at.value].host)
    {
      var worker := t.workers[i];
      var p := ping(worker.host);
      ScanStep(t.workers, i, ping);
      if p.Some? && (lowest.None? || p.value < lowest.value) {
        lowest := p;
        selected := Some(worker);
        at := Some(i);
      }
      i := i + 1;
    }
    if t.master.None? {
      target := Failure(MasterUndefined);
      return;
    }
    var m := t.master.value;
    var cands := t.workers + [m];
    assert cands[..|t.workers|] == t.workers[..i];
    assert cands[..|t.workers| + 1] == cands;
    ScanStep(cands, |t.workers|, ping);
    var p := ping(m.host);
    if p.Some? && (lowest.None? || p.value < lowest.value) {
      lowest := p;
      selected := Some(m);
      at := Some(|t.workers|);
    }
    if selected.None? {
      target := Failure(NoReachableNode);
    } else {
      target := Success(selected.value);
    }
  }

  // ----- Running the query -----

  type Row = seq<string>

  /** What `cursor.execute` and then `fetchall` did: execute raised, or it ran and fetch gave rows or raised. */
  datatype Execution = ExecuteRaised | Executed(fetched: Option<seq<Row>>)

  /** The MySQL connector as seen from one request. */
  datatype Database = Database(
    connects: DbConfig -> bool,
    run: (DbConfig, string) -> Execution,
    commitRaises: DbConfig -> bool)

  datatype ServeError =
    | NoTarget(cause: RouteError)
    | ConnectFailed
    | QueryMissing
    | ExecuteFailed
    | FetchFailed

  /** The HTTP answer: `{'result': rows}`, or Flask's internal-error page for an uncaught exception. */
  datatype Response = Rows(result: seq<Row>) | InternalError(cause: ServeError)

  /**
   * The connector arguments: `direct_hit` passes the whole config, the other
   * routes pass the chosen host with user root, empty password and sakila.
   */
  function ConnectionFor(s: Strategy, target: DbConfig): (c: DbConfig)
    ensures c.host == target.host
    ensures SharedCredentials(target) ==> c == target
  {
    if s == DirectHit then target else DbConfig(target.host, "root", "", "sakila")
  }

  /**
   * Connect, read the query, execute, commit, fetch. A commit that raises is
   * swallowed, so once execute has succeeded the answer is whatever fetch gives.
   */
  function Serve(s: Strategy, target: Result<DbConfig, RouteError>, request: map<string, string>, db: Database): (resp: Response)
    ensures target.Failure? ==> resp == InternalError(NoTarget(target.error))
    ensures resp.Rows? <==>
      target.Success? && db.connects(ConnectionFor(s, target.value)) && "query" in request &&
      db.run(ConnectionFor(s, target.value), request["query"]).Executed? &&
      db.run(ConnectionFor(s, target.value), request["query"]).fetched.Some?
    ensures resp.Rows? ==> resp.result == db.run(ConnectionFor(s, target.value), request["query"]).fetched.value
  {
    match target
    case Failure(e) => InternalError(NoTarget(e))
    case Success(node) =>
      var conn := ConnectionFor(s, node);
      if !db.connects(conn) then InternalError(ConnectFailed)
      else if "query" !in request then InternalError(QueryMissing)
      else
        match db.run(conn, request["query"])
        case ExecuteRaised => InternalError(ExecuteFailed)
        case Executed(fetched) =>
          // commit inside `try`; the `except` clause only passes, so both outcomes go on to fetch
          if db.commitRaises(conn) then Fetch(fetched)
          else Fetch(fetched)
  }

  /** `cursor.fetchall()`: its rows, or the internal error it raises. */
  function Fetch(fetched: Option<seq<Row>>): Response {
    match fetched
    case None => InternalError(FetchFailed)
    case Some(rows) => Rows(rows)
  }

  /** A commit failure never changes the answer. */
  lemma CommitFailureIsSwallowed(s: Strategy, target: Result<DbConfig, RouteError>, request: map<string, string>, db: Database, commitRaises: DbConfig -> bool)
    ensures Serve(s, target, request, db) == Serve(s, target, request, db.(commitRaises := commitRaises))
  {
  }

  /** `/direct_hit`. */
  function DirectHitEndpoint(t: Topology, request: map<string, string>, db: Database): Response {
    Serve(DirectHit, DirectHitTarget(t), request, db)
  }

  /** `direct_hit` runs on the manager, whatever the workers are. */
  lemma DirectHitRunsOnMaster(t: Topology, request: map<string, string>, db: Database)
    ensures var resp := DirectHitEndpoint(t, request, db);
      && (t.master.None? ==> resp == InternalError(NoTarget(MasterUndefined)))
      && (resp.Rows? ==> resp.result == db.run(t.master.value, request["query"]).fetched.value)
      && forall ws :: DirectHitEndpoint(Topology(t.master, ws), request, db) == resp
  {
  }

  /** `/random`. */
  function RandomEndpoint(t: Topology, pick: nat, request: map<string, string>, db: Database): Response {
    Serve(Random, RandomTarget(t, pick), request, db)
  }

  /**
   * `random` fails with IndexError on an empty worker list, then with
   * NameError without a manager; rows come back only from a worker, reached
   * with the shared credentials.
   */
  lemma RandomRunsOnAWorker(t: Topology, pick: nat, request: map<string, string>, db: Database)
    ensures var resp := RandomEndpoint(t, pick, request, db);
      && (t.workers == [] ==> resp == InternalError(NoTarget(NoWorkers)))
      && (t.workers != [] && t.master.None? ==> resp == InternalError(NoTarget(MasterUndefined)))
      && (resp.Rows? ==> "query" in request)
      && (resp.Rows? ==> exists w :: w in t.workers && db.run(DbConfig(w.host, "root", "", "sakila"), request["query"]) == Executed(Some(resp.result)))
  {
    var resp := RandomEndpoint(t, pick, request, db);
    if resp.Rows? {
      var w := RandomTarget(t, pick).value;
      assert w in t.workers;
    }
  }

  /** `/customized`: the scan, then the same connect-execute-commit-fetch sequence. */
  method CustomizedProxy(t: Topology, ping: string -> Option<real>, request: map<string, string>, db: Database) returns (resp: Response)
    ensures resp == Serve(Customized, CustomizedTarget(t, ping), request, db)
  {
    var target := CustomizedSelect(t, ping);
    resp := Serve(Customized, target, request, db);
  }
}
