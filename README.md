# MySQL cluster, proxy and gatekeeper: a Dafny model

This project models the decision logic of a small MySQL-cluster
deployment and proves properties about it. The deployment has three parts.

- **The proxy** (`proxy/proxy.py`) reads the cluster details file. It
  splits the records into the manager's connection settings
  (`master_config`) and an ordered list of worker settings
  (`workers_config`). It serves a query through one of three routes:
  - `direct_hit`: the manager;
  - `random`: a worker chosen by `random.choice`;
  - `customized`: the node with the lowest ping, scanning the workers in
    order and then the manager, always with a strict `<`.
- **The gatekeeper** (`gatekeeper/gatekeeper.py`) finds the first
  `trusted_host` entry in its details file. It rejects a request with no
  query, or with a query the SQL validator refuses, with status 400.
  Otherwise it forwards `{'query': q}` to `http://<private ip>:5000` and
  relays the answer.
- **The provisioning script** (`benchmarking/sql_cluster.py`) names the
  launched instances `worker1`..`worker3` and `manager`. It splits their
  records into worker and manager lists. It writes the management node's
  `config.ini`. It sends each provisioning step to its targets, then checks
  each target's status in turn and stops at the first failure.

`handoff.dfy` connects the script to the proxy. The script names the nodes
and the proxy reads those names, so the nodes the proxy routes to are the
nodes the script set up. It also proves that they are the hosts
`config.ini` declares.

Outside effects are parameters of the operations that use them:

- `ping3.ping` is a function from host to an optional latency;
- `random.choice` is a `pick` index;
- the SQL validator is a predicate;
- `requests.post` is a function to an optional reply;
- the MySQL connector is a `Database` value with three oracles: connects, execute-and-fetch, and commit-raises;
- the repository's own `check_command_status` helper, which polls SSM's `get_command_invocation`, is a status function.

Python exceptions that the handlers do not catch are modelled as explicit
error values, in the order the code raises them:

- `master_config` never bound is `MasterUndefined`;
- `random.choice([])` is `NoWorkers`;
- `selected_server` never bound is `NoReachableNode`;
- `trusted_detail` never bound is `TrustedUnbound`;
- an index past the end of `manager_dns` / `workers_dns` makes `ConfigIni` return `None`.

Files:

- `wrappers.dfy`: Option and Result.
- `seqs.dfy`: order-preserving filtering and the positions it keeps.
- `text.dfy`: Python's `in` on strings and `str(n)`.
- `proxy.dfy`, `gatekeeper.dfy`, `cluster.dfy`: one module per source file.
- `handoff.dfy`: the link between the script and the proxy.

## Notes on the code

The model keeps these behaviours of the code as they are:

- **Ties in `customized`.** The code scans the workers first and the
  manager last, with a strict `<`. So the earliest worker wins a tie and
  the manager never does.
- **No workers for `random`.** `random.choice` raises IndexError, which
  Flask turns into an internal error.
- **Manager records.** The code does not require exactly one manager
  record. The last one wins, and none leaves `master_config` unbound.
- **Tunnels and probes.** No tunnel is ever started, and the connection
  goes straight to the chosen host. Probes run one after another.

## Model

| member | source | states |
|---|---|---|
| Proxy.LoadTopology | proxy/proxy.py:18-35 | the split loop produces `TopologyOf(records)`: the last manager record's config and the non-manager records' configs in file order |
| Proxy.TopologySnoc | proxy/proxy.py:19-35 | one more record: a manager replaces `master_config` and keeps the workers, any other record appends one worker config and keeps `master_config` |
| Proxy.LastManagerWins | proxy/proxy.py:19-26 | a manager record followed by no other manager record is the one `master_config` comes from |
| Proxy.LastManagerIsLastSelected | proxy/proxy.py:19-26 | `master_config` comes from the last of the manager records, and from none when there are none |
| Proxy.MasterUndefinedIffNoManager | proxy/proxy.py:18-26 | `master_config` is unbound exactly when no record is named `manager` |
| Proxy.WorkersAreNonManagersInOrder | proxy/proxy.py:27-35 | each non-manager record becomes exactly one worker config, at increasing positions, covering every non-manager record; workers plus managers count all records |
| Proxy.TopologySharesCredentials | proxy/proxy.py:21-34 | every config uses user root, the empty password and database sakila |
| Proxy.DirectHitTarget | proxy/proxy.py:46 | `direct_hit` targets the manager, and fails with MasterUndefined exactly when there is none |
| Proxy.RandomTarget | proxy/proxy.py:66-71 | `random` picks one of the workers, and it succeeds exactly when there are workers and a manager; it fails with NoWorkers exactly when there are none, and otherwise with MasterUndefined exactly when the manager is missing |
| Proxy.RandomCanPickEveryWorker | proxy/proxy.py:66 | every worker can be the draw |
| Proxy.FastestIndexIsFastest | proxy/proxy.py:99-109 | the scan's choice answered, no answer is lower, every earlier answer is strictly higher; it chooses nothing exactly when no candidate answered |
| Proxy.FastestIndexExact | proxy/proxy.py:99-109 | the scan chooses k if and only if k is the earliest of the lowest answers |
| Proxy.FastestIsUnique | proxy/proxy.py:99-109 | at most one position is the earliest lowest answer |
| Proxy.CustomizedPicksFastest | proxy/proxy.py:99-109 | the `customized` choice answered, and neither a worker nor the manager answered faster |
| Proxy.CustomizedFailsIffNoAnswer | proxy/proxy.py:99-114 | `selected_server` stays unbound exactly when the manager exists and neither it nor any worker answered |
| Proxy.CustomizedMasterOnlyIfStrictlyFaster | proxy/proxy.py:106-109 | the manager is chosen if and only if it answered strictly faster than every worker that answered |
| Proxy.CustomizedEarliestWorkerWinsTies | proxy/proxy.py:100-104 | of two workers with equal answers the later one is never chosen |
| Proxy.ScanStep | proxy/proxy.py:101-104 | one more candidate: it becomes the choice exactly when it answered strictly below the best answer so far |
| Proxy.CustomizedSelect | proxy/proxy.py:99-114 | the worker loop then the manager check computes `CustomizedTarget`, about which the lemmas above hold |
| Proxy.ConnectionFor | proxy/proxy.py:46-121 | the connection goes to the chosen host, with the node's own settings when they are the shared credentials |
| Proxy.Serve | proxy/proxy.py:46-133 | rows come back exactly when a node was chosen, the connection opened, the request has a query, execute ran and fetch returned rows, and then they are fetch's rows; a routing failure is reported as itself |
| Proxy.CommitFailureIsSwallowed | proxy/proxy.py:50-53 | `Serve` consults the commit oracle and goes on to fetch whichever way it answers, so whether commit raises never changes the answer |
| Proxy.DirectHitRunsOnMaster | proxy/proxy.py:39-55 | `direct_hit` fails without a manager, returns the manager's rows otherwise, and its answer does not depend on the workers |
| Proxy.RandomRunsOnAWorker | proxy/proxy.py:58-88 | `random` fails with NoWorkers on an empty worker list and with MasterUndefined when there are workers but no manager; rows come back only as what some worker, reached as root on sakila, returned for the query |
| Proxy.CustomizedProxy | proxy/proxy.py:90-133 | `/customized` serves the query on the node `CustomizedTarget` chooses |
| Gatekeeper.FirstNamed | gatekeeper/gatekeeper.py:20-23 | the result is the first position with the name, and none exactly when no entry has it |
| Gatekeeper.FindTrustedHost | gatekeeper/gatekeeper.py:20-23 | the loop with `break` binds the first `trusted_host` entry, or nothing when there is none |
| Gatekeeper.TrustedUrlShape | gatekeeper/gatekeeper.py:12-13 | the forward URL is `http://<ip>:5000` and the ip can be read back from it |
| Gatekeeper.Admit | gatekeeper/gatekeeper.py:35-43 | "Query not provided" if and only if there is no query; "Query not valid" if and only if the validator refuses it; a forward if and only if it is valid and the trusted host is known; the forward body is exactly the query, sent to the trusted URL |
| Gatekeeper.Gatekeeper | gatekeeper/gatekeeper.py:27-46 | the two 400 answers; a received reply is relayed with its own status and body; an internal error exactly when an admitted query has no trusted host or the post fails |
| Gatekeeper.RejectionForwardsNothing | gatekeeper/gatekeeper.py:36-40 | a rejected request gets status 400, whatever the trusted host would answer |
| Cluster.InstanceNameRule | benchmarking/sql_cluster.py:83-86 | instance i is named as a worker if and only if i <= 3, and `manager` if and only if i > 3 |
| Cluster.BuildInstanceData | benchmarking/sql_cluster.py:78-96 | the `enumerate(..., start=1)` loop builds `InstanceData(instances)` |
| Cluster.LaunchOrderNaming | benchmarking/sql_cluster.py:79-96 | record k carries instance k's id, DNS name and IP; it is a worker if and only if k < 3 and named manager if and only if k >= 3 |
| Cluster.SplitInstances | benchmarking/sql_cluster.py:103-116 | the partition loop builds `PartitionOf(instance_data)` |
| Cluster.PartitionSnocWorker | benchmarking/sql_cluster.py:110-113 | a worker record adds its id to `all_instance_ids` and its id and DNS name to the worker lists, leaving the manager lists as they are |
| Cluster.PartitionSnocManager | benchmarking/sql_cluster.py:114-116 | a manager record adds its id to `all_instance_ids` and its id and DNS name to the manager lists, leaving the worker lists as they are |
| Cluster.PartitionCoversAllIds | benchmarking/sql_cluster.py:109-116 | worker ids plus manager ids are exactly `all_instance_ids`, as a multiset |
| Cluster.PartitionListsAlign | benchmarking/sql_cluster.py:111-116 | each id list and its DNS list align entry by entry with the same records, in `instance_data` order |
| Cluster.PartitionFollowsLaunchOrder | benchmarking/sql_cluster.py:109-116 | the workers are the first min(3, n) records and the managers the rest |
| Cluster.FourInstancePartition | benchmarking/sql_cluster.py:103-116 | with four instances: three worker ids and DNS names in launch order, one manager |
| Cluster.ConfigIni | benchmarking/sql_cluster.py:168-184 | the sections exist if and only if there is a manager DNS name and at least three worker DNS names |
| Cluster.ConfigIniText | benchmarking/sql_cluster.py:168-184 | the sixteen `echo` commands carry exactly these lines, in order; the file holds them when `truncate` and every `echo` step succeed |
| Cluster.ConfigIniDataNodes | benchmarking/sql_cluster.py:174-182 | when the three worker DNS names differ, `workers_dns[k]` is data node 3 + k |
| Cluster.ConfigIniNodeIds | benchmarking/sql_cluster.py:176-184 | the node ids, in file order, are 3, 4, 5 and 50 |
| Cluster.ConfigIniAssignments | benchmarking/sql_cluster.py:169-184 | the management host is `manager_dns[0]`; `workers_dns[k]` is data node 3 + k; the node ids are 3, 4, 5, 50 |
| Cluster.StepChecksStopAtFirstFailure | benchmarking/sql_cluster.py:144-149 | a step's checks follow its targets in order, all Success but the last, and stop early only at a failure |
| Cluster.EveryStepIsChecked | benchmarking/sql_cluster.py:141-149 | a failure ends only its own step's checks: every step's first target is checked |
| Cluster.CheckStep | benchmarking/sql_cluster.py:144-149 | the inner loop with `break` produces `StepChecks` |
| Cluster.RunSteps | benchmarking/sql_cluster.py:141-149 | every step is sent to every target, in order, and the checks are `RunChecks` |
| Cluster.WorkerStepsMissDataNodes | benchmarking/sql_cluster.py:212-221 | as written, no data node receives the data-node steps |
| Cluster.WorkerStepsReachDataNodes | benchmarking/sql_cluster.py:203-209 | corrected, the data-node steps go to exactly the three data nodes |
| Cluster.PhaseTargetsAsWrittenFourInstances | benchmarking/sql_cluster.py:191-251 | as written, with four instances the common steps go to all four instances and the manager, data-node and sakila steps go to the manager instance alone |
| Cluster.RunPhase | benchmarking/sql_cluster.py:141-251 | as written: each phase's steps are sent to and checked on the targets the script names, so the data-node steps go to `manager_instance_id` |
| Cluster.RunPhaseCorrected | benchmarking/sql_cluster.py:203-221 | corrected version of `RunPhase`: the data-node steps are sent to and checked on `worker_instances_ids` |
| Handoff.LaunchNamesAgree | benchmarking/sql_cluster.py:83-96 | every name the script gives out is a worker for the script if and only if it is not the manager for the proxy |
| Handoff.SelectionsAgree | proxy/proxy.py:18-35 | on such names the proxy's worker and manager records are the script's, in order |
| Handoff.ProxyServesClusterNodes | benchmarking/sql_cluster.py:90-116 | the proxy's worker hosts are the script's `workers_dns` in order; `master_config` is unbound if and only if `manager_dns` is empty, and is otherwise the last manager DNS name |
| Handoff.ProxyMatchesConfigIni | benchmarking/sql_cluster.py:168-184 | with four instances, `direct_hit` goes to the `config.ini` management host and the proxy's k-th worker is data node 3 + k |

## Left out

- Flask routing, JSON parsing and `jsonify` are left out. A request is a map from string keys to string values. A JSON `null` query, a non-string query and a body that is not JSON are not represented.
- The MySQL connector is an oracle. The handlers never close their cursors or connections; cursors are not modelled.
- The content of `config.ini` is not tied to the statuses of the steps that write it. Each line is written by its own `send_command`, and a failed status ends only that step's checks, so a failed `truncate` or `echo` leaves a different file while `ndb_mgmd` is still started.
- Proxy.Serve: a request without a query fails in all three routes (QueryMissing), but not in the same way. `direct_hit` raises KeyError on `request.json['query']`. `random` and `customized` pass `None` to `execute`, and the connector raises (at `execute` or at `fetchall`). Both are a Flask internal error.
- `SSHTunnelForwarder` is only constructed and never started, so it has no effect on the connection. In `random` its construction reads `master_config['host']`, which is the MasterUndefined error there. In `customized` that error comes earlier, from `ping3.ping(master_config['host'])` after the worker loop.
- `ping3.ping` returns `None` on a timeout and `False` when the host cannot be resolved. The ping oracle reads `None` as no answer and `False` as `Some(0.0)`: `False is not None` holds and `False` compares as 0, so an unresolvable host is taken as the fastest node. Latencies are reals, so floating-point rounding and NaN are not represented.
- `random.choice`'s distribution is not modelled. The draw is an index parameter, and only "every worker can be picked" is proved.
- The gatekeeper's `print(url)` and the script's progress `print`s are left out, because they are output only.
- EC2 instance creation, `wait_until_running`, tagging, writing the details file and SSM command delivery are left out. Their results are inputs: the instance list, and the status each `check_command_status` returns.
- The polling inside `check_command_status` (up to ten `get_command_invocation` calls ten seconds apart) is left out, and so is the single `ssm_client.send_command` call that `send_command` makes; `benchmarking/sql_cluster.py` imports both from `utils.py`. utils.py is not part of this model.
- `any_command_failed` is set but never read, so it is not modelled.
- The step command strings themselves are not modelled, apart from the `config.ini` lines. The shell they run in is not modelled either.
- `benchmark.py`, `sql_standalone.py`, the `infrastructure` scripts, `send_requests.py` and `trusted_host.py` are not part of this model.

## Findings

| source | as written | input that shows it | evidently intended | confidence | as-written member | corrected member |
|---|---|---|---|---|---|---|
| benchmarking/sql_cluster.py:212-221 | the data-node steps (`mkdir ndb_data`, `ndbd -c <manager>:1186`) are sent to `manager_instance_id` and checked there | any four distinct instances: the three worker ids receive none of the three steps | send them to `worker_instances_ids`, as the comment at line 211 and the steps' content say | high, not executed | Cluster.WorkerStepsMissDataNodes | Cluster.WorkerStepsReachDataNodes |
