/**
 * The gatekeeper: a web front that admits a query only when the request
 * carries one and the SQL validator accepts it, and then forwards it, alone
 * and unchanged, to the trusted host, whose answer it relays as received.
 *
 * The validator (`sqlvalidator.parse(q).is_valid()`) and the HTTP call to
 * the trusted host (`requests.post` and `.json()`) are parameters.
 */
module Gatekeeper {
  import opened Wrappers
  import opened Text

  /** One entry of the gatekeeper details file, reduced to the keys read here. */
  datatype InstanceDetail = InstanceDetail(name: string, privateIp: string)

  const TrustedHostName: string := "trusted_host"
  const TrustedHostPort: nat := 5000

  /** The position of the first detail carrying the given name, if any. */
  function FirstNamed(details: seq<InstanceDetail>, name: string): (r: Option<nat>)
    ensures r.None? <==> forall j :: 0 <= j < |details| ==> details[j].name != name
    ensures r.Some? ==> r.value < |details| && details[r.value].name == name
    ensures r.Some? ==> forall j :: 0 <= j < r.value ==> details[j].name != name
  {
    if details == [] then None
    else if details[0].name == name then Some(0)
    else match FirstNamed(details[1..], name)
      case None => None
      case Some(k) => Some(k + 1)
  }

  /** The module-level `for`/`break` loop that binds `trusted_detail`; it stays unbound when no detail matches. */
  method FindTrustedHost(details: seq<InstanceDetail>) returns (trusted: Option<InstanceDetail>)
    ensures trusted == match FirstNamed(details, TrustedHostName)
      case None => None
      case Some(k) => Some(details[k])
  {
    trusted := None;
    var i := 0;
    while i < |details|
      invariant 0 <= i <= |details|
      invariant trusted.None?
      invariant forall j :: 0 <= j < i ==> details[j].name != TrustedHostName
    {
      if details[i].name == TrustedHostName {
        trusted := Some(details[i]);
        break;
      }
      i := i + 1;
    }
  }

  /** `TRSUTED_URL_TEMPLATE.format(ip, TRUSTED_HOST_PORT)`. */
  function TrustedUrl(ip: string): string {
    "http://" + ip + ":" + Decimal(TrustedHostPort)
  }

  /** The host part of a URL of the trusted-host shape. */
  function UrlHost(url: string): string
    requires |url| >= 12
  {
    url[7..|url| - 5]
  }

  /** The forward URL is `http://<ip>:5000`, and the private IP can be read back from it. */
  lemma TrustedUrlShape(ip: string)
    ensures TrustedUrl(ip) == "http://" + ip + ":5000"
    ensures |TrustedUrl(ip)| >= 12 && UrlHost(TrustedUrl(ip)) == ip
  {
    assert Decimal(5000) == "5000";
  }

  /** The trusted host's answer, as `requests.post(...)` and `.json()` produce it. */
  datatype Reply = Reply(status: nat, json: string)

  /** What the gatekeeper decides before any HTTP call is made. */
  datatype Decision =
    | Reject(error: string)
    | Forward(url: string, body: map<string, string>)
    | TrustedUnbound   // NameError: `trusted_detail` was never bound

  /**
   * A missing query is rejected first, then an invalid one; otherwise the
   * body `{'query': query}` goes to the trusted host's URL.
   */
  function Admit(request: map<string, string>, isValid: string -> bool, trusted: Option<InstanceDetail>): (d: Decision)
    ensures d == Reject("Query not provided") <==> "query" !in request
    ensures d == Reject("Query not valid") <==> "query" in request && !isValid(request["query"])
    ensures d.Forward? <==> "query" in request && isValid(request["query"]) && trusted.Some?
    ensures d.Forward? ==> d.body == map["query" := request["query"]] && d.url == TrustedUrl(trusted.value.privateIp)
  {
    if "query" !in request then Reject("Query not provided")
    else
      var query := request["query"];
      if !isValid(query) then Reject("Query not valid")
      else if trusted.None? then TrustedUnbound
      else Forward(TrustedUrl(trusted.value.privateIp), map["query" := query])
  }

  datatype Body = ErrorMessage(error: string) | Relayed(json: string)

  /** A JSON answer with its status, or Flask's internal-error page for an uncaught exception. */
  datatype Response = Json(status: nat, body: Body) | InternalError

  /** The `gatekeeper()` handler; `post` is None when the call or the JSON decoding raised. */
  function Gatekeeper(request: map<string, string>, isValid: string -> bool, trusted: Option<InstanceDetail>,
                      post: (string, map<string, string>) -> Option<Reply>): (resp: Response)
    ensures "query" !in request ==> resp == Json(400, ErrorMessage("Query not provided"))
    ensures "query" in request && !isValid(request["query"]) ==> resp == Json(400, ErrorMessage("Query not valid"))
    ensures Admit(request, isValid, trusted).Forward? && post(TrustedUrl(trusted.value.privateIp), map["query" := request["query"]]).Some? ==>
      var reply := post(TrustedUrl(trusted.value.privateIp), map["query" := request["query"]]).value;
      resp == Json(reply.status, Relayed(reply.json))
    ensures resp.InternalError? <==>
      && "query" in request && isValid(request["query"])
      && (trusted.None? || post(TrustedUrl(trusted.value.privateIp), map["query" := request["query"]]).None?)
  {
    match Admit(request, isValid, trusted)
    case Reject(error) => Json(400, ErrorMessage(error))
    case TrustedUnbound => InternalError
    case Forward(url, body) =>
      match post(url, body)
      case None => InternalError
      case Some(reply) => Json(reply.status, Relayed(reply.json))
  }

  /** A rejected request never reaches the trusted host: the answer does not depend on it. */
  lemma RejectionForwardsNothing(request: map<string, string>, isValid: string -> bool, trusted: Option<InstanceDetail>,
                                 post1: (string, map<string, string>) -> Option<Reply>,
                                 post2: (string, map<string, string>) -> Option<Reply>)
    requires Admit(request, isValid, trusted).Reject?
    ensures Gatekeeper(request, isValid, trusted, post1) == Gatekeeper(request, isValid, trusted, post2)
    ensures Gatekeeper(request, isValid, trusted, post1).status == 400
  {
  }
}
