/** The per-user container instance lifecycle of `ChallengeStart`
    (CTFd/api/v1/challenges.py): the status query, provisioning and teardown
    over the Users, Challenges, Solves, Containers and Ports tables, stated
    as functions from the tables before a request to the answer, the tables
    after it and the requests sent to the backend. The backend's replies,
    the configuration and the random port draws are inputs. */
module Lifecycle {
  import opened Py
  import opened Text
  import opened Http
  import opened Headers
  import opened Portainer

  /** The range `randint(45000, 55000)` draws ports from. */
  const PortLow := 45000
  const PortHigh := 55000

  predicate InRange(p: int) {
    PortLow <= p <= PortHigh
  }

  predicate AllInRange(draws: seq<int>) {
    forall i :: 0 <= i < |draws| ==> InRange(draws[i])
  }

  datatype Challenge = Challenge(state: string, category: string)

  /** The status strings "open", "in use", "closing" and "closed". */
  datatype PortStatus = Open | InUse | Closing | Closed

  datatype PortRow = PortRow(owner: int, status: PortStatus)

  datatype ContainerRow = ContainerRow(challengeId: int, userId: int, name: string, containerId: string, connection: string)

  /** The five tables. Containers and Ports are keyed by the column the
      handlers look them up by (`user_id`, `port`); a lookup returns the
      row under that key, as `.first()` returns the one row there is. */
  datatype Tables = Tables(
    users: map<int, User>,
    challenges: map<int, Challenge>,
    solves: set<(int, int)>,
    containers: map<int, ContainerRow>,
    ports: map<int, PortRow>)

  /** What the environment and the two JSON files provide: the API key, the
      endpoint, the address handed back to users, the payload template and
      the challenge-to-image map. */
  datatype Config = Config(apiKey: string, endpoint: string, ip: string, template: JsonFile, images: ImageFile)

  /** The backend's answer to one request: none at all (the transport
      raised), or a status code with the response text and the "Id" member
      of its JSON body when the body has one. */
  datatype BackendReply = NoConnection | Answered(status: int, text: string, id: Option<string>)

  datatype Outcome = Outcome(response: Response, tables: Tables, sent: seq<HttpRequest>)

  /** The status codes the handlers accept from create and start. */
  const Accepted: set<int> := {200, 201, 202, 204}

  /** The statuses `requests` treats as errors: such a response is falsy,
      and `raise_for_status` raises on it; a status of 600 or more is not
      an error to it. */
  predicate ErrorStatus(status: int) {
    400 <= status < 600
  }

  /** The delete status codes the teardown treats as failures. */
  const DeleteFailures: set<int> := {400, 404, 409, 500}

  /** The connection string handed to the user. */
  function Connection(ip: string, port: int): string {
    ip + ":" + IntToString(port)
  }

  /** The container name `{Username}_{port}`. */
  function ContainerName(userName: string, port: int): string {
    userName + "_" + IntToString(port)
  }

  /** The port probe: the first drawn port that has no Ports row of any
      status. `None` when every draw so far is taken, so the loop would
      still be drawing. */
  function FirstFree(draws: seq<int>, ports: map<int, PortRow>): (r: Option<int>)
    ensures r.None? <==> forall i :: 0 <= i < |draws| ==> draws[i] in ports
    ensures r.Some? ==> exists i :: 0 <= i < |draws| && draws[i] == r.value && r.value !in ports
                                    && forall j :: 0 <= j < i ==> draws[j] in ports
  {
    if draws == [] then None
    else if draws[0] !in ports then Some(draws[0])
    else
      var r := FirstFree(draws[1..], ports);
      if r.Some? then
        var i :| 0 <= i < |draws[1..]| && draws[1..][i] == r.value && r.value !in ports
                 && forall j :: 0 <= j < i ==> draws[1..][j] in ports;
        assert draws[i + 1] == r.value;
        assert forall j :: 0 <= j < i + 1 ==> draws[j] in ports by {
          forall j | 0 <= j < i + 1 ensures draws[j] in ports {
            if j > 0 { assert draws[j] == draws[1..][j - 1]; }
          }
        }
        r
      else
        assert forall i :: 0 <= i < |draws| ==> draws[i] in ports by {
          forall i | 0 <= i < |draws| ensures draws[i] in ports {
            if i > 0 { assert draws[i] == draws[1..][i - 1]; }
          }
        }
        r
  }

  // ---------------------------------------------------------------------
  // get: the status query

  function StatusQuery(t: Tables, h: map<string, string>): Response {
    match Admit(t.users, h)
    case Failure(e) => e
    case Success(who) =>
      if who.uid !in t.containers then Answer(404, "error", "User does not have a container")
      else Answer(200, "connection", t.containers[who.uid].connection)
  }

  // ---------------------------------------------------------------------
  // post: provisioning

  predicate Solved(t: Tables, who: Identity) {
    (who.uid, who.cid) in t.solves
  }

  /** The challenge guards and the one-container-per-user check, in the
      order the handler runs them. `None` means provisioning may go on. */
  function Eligibility(t: Tables, who: Identity): (r: Option<Response>)
    ensures r.None? <==> (&& who.cid in t.challenges && t.challenges[who.cid].state != "hidden"
                          && t.challenges[who.cid].category == "web" && !Solved(t, who)
                          && who.uid !in t.containers)
    ensures who.cid !in t.challenges ==> r == Some(Answer(404, "status", "Challenge does not exist"))
    ensures who.cid in t.challenges && t.challenges[who.cid].state == "hidden" ==>
              r == Some(Answer(423, "status", "Improper challengeid"))
  {
    if who.cid !in t.challenges then Some(Answer(404, "status", "Challenge does not exist"))
    else if t.challenges[who.cid].state == "hidden" then Some(Answer(423, "status", "Improper challengeid"))
    else if t.challenges[who.cid].category != "web" then Some(Answer(400, "status", "Improper request for challenge"))
    else if Solved(t, who) then Some(Answer(429, "status", "User has already solved this challenge"))
    else if who.uid in t.containers then
      Some(Reply(409, map["status" := "User already has a container. Delete it first before creating a new one",
                          "connection_id" := t.containers[who.uid].connection]))
    else None
  }

  /** The whole `post` handler. `created` and `started` are the backend's
      replies to the create and start requests, consulted only if the
      handler gets that far. */
  function Provision(t: Tables, h: map<string, string>, cfg: Config, draws: seq<int>,
                     created: BackendReply, started: BackendReply): Outcome
  {
    match Admit(t.users, h)
    case Failure(e) => Outcome(e, t, [])
    case Success(who) => Provide(t, who, cfg, draws, created, started)
  }

  /** The `post` handler once the caller is admitted: the guards, the port
      probe and reservation, then the launch. */
  function Provide(t: Tables, who: Identity, cfg: Config, draws: seq<int>,
                   created: BackendReply, started: BackendReply): Outcome
  {
    match Eligibility(t, who)
    case Some(e) => Outcome(e, t, [])
    case None =>
      match FirstFree(draws, t.ports)
      case None => Outcome(Spinning, t, [])
      case Some(port) =>
        Launch(t.(ports := t.ports[port := PortRow(who.uid, Open)]), who, cfg, port, created, started)
  }

  /** From the reserved port to the create request: the image lookup, the
      payload, the API key. Every failure here leaves the port row behind. */
  function Launch(t: Tables, who: Identity, cfg: Config, port: int,
                  created: BackendReply, started: BackendReply): Outcome
    requires port in t.ports
  {
    match ImageId(cfg.images, who.challengeText)
    case Raised(e) => Outcome(Unhandled(e), t, [])
    case Returned(image) =>
      if image.None? || image.value == [] then Outcome(Answer(500, "Server Error", "image id not found"), t, [])
      else
        match Payload(port, image.value, cfg.template)
        case Raised(e) => Outcome(Unhandled(e), t, [])
        case Returned(payload) =>
          if payload.None? || !Truthy(payload.value) then Outcome(Answer(500, "Server Error", "payload not found"), t, [])
          else if cfg.apiKey == [] then Outcome(Answer(500, "Server Error", "api key not found"), t, [])
          else
            var name := ContainerName(who.name, port);
            match CreateContainers(cfg.endpoint, cfg.apiKey, name, payload)
            case Raised(e) => Outcome(Unhandled(e), t, [])
            case Returned(request) => AfterCreate(t, who, cfg, port, name, request, created, started)
  }

  /** The create reply: a falsy response (an `ErrorStatus`) is a 501, a
      status outside `Accepted` or a body without "Id" a 500; otherwise the
      port becomes "in use" and the container is started. */
  function AfterCreate(t: Tables, who: Identity, cfg: Config, port: int, name: string,
                       request: HttpRequest, created: BackendReply, started: BackendReply): Outcome
    requires port in t.ports
  {
    match created
    case NoConnection => Outcome(Unhandled(RequestException), t, [request])
    case Answered(status, text, id) =>
      if ErrorStatus(status) then
        Outcome(Answer(501, "Server Error", "could not create container  -> no response " + text), t, [request])
      else if status !in Accepted then
        Outcome(Answer(500, "Server Error", "could not create container -> status_code " + IntToString(status)), t, [request])
      else if id.None? then
        Outcome(Answer(500, "Server Error", "could not create container -> status_code " + IntToString(status)), t, [request])
      else if port == 0 then
        // the handler tests `port` where it means the port row
        Outcome(Answer(500, "Server Error", "port was not assinged before container creation"), t, [request])
      else
        var inUse := t.(ports := t.ports[port := t.ports[port].(status := InUse)]);
        AfterStart(inUse, who, cfg, port, name, id.value, request, started)
  }

  /** The start request and its reply: an `ErrorStatus` raises (the
      client calls `raise_for_status`), a status outside `Accepted` is a
      500; otherwise the Containers row is added. */
  function AfterStart(t: Tables, who: Identity, cfg: Config, port: int, name: string, containerId: string,
                      createRequest: HttpRequest, started: BackendReply): Outcome
  {
    match StartContainer(Some(cfg.endpoint), cfg.apiKey, containerId)
    case Raised(e) => Outcome(Unhandled(e), t, [createRequest])
    case Returned(request) =>
      var sent := [createRequest, request];
      match started
      case NoConnection => Outcome(Unhandled(RequestException), t, sent)
      case Answered(status, _, _) =>
        if ErrorStatus(status) then Outcome(Unhandled(HTTPError), t, sent)
        else if status !in Accepted then
          Outcome(Answer(500, "Server Error", "could not start container -> status_code " + IntToString(status)), t, sent)
        else
          var connection := Connection(cfg.ip, port);
          var row := ContainerRow(who.cid, who.uid, name, containerId, connection);
          Outcome(Reply(200, map["status" := "success", "connection" := connection]),
                  t.(containers := t.containers[who.uid := row]), sent)
  }

  // ---------------------------------------------------------------------
  // delete: teardown

  /** The port text of a stored connection: what follows the first ":". */
  function PortText(connection: string): Option<string> {
    var parts := Split(connection, ':');
    if |parts| < 2 then None else Some(parts[1])
  }

  /** The whole `delete` handler; `deleted` is the backend's reply to the
      delete request. */
  function Teardown(t: Tables, h: map<string, string>, cfg: Config, deleted: BackendReply): Outcome {
    match Admit(t.users, h)
    case Failure(e) => Outcome(e, t, [])
    case Success(who) => Release(t, who, cfg, deleted)
  }

  /** The `delete` handler once the caller is admitted: the container lookup,
      the key guard, the port read back from the connection, the self-heal
      of a missing Ports row, then the delete request. */
  function Release(t: Tables, who: Identity, cfg: Config, deleted: BackendReply): Outcome {
    if who.uid !in t.containers then Outcome(Answer(404, "status", "User has  no contaier running "), t, [])
    else if cfg.apiKey == [] then Outcome(Answer(500, "Server Error", "api key not found"), t, [])
    else
      var row := t.containers[who.uid];
      match PortText(row.connection)
      case None => Outcome(Unhandled(IndexError), t, [])
      case Some(text) =>
        match ParseInt(text)
        case None => Outcome(Unhandled(ValueError("port")), t, [])
        case Some(port) =>
          var healed := if port in t.ports then t else t.(ports := t.ports[port := PortRow(who.uid, Closing)]);
          Remove(healed, cfg, port, row.containerId, deleted)
  }

  /** The delete request and its reply: a status in `DeleteFailures` is a
      500 that leaves the port as it is; any other status closes the port.
      The Containers row is left in place either way. */
  function Remove(t: Tables, cfg: Config, port: int, containerId: string, deleted: BackendReply): Outcome
    requires port in t.ports
  {
    match DeleteContainers(cfg.endpoint, cfg.apiKey, containerId)
    case Raised(e) => Outcome(Unhandled(e), t, [])
    case Returned(request) =>
      match deleted
      case NoConnection => Outcome(Unhandled(RequestException), t, [request])
      case Answered(status, _, _) =>
        if status in DeleteFailures then
          Outcome(Answer(500, "error", "could not delete container response -> " + IntToString(status)), t, [request])
        else
          Outcome(Answer(200, "status", "container deleted"),
                  t.(ports := t.ports[port := t.ports[port].(status := Closed)]), [request])
  }
}
