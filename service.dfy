/** `ChallengeStart` as the handlers run it: an object holding the five
    tables, whose `get`, `post` and `delete` methods read them and update
    them in place. Each method is proved to produce exactly the answer, the
    new tables and the requests that the corresponding function of
    `Lifecycle` describes, so every lemma of `LifecycleProps` holds of it. */
module Service {
  import opened Py
  import opened Http
  import opened Headers
  import opened Portainer
  import opened Lifecycle

  class InstanceService {
    var users: map<int, User>
    var challenges: map<int, Challenge>
    var solves: set<(int, int)>
    var containers: map<int, ContainerRow>
    var ports: map<int, PortRow>

    /** The tables as a value. */
    function Snapshot(): Tables
      reads this
    {
      Tables(users, challenges, solves, containers, ports)
    }

    constructor (t: Tables)
      ensures Snapshot() == t
    {
      users := t.users;
      challenges := t.challenges;
      solves := t.solves;
      containers := t.containers;
      ports := t.ports;
    }

    /** The probe loop: draw ports until one has no Ports row. The draws are
        the successive results of `randint(45000, 55000)`; `None` when they
        run out before a free port comes up. */
    method Probe(draws: seq<int>) returns (port: Option<int>)
      ensures port == FirstFree(draws, ports)
    {
      var i := 0;
      while i < |draws|
        invariant 0 <= i <= |draws|
        invariant FirstFree(draws, ports) == FirstFree(draws[i..], ports)
      {
        if draws[i] !in ports {
          return Some(draws[i]);
        }
        assert draws[i..][1..] == draws[i + 1..];
        i := i + 1;
      }
      return None;
    }

    /** The validation and the credential check. */
    method Admission(h: map<string, string>) returns (r: Result<Identity, Response>)
      ensures r == Admit(users, h)
    {
      var checked := CheckHeaders(h);
      if checked.Failure? {
        return Failure(checked.error);
      }
      var denied := Authenticate(users, checked.value);
      if denied.Some? {
        return Failure(denied.value);
      }
      return checked;
    }

    /** `get`: the connection of the caller's container. */
    method Get(h: map<string, string>) returns (r: Response)
      ensures r == StatusQuery(Snapshot(), h)
    {
      var admitted := Admission(h);
      if admitted.Failure? {
        return admitted.error;
      }
      var who := admitted.value;
      if who.uid !in containers {
        return Answer(404, "error", "User does not have a container");
      }
      return Answer(200, "connection", containers[who.uid].connection);
    }

    /** `post`: the guards, the probe, the reservation of the port, the
        create and start requests, and the new Containers row. */
    method Post(h: map<string, string>, cfg: Config, draws: seq<int>, created: BackendReply, started: BackendReply)
      returns (r: Response, sent: seq<HttpRequest>)
      modifies this
      ensures Outcome(r, Snapshot(), sent) == Provision(old(Snapshot()), h, cfg, draws, created, started)
    {
      var admitted := Admission(h);
      if admitted.Failure? {
        return admitted.error, [];
      }
      var who := admitted.value;
      var refused := Eligibility(Snapshot(), who);
      if refused.Some? {
        return refused.value, [];
      }
      var found := Probe(draws);
      if found.None? {
        return Spinning, [];
      }
      var port := found.value;
      ports := ports[port := PortRow(who.uid, Open)];
      r, sent := Launch(who, cfg, port, created, started);
    }

    /** From the reserved port to the create request. */
    method Launch(who: Identity, cfg: Config, port: int, created: BackendReply, started: BackendReply)
      returns (r: Response, sent: seq<HttpRequest>)
      requires port in ports
      modifies this
      ensures Outcome(r, Snapshot(), sent) == Lifecycle.Launch(old(Snapshot()), who, cfg, port, created, started)
    {
      var image := ImageId(cfg.images, who.challengeText);
      if image.Raised? {
        return Unhandled(image.error), [];
      }
      if image.value.None? || image.value.value == [] {
        return Answer(500, "Server Error", "image id not found"), [];
      }
      var payload := Payload(port, image.value.value, cfg.template);
      if payload.Raised? {
        return Unhandled(payload.error), [];
      }
      if payload.value.None? || !Truthy(payload.value.value) {
        return Answer(500, "Server Error", "payload not found"), [];
      }
      if cfg.apiKey == [] {
        return Answer(500, "Server Error", "api key not found"), [];
      }
      var name := ContainerName(who.name, port);
      var request := CreateContainers(cfg.endpoint, cfg.apiKey, name, payload.value);
      if request.Raised? {
        return Unhandled(request.error), [];
      }
      r, sent := AfterCreate(who, cfg, port, name, request.value, created, started);
    }

    /** The create reply; on success the port row becomes "in use". */
    method AfterCreate(who: Identity, cfg: Config, port: int, name: string, request: HttpRequest,
                       created: BackendReply, started: BackendReply)
      returns (r: Response, sent: seq<HttpRequest>)
      requires port in ports
      modifies this
      ensures Outcome(r, Snapshot(), sent) == Lifecycle.AfterCreate(old(Snapshot()), who, cfg, port, name, request, created, started)
    {
      if created.NoConnection? {
        return Unhandled(RequestException), [request];
      }
      if ErrorStatus(created.status) {
        return Answer(501, "Server Error", "could not create container  -> no response " + created.text), [request];
      }
      if created.status !in Accepted || created.id.None? {
        return Answer(500, "Server Error", "could not create container -> status_code " + Text.IntToString(created.status)), [request];
      }
      if port == 0 {
        return Answer(500, "Server Error", "port was not assinged before container creation"), [request];
      }
      ports := ports[port := ports[port].(status := InUse)];
      r, sent := AfterStart(who, cfg, port, name, created.id.value, request, started);
    }

    /** The start request and reply; on success the Containers row is added. */
    method AfterStart(who: Identity, cfg: Config, port: int, name: string, containerId: string,
                      createRequest: HttpRequest, started: BackendReply)
      returns (r: Response, sent: seq<HttpRequest>)
      modifies this
      ensures Outcome(r, Snapshot(), sent) == Lifecycle.AfterStart(old(Snapshot()), who, cfg, port, name, containerId, createRequest, started)
    {
      var request := StartContainer(Some(cfg.endpoint), cfg.apiKey, containerId);
      if request.Raised? {
        return Unhandled(request.error), [createRequest];
      }
      sent := [createRequest, request.value];
      if started.NoConnection? {
        return Unhandled(RequestException), sent;
      }
      if ErrorStatus(started.status) {
        return Unhandled(HTTPError), sent;
      }
      if started.status !in Accepted {
        return Answer(500, "Server Error", "could not start container -> status_code " + Text.IntToString(started.status)), sent;
      }
      var connection := Connection(cfg.ip, port);
      containers := containers[who.uid := ContainerRow(who.cid, who.uid, name, containerId, connection)];
      r := Reply(200, map["status" := "success", "connection" := connection]);
    }

    /** `delete`: the lookup, the port read back from the connection, the
        self-heal of a missing Ports row, the delete request, the port
        closed. The Containers row stays. */
    method Delete(h: map<string, string>, cfg: Config, deleted: BackendReply)
      returns (r: Response, sent: seq<HttpRequest>)
      modifies this
      ensures Outcome(r, Snapshot(), sent) == Teardown(old(Snapshot()), h, cfg, deleted)
    {
      var admitted := Admission(h);
      if admitted.Failure? {
        return admitted.error, [];
      }
      r, sent := Release(admitted.value, cfg, deleted);
    }

    /** `delete` once the caller is admitted, up to the self-heal. */
    method Release(who: Identity, cfg: Config, deleted: BackendReply)
      returns (r: Response, sent: seq<HttpRequest>)
      modifies this
      ensures Outcome(r, Snapshot(), sent) == Lifecycle.Release(old(Snapshot()), who, cfg, deleted)
    {
      if who.uid !in containers {
        return Answer(404, "status", "User has  no contaier running "), [];
      }
      if cfg.apiKey == [] {
        return Answer(500, "Server Error", "api key not found"), [];
      }
      var row := containers[who.uid];
      var text := PortText(row.connection);
      if text.None? {
        return Unhandled(IndexError), [];
      }
      var parsed := Text.ParseInt(text.value);
      if parsed.None? {
        return Unhandled(ValueError("port")), [];
      }
      var port := parsed.value;
      if port !in ports {
        ports := ports[port := PortRow(who.uid, Closing)];
      }
      r, sent := Remove(cfg, port, row.containerId, deleted);
    }

    /** The delete request and its reply. */
    method Remove(cfg: Config, port: int, containerId: string, deleted: BackendReply)
      returns (r: Response, sent: seq<HttpRequest>)
      requires port in ports
      modifies this
      ensures Outcome(r, Snapshot(), sent) == Lifecycle.Remove(old(Snapshot()), cfg, port, containerId, deleted)
    {
      var request := DeleteContainers(cfg.endpoint, cfg.apiKey, containerId);
      if request.Raised? {
        return Unhandled(request.error), [];
      }
      sent := [request.value];
      if deleted.NoConnection? {
        return Unhandled(RequestException), sent;
      }
      if deleted.status in DeleteFailures {
        return Answer(500, "error", "could not delete container response -> " + Text.IntToString(deleted.status)), sent;
      }
      ports := ports[port := ports[port].(status := Closed)];
      r := Answer(200, "status", "container deleted");
    }
  }
}
