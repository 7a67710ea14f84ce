/** What the instance handlers guarantee, and fail to guarantee, about the
    tables: the guard order, the port reservation, the state after a
    successful provisioning, the port row left behind by every failure
    after it, the teardown's effect, and what a provision followed by a
    teardown leaves behind. */
module LifecycleProps {
  import opened Py
  import opened Text
  import opened Http
  import opened Headers
  import opened Portainer
  import opened Lifecycle

  predicate IsSuccess(r: Response) {
    r.Reply? && r.code == 200
  }

  /** The create reply the handler goes on from. */
  predicate CreateAccepted(created: BackendReply) {
    created.Answered? && created.status in Accepted && created.id.Some?
  }

  /** The other three tables are read, never written. */
  predicate SameReadOnly(t: Tables, t': Tables) {
    t'.users == t.users && t'.challenges == t.challenges && t'.solves == t.solves
  }

  /** After a port row exists: only a fully successful create and start
      adds a Containers row, the port goes to "in use" only once the create
      reply is accepted, and otherwise the row stays as reserved. */
  lemma {:induction false} LaunchEffect(t: Tables, who: Identity, cfg: Config, port: int,
                                         created: BackendReply, started: BackendReply)
    requires port in t.ports
    ensures var o := Launch(t, who, cfg, port, created, started);
      && SameReadOnly(t, o.tables)
      && (IsSuccess(o.response) ==>
            && CreateAccepted(created)
            && o.tables.ports == t.ports[port := t.ports[port].(status := InUse)]
            && o.tables.containers == t.containers[who.uid := ContainerRow(who.cid, who.uid, ContainerName(who.name, port),
                                                                           created.id.value, Connection(cfg.ip, port))]
            && o.response == Reply(200, map["status" := "success", "connection" := Connection(cfg.ip, port)])
            && |o.sent| == 2)
      && (!IsSuccess(o.response) ==> o.tables.containers == t.containers)
      && (o.sent != [] && CreateAccepted(created) && port != 0 ==>
            o.tables.ports == t.ports[port := t.ports[port].(status := InUse)])
      && (!(o.sent != [] && CreateAccepted(created) && port != 0) ==> o.tables.ports == t.ports)
  {
    var o := Launch(t, who, cfg, port, created, started);
    LaunchCases(t, who, cfg, port, created, started);
    if o.sent != [] {
      AfterCreateEffect(t, who, cfg, port, ContainerName(who.name, port), o.sent[0], created, started);
    }
  }

  /** The launch either stops before the create request, with nothing
      written or sent, or goes on to the create reply. */
  lemma LaunchCases(t: Tables, who: Identity, cfg: Config, port: int, created: BackendReply, started: BackendReply)
    requires port in t.ports
    ensures var o := Launch(t, who, cfg, port, created, started);
      && (o.sent == [] ==> o.tables == t && !IsSuccess(o.response) && o.response != Spinning)
      && (o.sent != [] ==> o == AfterCreate(t, who, cfg, port, ContainerName(who.name, port), o.sent[0], created, started))
  {
    match ImageId(cfg.images, who.challengeText)
    case Raised(_) =>
    case Returned(image) =>
      if image.Some? && image.value != [] {
        match Payload(port, image.value, cfg.template)
        case Raised(_) =>
        case Returned(payload) =>
          if payload.Some? && Truthy(payload.value) && cfg.apiKey != [] {
            var name := ContainerName(who.name, port);
            match CreateContainers(cfg.endpoint, cfg.apiKey, name, payload)
            case Raised(_) =>
            case Returned(request) =>
              CreateRequestFirst(t, who, cfg, port, name, request, created, started);
          }
      }
  }

  /** The create request is the first request sent once it was built. */
  lemma CreateRequestFirst(t: Tables, who: Identity, cfg: Config, port: int, name: string,
                           request: HttpRequest, created: BackendReply, started: BackendReply)
    requires port in t.ports
    ensures var o := AfterCreate(t, who, cfg, port, name, request, created, started);
      o.sent != [] && o.sent[0] == request
  {
    if CreateAccepted(created) && port != 0 {
      var inUse := t.(ports := t.ports[port := t.ports[port].(status := InUse)]);
      AfterStartEffect(inUse, who, cfg, port, name, created.id.value, request, started);
    } else {
      CreateRefused(t, who, cfg, port, name, request, created, started);
    }
  }

  lemma AfterCreateEffect(t: Tables, who: Identity, cfg: Config, port: int, name: string,
                          request: HttpRequest, created: BackendReply, started: BackendReply)
    requires port in t.ports
    requires name == ContainerName(who.name, port)
    ensures var o := AfterCreate(t, who, cfg, port, name, request, created, started);
      && SameReadOnly(t, o.tables)
      && (IsSuccess(o.response) ==>
            && CreateAccepted(created)
            && o.tables.ports == t.ports[port := t.ports[port].(status := InUse)]
            && o.tables.containers == t.containers[who.uid := ContainerRow(who.cid, who.uid, name,
                                                                           created.id.value, Connection(cfg.ip, port))]
            && o.response == Reply(200, map["status" := "success", "connection" := Connection(cfg.ip, port)])
            && |o.sent| == 2)
      && (!IsSuccess(o.response) ==> o.tables.containers == t.containers)
      && o.sent != [] && o.sent[0] == request
      && (CreateAccepted(created) && port != 0 ==>
            o.tables.ports == t.ports[port := t.ports[port].(status := InUse)])
      && (!(CreateAccepted(created) && port != 0) ==> o.tables == t)
      && (created.Answered? && ErrorStatus(created.status) ==> o.response.Reply? && o.response.code == 501)
      && (created.Answered? && !ErrorStatus(created.status) && (created.status !in Accepted || created.id.None?) ==>
            o.response.Reply? && o.response.code == 500)
  {
    if CreateAccepted(created) && port != 0 {
      var inUse := t.(ports := t.ports[port := t.ports[port].(status := InUse)]);
      assert AfterCreate(t, who, cfg, port, name, request, created, started)
          == AfterStart(inUse, who, cfg, port, name, created.id.value, request, started);
      AfterStartEffect(inUse, who, cfg, port, name, created.id.value, request, started);
    } else {
      CreateRefused(t, who, cfg, port, name, request, created, started);
    }
  }

  /** A create reply the handler does not go on from: the tables stay as
      they were, only the create request was sent, and the answer is a 501
      for a falsy reply and a 500 for an unaccepted status or a missing "Id". */
  lemma CreateRefused(t: Tables, who: Identity, cfg: Config, port: int, name: string,
                      request: HttpRequest, created: BackendReply, started: BackendReply)
    requires port in t.ports
    requires !(CreateAccepted(created) && port != 0)
    ensures var o := AfterCreate(t, who, cfg, port, name, request, created, started);
      && o.tables == t && o.sent == [request] && !IsSuccess(o.response) && o.response != Spinning
      && (created.Answered? && ErrorStatus(created.status) ==> o.response.Reply? && o.response.code == 501)
      && (created.Answered? && !ErrorStatus(created.status) && (created.status !in Accepted || created.id.None?) ==>
            o.response.Reply? && o.response.code == 500)
  {
    match created
    case NoConnection =>
    case Answered(status, text, id) =>
      if ErrorStatus(status) {
      } else if status !in Accepted || id.None? {
      } else {
        assert port == 0;
      }
  }

  lemma AfterStartEffect(t: Tables, who: Identity, cfg: Config, port: int, name: string, containerId: string,
                         createRequest: HttpRequest, started: BackendReply)
    ensures var o := AfterStart(t, who, cfg, port, name, containerId, createRequest, started);
      && SameReadOnly(t, o.tables) && o.tables.ports == t.ports
      && (IsSuccess(o.response) ==>
            && o.tables.containers == t.containers[who.uid := ContainerRow(who.cid, who.uid, name,
                                                                           containerId, Connection(cfg.ip, port))]
            && o.response == Reply(200, map["status" := "success", "connection" := Connection(cfg.ip, port)])
            && |o.sent| == 2)
      && (!IsSuccess(o.response) ==> o.tables.containers == t.containers)
      && o.sent != [] && o.sent[0] == createRequest
  {
    match StartContainer(Some(cfg.endpoint), cfg.apiKey, containerId)
    case Raised(e) =>
    case Returned(request) =>
      match started
      case NoConnection =>
      case Answered(status, _, _) =>
        if ErrorStatus(status) {
        } else if status !in Accepted {
          assert !IsSuccess(AfterStart(t, who, cfg, port, name, containerId, createRequest, started).response);
        } else {
        }
  }

  /** Validation and the credential check come first in all three handlers:
      when they refuse, nothing is read further, written or sent. */
  lemma AdmissionFirst(t: Tables, h: map<string, string>, cfg: Config, draws: seq<int>,
                       created: BackendReply, started: BackendReply, deleted: BackendReply)
    requires Admit(t.users, h).Failure?
    ensures var e := Admit(t.users, h).error;
      && e.Reply? && (e.code == 400 || e.code == 401 || e.code == 404)
      && StatusQuery(t, h) == e
      && Provision(t, h, cfg, draws, created, started) == Outcome(e, t, [])
      && Teardown(t, h, cfg, deleted) == Outcome(e, t, [])
  {
  }

  /** The provisioning guards, in order: no challenge 404, hidden 423, not
      "web" 400, already solved 429, a Containers row already there 409
      with its connection unchanged. Each leaves every table as it was,
      reserves no port and sends nothing. */
  lemma ProvisionGuards(t: Tables, who: Identity, cfg: Config, draws: seq<int>,
                        created: BackendReply, started: BackendReply)
    ensures var o := Provide(t, who, cfg, draws, created, started);
      && (who.cid !in t.challenges ==> o == Outcome(Answer(404, "status", "Challenge does not exist"), t, []))
      && (who.cid in t.challenges && t.challenges[who.cid].state == "hidden" ==>
            o == Outcome(Answer(423, "status", "Improper challengeid"), t, []))
      && (who.cid in t.challenges && t.challenges[who.cid].state != "hidden" && t.challenges[who.cid].category != "web" ==>
            o == Outcome(Answer(400, "status", "Improper request for challenge"), t, []))
      && (who.cid in t.challenges && t.challenges[who.cid].state != "hidden" && t.challenges[who.cid].category == "web"
          && Solved(t, who) ==>
            o == Outcome(Answer(429, "status", "User has already solved this challenge"), t, []))
      && (who.cid in t.challenges && t.challenges[who.cid].state != "hidden" && t.challenges[who.cid].category == "web"
          && !Solved(t, who) && who.uid in t.containers ==>
            && o.tables == t && o.sent == []
            && o.response.Reply? && o.response.code == 409
            && "connection_id" in o.response.body
            && o.response.body["connection_id"] == t.containers[who.uid].connection)
  {
    if Eligibility(t, who).Some? {
      RefusalKeepsTables(t, who, cfg, draws, created, started);
    }
  }

  lemma RefusalKeepsTables(t: Tables, who: Identity, cfg: Config, draws: seq<int>,
                           created: BackendReply, started: BackendReply)
    requires Eligibility(t, who).Some?
    ensures Provide(t, who, cfg, draws, created, started) == Outcome(Eligibility(t, who).value, t, [])
  {
  }

  /** The probe ends only on a port with no Ports row: while every draw is
      taken the handler is still drawing, and nothing has changed. */
  lemma ProvisionSpins(t: Tables, who: Identity, cfg: Config, draws: seq<int>,
                       created: BackendReply, started: BackendReply)
    requires Eligibility(t, who).None?
    ensures var o := Provide(t, who, cfg, draws, created, started);
      (o.response == Spinning) <==> (forall i :: 0 <= i < |draws| ==> draws[i] in t.ports)
    ensures var o := Provide(t, who, cfg, draws, created, started);
      o.response == Spinning ==> o.tables == t && o.sent == []
  {
    var r := FirstFree(draws, t.ports);
    if r.Some? {
      LaunchNeverSpins(t.(ports := t.ports[r.value := PortRow(who.uid, Open)]), who, cfg, r.value, created, started);
    }
  }

  lemma LaunchNeverSpins(t: Tables, who: Identity, cfg: Config, port: int, created: BackendReply, started: BackendReply)
    requires port in t.ports
    ensures Launch(t, who, cfg, port, created, started).response != Spinning
  {
    LaunchCases(t, who, cfg, port, created, started);
    var o := Launch(t, who, cfg, port, created, started);
    if o.sent != [] {
      AfterCreateNeverSpins(t, who, cfg, port, ContainerName(who.name, port), o.sent[0], created, started);
    }
  }

  lemma AfterCreateNeverSpins(t: Tables, who: Identity, cfg: Config, port: int, name: string,
                              request: HttpRequest, created: BackendReply, started: BackendReply)
    requires port in t.ports
    ensures AfterCreate(t, who, cfg, port, name, request, created, started).response != Spinning
  {
    if CreateAccepted(created) && port != 0 {
      var inUse := t.(ports := t.ports[port := t.ports[port].(status := InUse)]);
      AfterStartNeverSpins(inUse, who, cfg, port, name, created.id.value, request, started);
    } else {
      CreateRefused(t, who, cfg, port, name, request, created, started);
    }
  }

  lemma AfterStartNeverSpins(t: Tables, who: Identity, cfg: Config, port: int, name: string, containerId: string,
                             createRequest: HttpRequest, started: BackendReply)
    ensures AfterStart(t, who, cfg, port, name, containerId, createRequest, started).response != Spinning
  {
    match StartContainer(Some(cfg.endpoint), cfg.apiKey, containerId)
    case Raised(_) =>
    case Returned(_) =>
  }

  /** Whenever the handler gets past the guards and finds a port, that port
      is in [45000, 55000], had no Ports row of any status before, and ends
      with a row owned by the user: "in use" if the container was created,
      "open" otherwise. No other port row changes. */
  lemma {:induction false} ReservedPort(t: Tables, who: Identity, cfg: Config, draws: seq<int>,
                                         created: BackendReply, started: BackendReply)
    requires AllInRange(draws)
    requires Eligibility(t, who).None?
    requires FirstFree(draws, t.ports).Some?
    ensures var p := FirstFree(draws, t.ports).value;
      var o := Provide(t, who, cfg, draws, created, started);
      && InRange(p) && p !in t.ports
      && SameReadOnly(t, o.tables)
      && (|| o.tables.ports == t.ports[p := PortRow(who.uid, Open)]
          || o.tables.ports == t.ports[p := PortRow(who.uid, InUse)])
      && (o.tables.ports[p].status == InUse ==> CreateAccepted(created))
  {
    var p := FirstFree(draws, t.ports).value;
    var i :| 0 <= i < |draws| && draws[i] == p && p !in t.ports && forall j :: 0 <= j < i ==> draws[j] in t.ports;
    var reserved := t.(ports := t.ports[p := PortRow(who.uid, Open)]);
    assert Provide(t, who, cfg, draws, created, started) == Launch(reserved, who, cfg, p, created, started);
    LaunchEffect(reserved, who, cfg, p, created, started);
    assert reserved.ports[p].(status := InUse) == PortRow(who.uid, InUse);
    UpdateTwice(t.ports, p, PortRow(who.uid, Open), PortRow(who.uid, InUse));
  }

  /** A successful provisioning: the new port is "in use" and owned by the
      user, exactly one Containers row is added for the user, named
      "{Username}_{port}" with connection "{ip}:{port}", and the connection
      returned is the one stored. */
  lemma {:induction false} ProvisionSuccess(t: Tables, who: Identity, cfg: Config, draws: seq<int>,
                                             created: BackendReply, started: BackendReply)
    requires AllInRange(draws)
    requires IsSuccess(Provide(t, who, cfg, draws, created, started).response)
    ensures Eligibility(t, who).None? && FirstFree(draws, t.ports).Some? && CreateAccepted(created)
    ensures var p := FirstFree(draws, t.ports).value;
      var o := Provide(t, who, cfg, draws, created, started);
      && InRange(p) && p !in t.ports && who.uid !in t.containers
      && SameReadOnly(t, o.tables)
      && o.tables.ports == t.ports[p := PortRow(who.uid, InUse)]
      && o.tables.containers == t.containers[who.uid := ContainerRow(who.cid, who.uid, ContainerName(who.name, p),
                                                                     created.id.value, Connection(cfg.ip, p))]
      && o.response == Reply(200, map["status" := "success", "connection" := o.tables.containers[who.uid].connection])
      && |o.sent| == 2
  {
    assert Eligibility(t, who).None?;
    assert FirstFree(draws, t.ports).Some?;
    var p := FirstFree(draws, t.ports).value;
    var reserved := t.(ports := t.ports[p := PortRow(who.uid, Open)]);
    assert Provide(t, who, cfg, draws, created, started) == Launch(reserved, who, cfg, p, created, started);
    ReservedPort(t, who, cfg, draws, created, started);
    LaunchEffect(reserved, who, cfg, p, created, started);
    assert reserved.ports[p].(status := InUse) == PortRow(who.uid, InUse);
    UpdateTwice(t.ports, p, PortRow(who.uid, Open), PortRow(who.uid, InUse));
  }

  /** Every failure after the reservation creates no Containers row but
      leaves the port row behind: "open" when the create step failed
      (image, payload, key, a falsy or unaccepted reply, no "Id"), "in use"
      when the create reply was accepted and the start failed. */
  lemma {:induction false} FailureLeavesPort(t: Tables, who: Identity, cfg: Config, draws: seq<int>,
                                              created: BackendReply, started: BackendReply)
    requires Eligibility(t, who).None?
    requires FirstFree(draws, t.ports).Some?
    requires !IsSuccess(Provide(t, who, cfg, draws, created, started).response)
    ensures var p := FirstFree(draws, t.ports).value;
      var o := Provide(t, who, cfg, draws, created, started);
      && o.tables.containers == t.containers
      && p in o.tables.ports && o.tables.ports[p].owner == who.uid
      && (!CreateAccepted(created) ==> o.tables.ports == t.ports[p := PortRow(who.uid, Open)])
      && (CreateAccepted(created) && o.sent == [] ==> o.tables.ports == t.ports[p := PortRow(who.uid, Open)])
      && (AllInRange(draws) && CreateAccepted(created) && o.sent != [] ==>
            o.tables.ports == t.ports[p := PortRow(who.uid, InUse)])
  {
    var p := FirstFree(draws, t.ports).value;
    var reserved := t.(ports := t.ports[p := PortRow(who.uid, Open)]);
    assert Provide(t, who, cfg, draws, created, started) == Launch(reserved, who, cfg, p, created, started);
    if AllInRange(draws) {
      var i :| 0 <= i < |draws| && draws[i] == p;
      assert InRange(p) && p != 0;
    }
    LaunchEffect(reserved, who, cfg, p, created, started);
    assert reserved.ports[p].(status := InUse) == PortRow(who.uid, InUse);
    UpdateTwice(t.ports, p, PortRow(who.uid, Open), PortRow(who.uid, InUse));
  }

  /** Provisioning never alters a Ports row that already existed: the only
      row it writes is the fresh one. */
  lemma {:induction false} ProvisionKeepsPortRows(t: Tables, who: Identity, cfg: Config, draws: seq<int>,
                                                   created: BackendReply, started: BackendReply)
    ensures var o := Provide(t, who, cfg, draws, created, started);
      forall q :: q in t.ports ==> q in o.tables.ports && o.tables.ports[q] == t.ports[q]
  {
    if Eligibility(t, who).None? && FirstFree(draws, t.ports).Some? {
      var p := FirstFree(draws, t.ports).value;
      var reserved := t.(ports := t.ports[p := PortRow(who.uid, Open)]);
      assert Provide(t, who, cfg, draws, created, started) == Launch(reserved, who, cfg, p, created, started);
      LaunchEffect(reserved, who, cfg, p, created, started);
    }
  }

  // ---------------------------------------------------------------------
  // teardown

  /** The delete step: the Containers row and the read-only tables stay;
      only the given port may change, and only to "closed". */
  lemma RemoveEffect(t: Tables, cfg: Config, port: int, containerId: string, deleted: BackendReply)
    requires port in t.ports
    ensures var o := Remove(t, cfg, port, containerId, deleted);
      var sendable := DeleteContainers(cfg.endpoint, cfg.apiKey, containerId).Returned?;
      && o.tables.containers == t.containers && SameReadOnly(t, o.tables)
      && (IsSuccess(o.response) <==> sendable && deleted.Answered? && deleted.status !in DeleteFailures)
      && (IsSuccess(o.response) ==> o.tables.ports == t.ports[port := t.ports[port].(status := Closed)])
      && (!IsSuccess(o.response) ==> o.tables.ports == t.ports)
      && (sendable && deleted.Answered? && deleted.status in DeleteFailures ==>
            o.response.Reply? && o.response.code == 500)
  {
    match DeleteContainers(cfg.endpoint, cfg.apiKey, containerId)
    case Raised(_) =>
    case Returned(_) =>
      match deleted
      case NoConnection =>
      case Answered(status, _, _) =>
        if status in DeleteFailures {
          assert !IsSuccess(Remove(t, cfg, port, containerId, deleted).response);
        }
  }

  /** The port a container row points at. */
  function RowPort(row: ContainerRow): Option<int> {
    var text := PortText(row.connection);
    if text.None? then None else ParseInt(text.value)
  }

  /** The teardown never removes the Containers row and never touches the
      read-only tables. */
  lemma {:induction false} TeardownKeepsContainers(t: Tables, who: Identity, cfg: Config, deleted: BackendReply)
    ensures var o := Release(t, who, cfg, deleted);
      o.tables.containers == t.containers && SameReadOnly(t, o.tables)
  {
    if who.uid in t.containers && cfg.apiKey != [] && RowPort(t.containers[who.uid]).Some? {
      var row := t.containers[who.uid];
      var p := RowPort(row).value;
      var healed := if p in t.ports then t else t.(ports := t.ports[p := PortRow(who.uid, Closing)]);
      ReleaseReachesRemove(t, who, cfg, deleted);
      RemoveEffect(healed, cfg, p, row.containerId, deleted);
    } else {
      ReleaseRefusalKeepsTables(t, who, cfg, deleted);
    }
  }

  /** Without a container, a key or a readable port the teardown writes
      nothing and sends nothing. */
  lemma ReleaseRefusalKeepsTables(t: Tables, who: Identity, cfg: Config, deleted: BackendReply)
    requires !(who.uid in t.containers && cfg.apiKey != [] && RowPort(t.containers[who.uid]).Some?)
    ensures Release(t, who, cfg, deleted).tables == t && Release(t, who, cfg, deleted).sent == []
  {
    if who.uid in t.containers && cfg.apiKey != [] {
      match PortText(t.containers[who.uid].connection)
      case None =>
      case Some(text) =>
    }
  }

  /** The teardown once the user has a container: the port is the text after
      ":" in the connection; a missing Ports row is first inserted as
      "closing" for the user; a delete status in {400, 404, 409, 500} is a
      500 that leaves the port as it is; any other status closes it. */
  lemma {:induction false} TeardownEffect(t: Tables, who: Identity, cfg: Config, deleted: BackendReply)
    requires who.uid in t.containers && cfg.apiKey != []
    requires RowPort(t.containers[who.uid]).Some?
    ensures var row := t.containers[who.uid];
      var p := RowPort(row).value;
      var before := if p in t.ports then t.ports[p] else PortRow(who.uid, Closing);
      var o := Release(t, who, cfg, deleted);
      var sendable := DeleteContainers(cfg.endpoint, cfg.apiKey, row.containerId).Returned?;
      && (IsSuccess(o.response) <==> sendable && deleted.Answered? && deleted.status !in DeleteFailures)
      && (IsSuccess(o.response) ==> o.tables.ports == t.ports[p := before.(status := Closed)])
      && (!IsSuccess(o.response) ==> o.tables.ports == t.ports[p := before])
      && (sendable && deleted.Answered? && deleted.status in DeleteFailures ==>
            o.response.Reply? && o.response.code == 500)
  {
    ReleaseReachesRemove(t, who, cfg, deleted);
    HealedRemoveEffect(t, who.uid, cfg, RowPort(t.containers[who.uid]).value, t.containers[who.uid].containerId, deleted);
  }

  /** The delete step on the tables healed for port `p`, stated against the
      tables before the heal. */
  lemma HealedRemoveEffect(t: Tables, uid: int, cfg: Config, p: int, containerId: string, deleted: BackendReply)
    ensures var before := if p in t.ports then t.ports[p] else PortRow(uid, Closing);
      var healed := if p in t.ports then t else t.(ports := t.ports[p := PortRow(uid, Closing)]);
      var o := Remove(healed, cfg, p, containerId, deleted);
      var sendable := DeleteContainers(cfg.endpoint, cfg.apiKey, containerId).Returned?;
      && (IsSuccess(o.response) <==> sendable && deleted.Answered? && deleted.status !in DeleteFailures)
      && (IsSuccess(o.response) ==> o.tables.ports == t.ports[p := before.(status := Closed)])
      && (!IsSuccess(o.response) ==> o.tables.ports == t.ports[p := before])
      && (sendable && deleted.Answered? && deleted.status in DeleteFailures ==>
            o.response.Reply? && o.response.code == 500)
  {
    var before := if p in t.ports then t.ports[p] else PortRow(uid, Closing);
    var healed := if p in t.ports then t else t.(ports := t.ports[p := PortRow(uid, Closing)]);
    assert healed.ports == t.ports[p := before] by {
      if p in t.ports { assert t.ports[p := t.ports[p]] == t.ports; }
    }
    UpdateTwice(t.ports, p, before, before.(status := Closed));
    RemoveEffect(healed, cfg, p, containerId, deleted);
  }

  /** With a container, a key and a readable port, the teardown is the
      delete step on the healed tables. */
  lemma ReleaseReachesRemove(t: Tables, who: Identity, cfg: Config, deleted: BackendReply)
    requires who.uid in t.containers && cfg.apiKey != []
    requires RowPort(t.containers[who.uid]).Some?
    ensures var row := t.containers[who.uid];
      var p := RowPort(row).value;
      var healed := if p in t.ports then t else t.(ports := t.ports[p := PortRow(who.uid, Closing)]);
      Release(t, who, cfg, deleted) == Remove(healed, cfg, p, row.containerId, deleted)
  {
    var row := t.containers[who.uid];
    match PortText(row.connection)
    case Some(text) =>
      match ParseInt(text)
      case Some(p) =>
  }

  /** Without a Containers row the teardown is a 404 that changes nothing. */
  lemma TeardownWithoutContainer(t: Tables, who: Identity, cfg: Config, deleted: BackendReply)
    requires who.uid !in t.containers
    ensures Release(t, who, cfg, deleted) == Outcome(Answer(404, "status", "User has  no contaier running "), t, [])
  {
  }

  /** The teardown writes at most one Ports row, that of the container's
      port; any row that already existed either stays or becomes "closed". */
  lemma {:induction false} TeardownKeepsOtherPorts(t: Tables, who: Identity, cfg: Config, deleted: BackendReply)
    ensures var o := Release(t, who, cfg, deleted);
      forall q :: q in t.ports ==>
        (q in o.tables.ports && (o.tables.ports[q] == t.ports[q] || o.tables.ports[q] == t.ports[q].(status := Closed)))
  {
    if who.uid in t.containers && cfg.apiKey != [] && RowPort(t.containers[who.uid]).Some? {
      var p := RowPort(t.containers[who.uid]).value;
      var before := if p in t.ports then t.ports[p] else PortRow(who.uid, Closing);
      TeardownEffect(t, who, cfg, deleted);
      ClosesAtMostOne(t.ports, before, Release(t, who, cfg, deleted).tables.ports, p);
    } else {
      ReleaseRefusalKeepsTables(t, who, cfg, deleted);
    }
  }

  lemma ClosesAtMostOne(before: map<int, PortRow>, row: PortRow, after: map<int, PortRow>, p: int)
    requires p in before ==> row == before[p]
    requires after == before[p := row] || after == before[p := row.(status := Closed)]
    ensures forall q :: q in before ==>
      (q in after && (after[q] == before[q] || after[q] == before[q].(status := Closed)))
  {
  }

  /** A "closed" port stays closed whatever request comes next: no handler
      reopens it, and the probe never picks it again. */
  lemma {:induction false} ClosedIsFinal(t: Tables, h: map<string, string>, cfg: Config, draws: seq<int>,
                                          created: BackendReply, started: BackendReply, deleted: BackendReply, q: int)
    requires q in t.ports && t.ports[q].status == Closed
    ensures var o := Provision(t, h, cfg, draws, created, started);
      q in o.tables.ports && o.tables.ports[q].status == Closed
    ensures var o := Teardown(t, h, cfg, deleted);
      q in o.tables.ports && o.tables.ports[q].status == Closed
  {
    match Admit(t.users, h)
    case Failure(_) =>
    case Success(who) =>
      ProvisionKeepsPortRows(t, who, cfg, draws, created, started);
      TeardownKeepsOtherPorts(t, who, cfg, deleted);
  }

  // ---------------------------------------------------------------------
  // provision, then status, then teardown

  /** The port text of a connection built by the handler reads back as the
      port when the configured address holds no ":". */
  lemma {:induction false} ConnectionReadsBack(ip: string, port: int)
    requires ':' !in ip && DigitCount(port) <= MaxStrDigits
    ensures PortText(Connection(ip, port)) == Some(IntToString(port))
    ensures RowPort(ContainerRow(0, 0, "", "", Connection(ip, port))) == Some(port)
  {
    var digits := IntToString(port);
    assert ':' !in digits by {
      if port < 0 {
        assert digits == "-" + NatToString(-port);
      }
    }
    assert Connection(ip, port) == ip + [':'] + digits;
    SplitAfterFirst(ip, ':', digits);
    ParseIntOfIntToString(port);
  }

  /** A successful provisioning passed every argument guard of the requests:
      a non-empty key and endpoint and a non-empty container id. */
  lemma {:induction false} ProvisionSentRequests(t: Tables, who: Identity, cfg: Config, draws: seq<int>,
                                                  created: BackendReply, started: BackendReply)
    requires AllInRange(draws)
    requires IsSuccess(Provide(t, who, cfg, draws, created, started).response)
    ensures cfg.apiKey != [] && cfg.endpoint != [] && created.Answered? && created.id.Some? && created.id.value != []
  {
    ProvisionSuccess(t, who, cfg, draws, created, started);
    var p := FirstFree(draws, t.ports).value;
    var reserved := t.(ports := t.ports[p := PortRow(who.uid, Open)]);
    assert Provide(t, who, cfg, draws, created, started) == Launch(reserved, who, cfg, p, created, started);
    LaunchSuccessGuards(reserved, who, cfg, p, created, started);
  }

  /** A successful launch passed the create and start request guards. */
  lemma LaunchSuccessGuards(t: Tables, who: Identity, cfg: Config, port: int, created: BackendReply, started: BackendReply)
    requires port in t.ports
    requires IsSuccess(Launch(t, who, cfg, port, created, started).response)
    ensures cfg.apiKey != [] && cfg.endpoint != [] && created.Answered? && created.id.Some? && created.id.value != []
  {
    match ImageId(cfg.images, who.challengeText)
    case Raised(_) =>
    case Returned(image) =>
      if image.Some? && image.value != [] {
        match Payload(port, image.value, cfg.template)
        case Raised(_) =>
        case Returned(payload) =>
          if payload.Some? && Truthy(payload.value) && cfg.apiKey != [] {
            var name := ContainerName(who.name, port);
            match CreateContainers(cfg.endpoint, cfg.apiKey, name, payload)
            case Raised(_) =>
            case Returned(request) =>
              AfterCreateSuccessGuards(t, who, cfg, port, name, request, created, started);
          }
      }
  }

  lemma AfterCreateSuccessGuards(t: Tables, who: Identity, cfg: Config, port: int, name: string,
                                 request: HttpRequest, created: BackendReply, started: BackendReply)
    requires port in t.ports
    requires IsSuccess(AfterCreate(t, who, cfg, port, name, request, created, started).response)
    ensures created.Answered? && created.id.Some? && created.id.value != []
  {
    match created
    case NoConnection =>
    case Answered(status, text, id) =>
      if !ErrorStatus(status) && status in Accepted && id.Some? && port != 0 {
        assert StartContainer(Some(cfg.endpoint), cfg.apiKey, id.value).Returned?;
      }
  }

  /** The user's container row points at port `p`, and every request guard
      of the teardown passes. */
  predicate Deletable(t: Tables, who: Identity, cfg: Config, p: int) {
    && who.uid in t.containers && RowPort(t.containers[who.uid]) == Some(p)
    && cfg.apiKey != [] && cfg.endpoint != [] && t.containers[who.uid].containerId != []
  }

  /** The teardown of a row whose port has a Ports row, when every request
      guard passes and the backend accepts: the port is closed and nothing
      else changes. */
  lemma ReleaseClosesPort(t: Tables, who: Identity, cfg: Config, p: int, deleted: BackendReply)
    requires Deletable(t, who, cfg, p) && p in t.ports
    requires deleted.Answered? && deleted.status !in DeleteFailures
    ensures var o := Release(t, who, cfg, deleted);
      && o.response == Answer(200, "status", "container deleted")
      && o.tables == t.(ports := t.ports[p := t.ports[p].(status := Closed)])
  {
    ReleaseReachesRemove(t, who, cfg, deleted);
    RemoveAccepted(t, cfg, p, t.containers[who.uid].containerId, deleted);
  }

  /** The same teardown when the port was reserved by the user on top of
      the Ports table `t.ports`: the port ends "closed" for that user. */
  lemma ReleaseKnownPort(t: Tables, t1: Tables, who: Identity, cfg: Config, p: int, deleted: BackendReply)
    requires t1.ports == t.ports[p := PortRow(who.uid, InUse)] && Deletable(t1, who, cfg, p)
    requires deleted.Answered? && deleted.status !in DeleteFailures
    ensures var o := Release(t1, who, cfg, deleted);
      && o.response == Answer(200, "status", "container deleted")
      && o.tables == t1.(ports := t.ports[p := PortRow(who.uid, Closed)])
  {
    ReleaseClosesPort(t1, who, cfg, p, deleted);
    assert t1.ports[p].(status := Closed) == PortRow(who.uid, Closed);
    UpdateTwice(t.ports, p, PortRow(who.uid, InUse), PortRow(who.uid, Closed));
  }

  lemma UpdateTwice(m: map<int, PortRow>, p: int, a: PortRow, b: PortRow)
    ensures m[p := a][p := b] == m[p := b]
  {
  }

  /** A delete request that can be built and that the backend accepts
      closes the port and answers "container deleted". */
  lemma RemoveAccepted(t: Tables, cfg: Config, p: int, containerId: string, deleted: BackendReply)
    requires p in t.ports
    requires cfg.apiKey != [] && cfg.endpoint != [] && containerId != []
    requires deleted.Answered? && deleted.status !in DeleteFailures
    ensures Remove(t, cfg, p, containerId, deleted).response == Answer(200, "status", "container deleted")
    ensures Remove(t, cfg, p, containerId, deleted).tables == t.(ports := t.ports[p := t.ports[p].(status := Closed)])
  {
    assert DeleteContainers(cfg.endpoint, cfg.apiKey, containerId).Returned?;
  }

  /** The status query of an admitted user, unfolded. */
  lemma StatusOf(t: Tables, h: map<string, string>, who: Identity)
    requires Admit(t.users, h) == Success(who)
    ensures who.uid in t.containers ==> StatusQuery(t, h) == Answer(200, "connection", t.containers[who.uid].connection)
    ensures who.uid !in t.containers ==> StatusQuery(t, h) == Answer(404, "error", "User does not have a container")
  {
  }

  /** What the teardown needs from a successful provisioning: the stored
      row reads back as the reserved port, and every request guard passes. */
  lemma {:induction false} ProvisionedRow(t: Tables, who: Identity, cfg: Config, draws: seq<int>,
                                           created: BackendReply, started: BackendReply)
    requires AllInRange(draws) && ':' !in cfg.ip
    requires IsSuccess(Provide(t, who, cfg, draws, created, started).response)
    ensures FirstFree(draws, t.ports).Some?
    ensures var p := FirstFree(draws, t.ports).value;
      var t1 := Provide(t, who, cfg, draws, created, started).tables;
      && SameReadOnly(t, t1)
      && t1.ports == t.ports[p := PortRow(who.uid, InUse)]
      && Deletable(t1, who, cfg, p)
  {
    ProvisionSuccess(t, who, cfg, draws, created, started);
    ProvisionSentRequests(t, who, cfg, draws, created, started);
    var p := FirstFree(draws, t.ports).value;
    var row := Provide(t, who, cfg, draws, created, started).tables.containers[who.uid];
    assert Pow10(5) == 100000;
    NatToStringLength(p, 5);
    ConnectionReadsBack(cfg.ip, p);
    assert RowPort(row) == RowPort(ContainerRow(0, 0, "", "", Connection(cfg.ip, p)));
  }

  /** After a successful provisioning the status query returns the stored
      connection "{ip}:{port}". */
  lemma {:induction false} ProvisionThenStatus(t: Tables, h: map<string, string>, who: Identity, cfg: Config,
                                                draws: seq<int>, created: BackendReply, started: BackendReply)
    requires Admit(t.users, h) == Success(who)
    requires AllInRange(draws)
    requires IsSuccess(Provision(t, h, cfg, draws, created, started).response)
    ensures FirstFree(draws, t.ports).Some?
    ensures var o1 := Provision(t, h, cfg, draws, created, started);
      StatusQuery(o1.tables, h) == Answer(200, "connection", Connection(cfg.ip, FirstFree(draws, t.ports).value))
  {
    var o1 := Provision(t, h, cfg, draws, created, started);
    assert o1 == Provide(t, who, cfg, draws, created, started);
    ProvisionSuccess(t, who, cfg, draws, created, started);
    StatusOf(o1.tables, h, who);
  }

  /** A teardown the backend accepts, after a successful provisioning,
      closes the port but leaves the Containers row, so the status query
      still reports the deleted container's connection. */
  lemma {:induction false} ProvisionThenTeardown(t: Tables, h: map<string, string>, who: Identity, cfg: Config,
                                                  draws: seq<int>, created: BackendReply, started: BackendReply,
                                                  deleted: BackendReply)
    requires Admit(t.users, h) == Success(who)
    requires AllInRange(draws) && ':' !in cfg.ip
    requires IsSuccess(Provision(t, h, cfg, draws, created, started).response)
    requires deleted.Answered? && deleted.status !in DeleteFailures
    ensures FirstFree(draws, t.ports).Some?
    ensures var p := FirstFree(draws, t.ports).value;
      var o1 := Provision(t, h, cfg, draws, created, started);
      var o2 := Teardown(o1.tables, h, cfg, deleted);
      && o2.response == Answer(200, "status", "container deleted")
      && o2.tables.ports == t.ports[p := PortRow(who.uid, Closed)]
      && o2.tables.containers == o1.tables.containers
      && StatusQuery(o2.tables, h) == StatusQuery(o1.tables, h)
  {
    var o1 := Provision(t, h, cfg, draws, created, started);
    assert o1 == Provide(t, who, cfg, draws, created, started);
    ProvisionedRow(t, who, cfg, draws, created, started);
    var p := FirstFree(draws, t.ports).value;
    var t1 := o1.tables;
    ReleaseKnownPort(t, t1, who, cfg, p, deleted);
    var o2 := Teardown(t1, h, cfg, deleted);
    assert o2 == Release(t1, who, cfg, deleted);
    StatusOf(t1, h, who);
    StatusOf(o2.tables, h, who);
  }

  /** Because the teardown leaves the Containers row, the same user can
      never provision again: after a provision and a teardown the next
      provision is a 409 carrying the old connection. */
  lemma {:induction false} NoSecondInstance(t: Tables, h: map<string, string>, who: Identity, cfg: Config,
                                             draws: seq<int>, created: BackendReply, started: BackendReply,
                                             deleted: BackendReply,
                                             draws2: seq<int>, created2: BackendReply, started2: BackendReply)
    requires Admit(t.users, h) == Success(who)
    requires AllInRange(draws) && ':' !in cfg.ip
    requires IsSuccess(Provision(t, h, cfg, draws, created, started).response)
    requires deleted.Answered? && deleted.status !in DeleteFailures
    ensures FirstFree(draws, t.ports).Some?
    ensures var o1 := Provision(t, h, cfg, draws, created, started);
      var o2 := Teardown(o1.tables, h, cfg, deleted);
      var o3 := Provision(o2.tables, h, cfg, draws2, created2, started2);
      && o3.response.Reply? && o3.response.code == 409
      && "connection_id" in o3.response.body
      && o3.response.body["connection_id"] == Connection(cfg.ip, FirstFree(draws, t.ports).value)
      && o3.tables == o2.tables
  {
    ProvisionThenTeardown(t, h, who, cfg, draws, created, started, deleted);
    var o1 := Provision(t, h, cfg, draws, created, started);
    assert o1 == Provide(t, who, cfg, draws, created, started);
    ProvisionSuccess(t, who, cfg, draws, created, started);
    var o2 := Teardown(o1.tables, h, cfg, deleted);
    assert o2 == Release(o1.tables, who, cfg, deleted);
    TeardownKeepsContainers(o1.tables, who, cfg, deleted);
    assert Admit(o2.tables.users, h) == Success(who);
    var o3 := Provision(o2.tables, h, cfg, draws2, created2, started2);
    assert o3 == Provide(o2.tables, who, cfg, draws2, created2, started2);
    assert !Solved(o2.tables, who);
    ProvisionGuards(o2.tables, who, cfg, draws2, created2, started2);
  }

  /** Two provisionings in a row cannot hand out the same port: the second
      probe skips every port that has a row, and the first left one. */
  lemma {:induction false} SuccessivePortsDiffer(t: Tables, who1: Identity, who2: Identity, cfg: Config,
                                                  draws1: seq<int>, draws2: seq<int>,
                                                  created1: BackendReply, started1: BackendReply,
                                                  created2: BackendReply, started2: BackendReply)
    requires AllInRange(draws1) && AllInRange(draws2)
    requires IsSuccess(Provide(t, who1, cfg, draws1, created1, started1).response)
    requires IsSuccess(Provide(Provide(t, who1, cfg, draws1, created1, started1).tables, who2, cfg, draws2, created2, started2).response)
    ensures var o1 := Provide(t, who1, cfg, draws1, created1, started1);
      && FirstFree(draws1, t.ports).Some? && FirstFree(draws2, o1.tables.ports).Some?
      && FirstFree(draws1, t.ports).value != FirstFree(draws2, o1.tables.ports).value
  {
    var o1 := Provide(t, who1, cfg, draws1, created1, started1);
    ProvisionSuccess(t, who1, cfg, draws1, created1, started1);
    ProvisionSuccess(o1.tables, who2, cfg, draws2, created2, started2);
  }
}
