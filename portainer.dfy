/** The client side of the container-management backend (CTFd/portainer.py):
    the creation payload built from a JSON template, the challenge-to-image
    lookup, and the requests that create, start and delete a container.
    Reading the environment and the two JSON files is replaced by the values
    they would yield; sending a request is left to the caller, which
    receives the request that would be sent. */
module Portainer {
  import opened Py
  import opened Text

  /** A JSON document as `json.load` produces it (numbers are integers here). */
  datatype Json =
    | JNull
    | JBool(b: bool)
    | JNum(n: int)
    | JStr(s: string)
    | JArr(items: seq<Json>)
    | JObj(fields: map<string, Json>)

  /** Python truthiness of a loaded JSON value. */
  predicate Truthy(j: Json) {
    match j
    case JNull => false
    case JBool(b) => b
    case JNum(n) => n != 0
    case JStr(s) => s != []
    case JArr(items) => items != []
    case JObj(fields) => fields != map[]
  }

  /** What opening and parsing a configured JSON file yields. */
  datatype JsonFile = FileMissing | FileMalformed | Loaded(doc: Json)

  /** The image map file: challenge id text to image id. Only string values
      are modelled. `MapNotObject` is a file that loads as a JSON value other
      than an object (a list, a string, a number, a boolean or null). */
  datatype ImageFile = MapMissing | MapMalformed | MapNotObject | MapLoaded(images: map<string, string>)

  // ---------------------------------------------------------------------
  // payload(port, image)

  const ImageKey := "Image"
  const HostConfigKey := "HostConfig"
  const PortBindingsKey := "PortBindings"
  const TcpKey := "80/tcp"
  const HostPortKey := "HostPort"

  /** The template has the entry `HostConfig.PortBindings["80/tcp"][0]`
      as an object, which is where the host port goes. */
  predicate HasBinding(root: map<string, Json>) {
    && HostConfigKey in root && root[HostConfigKey].JObj?
    && PortBindingsKey in root[HostConfigKey].fields
    && root[HostConfigKey].fields[PortBindingsKey].JObj?
    && TcpKey in root[HostConfigKey].fields[PortBindingsKey].fields
    && root[HostConfigKey].fields[PortBindingsKey].fields[TcpKey].JArr?
    && |root[HostConfigKey].fields[PortBindingsKey].fields[TcpKey].items| > 0
    && root[HostConfigKey].fields[PortBindingsKey].fields[TcpKey].items[0].JObj?
  }

  /** The binding entry of a template that has one. */
  function BindingEntry(root: map<string, Json>): map<string, Json>
    requires HasBinding(root)
  {
    root[HostConfigKey].fields[PortBindingsKey].fields[TcpKey].items[0].fields
  }

  /** The assignment `root["HostConfig"]["PortBindings"]["80/tcp"][0]["HostPort"] = hostPort`,
      with the exception each step raises when the template lacks it: a
      missing key is a KeyError, a value of the wrong kind a TypeError, an
      empty list an IndexError (and `x[0]` on a JSON object, whose keys are
      strings, a KeyError). */
  function BindHostPort(root: map<string, Json>, hostPort: string): (r: Raises<map<string, Json>>)
    ensures r.Returned? <==> HasBinding(root)
    ensures r.Returned? ==> r.value.Keys == root.Keys && HasBinding(r.value)
    ensures r.Returned? ==> BindingEntry(r.value) == BindingEntry(root)[HostPortKey := JStr(hostPort)]
    ensures r.Returned? ==> forall k :: k in root && k != HostConfigKey ==> r.value[k] == root[k]
  {
    if HostConfigKey !in root then Raised(KeyError)
    else
      var hc := root[HostConfigKey];
      if !hc.JObj? then Raised(TypeError)
      else if PortBindingsKey !in hc.fields then Raised(KeyError)
      else
        var pb := hc.fields[PortBindingsKey];
        if !pb.JObj? then Raised(TypeError)
        else if TcpKey !in pb.fields then Raised(KeyError)
        else
          match pb.fields[TcpKey]
          case JArr(items) =>
            if |items| == 0 then Raised(IndexError)
            else if !items[0].JObj? then Raised(TypeError)
            else
              var entry := JObj(items[0].fields[HostPortKey := JStr(hostPort)]);
              var tcp := JArr([entry] + items[1..]);
              Returned(root[HostConfigKey := JObj(hc.fields[PortBindingsKey := JObj(pb.fields[TcpKey := tcp])])])
          case JObj(_) => Raised(KeyError)
          case JStr(s) => if s == [] then Raised(IndexError) else Raised(TypeError)
          case _ => Raised(TypeError)
  }

  /** `payload(port, image)`: `Returned(None)` when the port or the image is
      falsy, when the template file is missing, or when the template lacks
      one of the keys on the way to the host port (the KeyError is caught);
      the other failures of the template (a malformed file, a TypeError or
      an IndexError on the way to the host port) escape as exceptions. */
  function Payload(port: int, image: string, template: JsonFile): (r: Raises<Option<Json>>)
    ensures port == 0 || image == [] ==> r == Returned(None)
    ensures r.Returned? && r.value.Some? ==>
              && r.value.value.JObj?
              && ImageKey in r.value.value.fields
              && r.value.value.fields[ImageKey] == JStr(image)
              && HasBinding(r.value.value.fields)
              && HostPortKey in BindingEntry(r.value.value.fields)
              && BindingEntry(r.value.value.fields)[HostPortKey] == JStr(IntToString(port))
    ensures r.Raised? ==> port != 0 && image != [] && r.error != KeyError
                          && (template.FileMalformed? || template.Loaded?)
    ensures port != 0 && image != [] && template.FileMissing? ==> r == Returned(None)
    ensures port != 0 && image != [] && template.FileMalformed? ==> r.Raised? && r.error.ValueError?
    ensures port != 0 && image != [] && template.Loaded? && !template.doc.JObj? ==> r == Raised(TypeError)
    ensures port != 0 && image != [] && template.Loaded? && template.doc.JObj? && HasBinding(template.doc.fields) ==>
              r.Returned? && r.value.Some?
    ensures port != 0 && image != [] && template.Loaded? && template.doc.JObj? ==>
              var bound := BindHostPort(template.doc.fields[ImageKey := JStr(image)], IntToString(port));
              bound.Raised? && bound.error != KeyError ==> r == Raised(bound.error)
  {
    if port == 0 then Returned(None)
    else if image == [] then Returned(None)
    else
      match template
      case FileMissing => Returned(None)
      case FileMalformed => Raised(ValueError("malformed payload template"))
      case Loaded(doc) =>
        if !doc.JObj? then Raised(TypeError)
        else
          var root := doc.fields[ImageKey := JStr(image)];
          match BindHostPort(root, IntToString(port))
          case Returned(bound) => Returned(Some(JObj(bound)))
          case Raised(KeyError) => Returned(None)
          case Raised(e) => Raised(e)
  }

  // ---------------------------------------------------------------------
  // imageid(challenge_id)

  /** `imageid(challenge_id)`: the image mapped to the raw challenge id text,
      `None` when the map lacks it (the KeyError is caught); a file that
      cannot be opened or parsed raises, and subscripting a loaded value
      that is not an object raises a TypeError, which is not caught. */
  function ImageId(file: ImageFile, challengeId: string): (r: Raises<Option<string>>)
    ensures r.Returned? <==> file.MapLoaded?
    ensures file.MapNotObject? ==> r == Raised(TypeError)
    ensures r.Raised? ==> r.error != KeyError
    ensures r.Returned? ==> (r.value.Some? <==> challengeId in file.images)
    ensures r.Returned? && r.value.Some? ==> r.value.value == file.images[challengeId]
  {
    match file
    case MapMissing => Raised(FileNotFound)
    case MapMalformed => Raised(ValueError("malformed image map"))
    case MapNotObject => Raised(TypeError)
    case MapLoaded(m) => Returned(if challengeId in m then Some(m[challengeId]) else None)
  }

  // ---------------------------------------------------------------------
  // requests to the backend

  /** The defaults of `base_ip` and `base_port`, which no caller overrides. */
  const BaseIp := "portainer"
  const BasePort := "9443"

  datatype HttpRequest = HttpRequest(verb: string, url: string, headers: map<string, string>, body: Option<Json>)

  function Bearer(key: string): string {
    "Bearer " + key
  }

  function RequestHeaders(key: string): map<string, string> {
    map["Authorization" := Bearer(key), "Content-Type" := "application/json"]
  }

  function EndpointUrl(endpoint: string): string {
    "https://" + BaseIp + ":" + BasePort + "/api/endpoints/" + endpoint
  }

  /** `create_continers`: key, endpoint, name and payload must be truthy,
      checked in that order. */
  function CreateContainers(endpoint: string, key: string, name: string, payload: Option<Json>): (r: Raises<HttpRequest>)
    ensures r.Returned? <==> key != [] && endpoint != [] && name != [] && payload.Some? && Truthy(payload.value)
    ensures r.Raised? ==> r.error.Exception?
    ensures r.Returned? ==> "Authorization" in r.value.headers && r.value.headers["Authorization"] == Bearer(key) && r.value.body == payload
  {
    if key == [] then Raised(Exception("Please an api key"))
    else if endpoint == [] then Raised(Exception("No endpoint Provided"))
    else if name == [] then Raised(Exception("No container name provided"))
    else if payload.None? || !Truthy(payload.value) then Raised(Exception("No payload found"))
    else
      Returned(HttpRequest("POST", EndpointUrl(endpoint) + "/docker/containers/create?name=" + name,
                           RequestHeaders(key), payload))
  }

  /** `start_container`: its key guard tests the module function `api_key`,
      which is always truthy, so the key is never checked; the endpoint is
      refused only when it is `None`. */
  function StartContainer(endpointId: Option<string>, key: string, containerId: string): (r: Raises<HttpRequest>)
    ensures r.Returned? <==> endpointId.Some? && containerId != []
    ensures r.Raised? ==> r.error.ValueError?
    ensures r.Returned? ==> "Authorization" in r.value.headers && r.value.headers["Authorization"] == Bearer(key) && r.value.body.None?
  {
    if endpointId.None? then Raised(ValueError("Please provide an endpoint ID."))
    else if containerId == [] then Raised(ValueError("Please provide a container ID."))
    else
      Returned(HttpRequest("POST", EndpointUrl(endpointId.value) + "/docker/containers/" + containerId + "/start",
                           RequestHeaders(key), None))
  }

  /** `delete_containers`: key, endpoint and id must be truthy, in that order. */
  function DeleteContainers(endpoint: string, key: string, id: string): (r: Raises<HttpRequest>)
    ensures r.Returned? <==> key != [] && endpoint != [] && id != []
    ensures r.Raised? ==> r.error.Exception?
    ensures r.Returned? ==> "Authorization" in r.value.headers && r.value.headers["Authorization"] == Bearer(key) && r.value.verb == "DELETE"
  {
    if key == [] then Raised(Exception("Please an api key"))
    else if endpoint == [] then Raised(Exception("No endpoint Provided"))
    else if id == [] then Raised(Exception("No container name provided"))
    else
      Returned(HttpRequest("DELETE", EndpointUrl(endpoint) + "/docker/containers/" + id + "?force=true",
                           RequestHeaders(key), None))
  }

  // ---------------------------------------------------------------------
  // properties

  /** Two maps that agree everywhere except possibly at key `k`. */
  ghost predicate AgreeExcept(m: map<string, Json>, m': map<string, Json>, k: string) {
    && m.Keys == m'.Keys
    && forall x :: x in m && x != k ==> m'[x] == m[x]
  }

  /** On a template whose `HostConfig.PortBindings["80/tcp"][0]` is an
      object, the payload is the template with `Image` set to the image
      (added when absent) and that entry's `HostPort` set to `str(port)`;
      every other key, at every level of the path, is left as it was. */
  lemma {:induction false} PayloadSubstitutes(port: int, image: string, f: map<string, Json>)
    requires port != 0 && image != []
    requires HasBinding(f)
    ensures var r := Payload(port, image, Loaded(JObj(f)));
      && r.Returned? && r.value.Some? && r.value.value.JObj?
      && var out := r.value.value.fields;
      && out.Keys == f.Keys + {ImageKey}
      && out[ImageKey] == JStr(image)
      && (forall k :: k in f && k != ImageKey && k != HostConfigKey ==> out[k] == f[k])
      && out[HostConfigKey].JObj?
      && AgreeExcept(f[HostConfigKey].fields, out[HostConfigKey].fields, PortBindingsKey)
      && AgreeExcept(f[HostConfigKey].fields[PortBindingsKey].fields,
                     out[HostConfigKey].fields[PortBindingsKey].fields, TcpKey)
      && out[HostConfigKey].fields[PortBindingsKey].fields[TcpKey].items[1..]
           == f[HostConfigKey].fields[PortBindingsKey].fields[TcpKey].items[1..]
      && BindingEntry(out) == BindingEntry(f)[HostPortKey := JStr(IntToString(port))]
  {
    var root := f[ImageKey := JStr(image)];
    assert root[HostConfigKey] == f[HostConfigKey];
    assert HasBinding(root);
  }

  /** A template object lacking `HostConfig`, `PortBindings` or `80/tcp` on
      the way to the host port gives no payload (the KeyError is caught). */
  lemma PayloadMissingKeyIsNone(port: int, image: string, f: map<string, Json>)
    requires port != 0 && image != []
    requires || HostConfigKey !in f
             || (f[HostConfigKey].JObj? && PortBindingsKey !in f[HostConfigKey].fields)
             || (f[HostConfigKey].JObj? && f[HostConfigKey].fields[PortBindingsKey].JObj?
                 && TcpKey !in f[HostConfigKey].fields[PortBindingsKey].fields)
    ensures Payload(port, image, Loaded(JObj(f))) == Returned(None)
  {
    var root := f[ImageKey := JStr(image)];
    assert HostConfigKey in f ==> root[HostConfigKey] == f[HostConfigKey];
  }

  /** The host port written into a payload reads back as the port. */
  lemma PayloadHostPortReadsBack(port: int, image: string, template: JsonFile)
    requires Payload(port, image, template).Returned?
    requires Payload(port, image, template).value.Some?
    requires DigitCount(port) <= MaxStrDigits
    ensures var out := Payload(port, image, template).value.value.fields;
      BindingEntry(out)[HostPortKey].JStr? && ParseInt(BindingEntry(out)[HostPortKey].s) == Some(port)
  {
    ParseIntOfIntToString(port);
  }

  /** The address every request starts from. */
  lemma EndpointUrlText(endpoint: string)
    ensures EndpointUrl(endpoint) == "https://portainer:9443/api/endpoints/" + endpoint
  {
    assert "https://" + BaseIp + ":" + BasePort + "/api/endpoints/" == "https://portainer:9443/api/endpoints/";
  }

  /** Every request the client builds carries `Authorization: Bearer {key}`
      and asks for JSON; below the endpoint's address the URL names the
      operation and the container. */
  lemma RequestsCarryBearer(endpoint: string, key: string, name: string, payload: Option<Json>, id: string)
    ensures var r := CreateContainers(endpoint, key, name, payload);
      r.Returned? ==> (r.value.headers == RequestHeaders(key) && r.value.verb == "POST"
                       && r.value.url == EndpointUrl(endpoint) + "/docker/containers/create?name=" + name)
    ensures var r := StartContainer(Some(endpoint), key, id);
      r.Returned? ==> (r.value.headers == RequestHeaders(key) && r.value.verb == "POST"
                       && r.value.url == EndpointUrl(endpoint) + "/docker/containers/" + id + "/start")
    ensures var r := DeleteContainers(endpoint, key, id);
      r.Returned? ==> (r.value.headers == RequestHeaders(key) && r.value.verb == "DELETE"
                       && r.value.url == EndpointUrl(endpoint) + "/docker/containers/" + id + "?force=true")
  {
  }

  /** `start_container` accepts an empty key and an empty endpoint text
      (only `None` is refused), unlike the other two requests. */
  lemma StartIgnoresKey(endpoint: string, id: string)
    requires id != []
    ensures StartContainer(Some(endpoint), "", id).Returned?
    ensures DeleteContainers(endpoint, "", id).Raised?
  {
  }

  /** `create_continers` checks key, endpoint, name and payload in that
      order; the first falsy one names the exception. */
  lemma CreateGuardOrder(endpoint: string, key: string, name: string, payload: Option<Json>)
    ensures var r := CreateContainers(endpoint, key, name, payload);
      && (key == [] ==> r == Raised(Exception("Please an api key")))
      && (key != [] && endpoint == [] ==> r == Raised(Exception("No endpoint Provided")))
      && (key != [] && endpoint != [] && name == [] ==> r == Raised(Exception("No container name provided")))
      && (key != [] && endpoint != [] && name != [] && (payload.None? || !Truthy(payload.value)) ==>
            r == Raised(Exception("No payload found")))
  {
  }

  /** `delete_containers` checks key, endpoint and id in that order. */
  lemma DeleteGuardOrder(endpoint: string, key: string, id: string)
    ensures var r := DeleteContainers(endpoint, key, id);
      && (key == [] ==> r == Raised(Exception("Please an api key")))
      && (key != [] && endpoint == [] ==> r == Raised(Exception("No endpoint Provided")))
      && (key != [] && endpoint != [] && id == [] ==> r == Raised(Exception("No container name provided")))
  {
  }
}
