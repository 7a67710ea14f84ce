# CTFd container instances, modelled in Dafny

This project models the part of this CTFd fork that hands out per-user challenge
containers. It also models the flag-submission decision logic and the
prerequisite gate that CTFd's challenge views share.

- **Instance lifecycle.** The three handlers of `ChallengeStart`
  (CTFd/api/v1/challenges.py) work over five tables: Users, Challenges, Solves,
  Containers and Ports.
  - `get` reports the caller's container.
  - `post` validates the headers and checks the caller's credentials. Then it
    checks the challenge, reserves a random port in [45000, 55000], and asks
    the Portainer backend to create and start a container. Last, it records
    the container.
  - `delete` finds the caller's container and reads its port back from the
    stored connection. It heals a missing Ports row, asks the backend to delete
    the container, and marks the port closed.
- **Backend requests.** CTFd/portainer.py builds the create, start and delete
  requests. It also fills the host port and image into the container template
  (`payload`) and looks up the image of a challenge (`imageid`).
- **Flag attempts.** `ChallengeAttempt.post` is a cascade of guards: hidden,
  locked, prerequisites, rate limit, already solved, attempt limit. Outside
  the admin preview, the challenge plugin judges the flag only after all of
  them pass.
- **Prerequisite gate.** The challenge listing and the detail view hide a
  challenge whose prerequisites are unmet, or anonymize it when it asks to be.

## Files

Files and modules:

- `common.dfy` (`Py`): optional values, results and Python exceptions as
  values. `Raises<T>` holds either a returned value or a raised exception.
- `response.dfy` (`Http`): what a handler answers. It is a reply with a code
  and a JSON object of strings, an exception that escapes the handler, or
  `Spinning`. `Spinning` means the port probe is still drawing.
- `text.dfy` (`Text`): Python's `int()` on a string, `str()` of an integer,
  and `str.split`.
- `portainer.dfy` (`Portainer`): the JSON template, `payload`, `imageid` and
  the three request builders.
- `headers.dfy` (`Headers`): the header validation and the credential check.
  This step opens each of the three handlers.
- `lifecycle.dfy` (`Lifecycle`): the tables, and the three handlers as
  functions. `StatusQuery`, `Provision` and `Teardown` map the tables before a
  request to the answer, the tables after it, and the requests sent.
- `lifecycle_props.dfy` (`LifecycleProps`): what the handlers guarantee, and
  fail to guarantee.
- `service.dfy` (`Service`): `InstanceService`, a class over the five tables.
  Its `Get`, `Post` and `Delete` methods update the tables in place.
  - Each method is proved to produce exactly what the matching `Lifecycle`
    function describes.
  - So every lemma of `LifecycleProps` holds of the methods too.
- `attempt.dfy` (`Attempt`): the submission cascade, the listing loop and the
  detail gate.

Inputs of the model:

- **Environment and files.** The API key, endpoint and address come from the
  environment, and the template and image map come from two JSON files. They
  enter as a `Config`. The two files may be missing or malformed.
- **Backend replies.** A `BackendReply` is either no connection (`requests`
  raised) or a status with the body text and the "Id" member, when the body
  has one. Two assumptions about the `requests` library are written into the
  model:
  - a response is falsy exactly when its status is from 400 to 599;
  - `raise_for_status` turns a start status from 400 to 599 into an exception.
- **Random ports.** The successive results of `randint(45000, 55000)` are a
  sequence of draws. The lemmas that need the range assume it as
  `AllInRange`.
- **Plugin calls.** The challenge plugin's `attempt` is a `Judgement`. Its
  `solve` and `fail` calls are recorded as the `Effect` of a submission.

## Model

| member | source | states |
|---|---|---|
| Text.ParseInt | CTFd/api/v1/challenges.py:972-996 | `int()` of a header value succeeds exactly on optional surrounding whitespace (space and \t \n \v \f \r), an optional sign and digit groups joined by single underscores, with at most 4300 digits; a negative result only comes from a leading "-" |
| Text.NatToString | CTFd/api/v1/challenges.py:1147 | `str(n)` is a non-empty digit string with no leading zero whose decimal value is `n` |
| Text.IntToString | CTFd/api/v1/challenges.py:1086 | `str(i)` is digits for a non-negative `i` and "-" followed by digits otherwise |
| Text.ParseIntOfIntToString | CTFd/api/v1/challenges.py:1147 | `int(str(i)) == i` for every integer of at most 4300 digits, so a port written into a connection or a payload converts back to itself |
| Text.Split | CTFd/api/v1/challenges.py:1278 | `s.split(sep)` gives at least one part, no part holds the separator, and joining the parts with it gives back `s` |
| Text.SplitAfterFirst | CTFd/api/v1/challenges.py:1278 | splitting `a + ":" + b`, where `a` holds no ":", gives `a` followed by the parts of `b` |
| Portainer.BindHostPort | CTFd/portainer.py:46 | the nested assignment succeeds exactly when `HostConfig.PortBindings["80/tcp"][0]` exists as an object; it then sets `HostPort` in that entry, keeps the top-level keys and leaves every other top-level value unchanged |
| Portainer.Payload | CTFd/portainer.py:28-54 | a falsy port or image gives no payload; a produced payload is an object whose `Image` is the image and whose binding's `HostPort` is `str(port)`; a missing file gives no payload, a malformed file raises ValueError, a template that is not an object raises TypeError, a template with the binding gives a payload, and a TypeError or IndexError on the way to the binding escapes while a KeyError never does |
| Portainer.PayloadSubstitutes | CTFd/portainer.py:42-48 | on a template holding the binding path, the payload is the template with `Image` set (added if absent) and `HostPort` set to `str(port)`; every other key at every level of the path is unchanged |
| Portainer.PayloadMissingKeyIsNone | CTFd/portainer.py:45-51 | a template lacking `HostConfig`, `PortBindings` or "80/tcp" gives no payload, because the KeyError is caught |
| Portainer.PayloadHostPortReadsBack | CTFd/portainer.py:46 | the host port text in a produced payload converts back to the port (for a port of at most 4300 digits) |
| Portainer.ImageId | CTFd/portainer.py:58-67 | with a readable map, the result is the image under the raw challenge id text when that key is present, and none otherwise; an unreadable map raises, a map file that is not a JSON object raises TypeError, and a KeyError never escapes |
| Portainer.CreateContainers | CTFd/portainer.py:124-159 | a request is built exactly when key, endpoint, name and payload are all truthy; it carries `Authorization: Bearer {key}` and the payload as its body; otherwise an `Exception` is raised |
| Portainer.CreateGuardOrder | CTFd/portainer.py:126-136 | key, endpoint, name and payload are checked in that order, and the first falsy one names the exception |
| Portainer.StartContainer | CTFd/portainer.py:166-191 | only a `None` endpoint or an empty container id is refused (ValueError); the request carries the bearer header and no body |
| Portainer.StartIgnoresKey | CTFd/portainer.py:168-173 | an empty key is accepted by the start request and refused by the delete request, because the start guard tests the function `api_key` rather than the parameter |
| Portainer.DeleteContainers | CTFd/portainer.py:196-223 | a DELETE request is built exactly when key, endpoint and id are truthy; it carries the bearer header |
| Portainer.DeleteGuardOrder | CTFd/portainer.py:197-204 | key, endpoint and id are checked in that order, and the first falsy one names the exception |
| Portainer.EndpointUrlText | CTFd/portainer.py:149-151 | every URL starts with `https://portainer:9443/api/endpoints/{endpoint}` |
| Portainer.RequestsCarryBearer | CTFd/portainer.py:144-151 | the three requests carry exactly the `Authorization` and `Content-Type` headers, under the URLs `…/docker/containers/create?name={name}`, `…/docker/containers/{id}/start` and `…/docker/containers/{id}?force=true` |
| Headers.FirstEmpty | CTFd/api/v1/challenges.py:964-968 | the key reported is that of the first entry with an empty value; there is none exactly when no value is empty |
| Headers.FindEmpty | CTFd/api/v1/challenges.py:964-968 | the loop over the header entries returns the first key with an empty value |
| Headers.Validate | CTFd/api/v1/challenges.py:941-996 | every refusal is a 400; a request passes exactly when all four headers are present and non-empty, both ids are non-negative integers as `int()` reads them, and the email has no space and has an "@"; the identity holds the parsed ids and the raw texts |
| Headers.Checked | CTFd/api/v1/challenges.py:972-996 | the integer and email checks pass exactly under their conjunction, and yield the parsed identity; each refusal is a 400 |
| Headers.CheckHeaders | CTFd/api/v1/challenges.py:937-996 | the header block (fill `head`, loop for empty values, then the checks) answers what `Validate` describes |
| Headers.ValidationOrder | CTFd/api/v1/challenges.py:941-959 | the headers are read as userId, userName, userEmail, challengeId, and the first one missing is the one reported |
| Headers.EmptyUseridFirst | CTFd/api/v1/challenges.py:964-968 | with all four headers present, an empty Userid is reported as "Userid cannot be empty" before any other empty value |
| Headers.EmptyChallengeidLast | CTFd/api/v1/challenges.py:964-968 | an empty Challengeid is reported only when the other three values are set |
| Headers.ReportsEmpty | CTFd/api/v1/challenges.py:964-968 | with all headers present, the first empty entry of `head` names the refusal "{key} cannot be empty" |
| Headers.ChecksOrder | CTFd/api/v1/challenges.py:972-996 | once every header is present and non-empty: a non-integer or negative Userid is reported before anything about the email, a space in the email before a missing "@", the email before a non-integer Challengeid, and a negative Challengeid last |
| Headers.Authenticate | CTFd/api/v1/challenges.py:1009-1017 | the caller passes exactly when the stored user under the id has the same name and email; an unknown id is a 404 and a mismatch a 401 |
| Lifecycle.FirstFree | CTFd/api/v1/challenges.py:1050-1063 | the probe picks the first draw that has no Ports row of any status; it finds none exactly when every draw is taken |
| Lifecycle.Eligibility | CTFd/api/v1/challenges.py:1027-1047 | provisioning may go on exactly when the challenge exists, is not hidden, is in the "web" category, is not solved by the user, and the user has no container; a missing challenge is a 404 and a hidden one a 423 |
| LifecycleProps.AdmissionFirst | CTFd/api/v1/challenges.py:1000-1017 | when validation or the credential check refuses, all three handlers answer that refusal (400, 401 or 404), change nothing and send nothing |
| LifecycleProps.ProvisionGuards | CTFd/api/v1/challenges.py:1027-1047 | the guards in order: no challenge 404, hidden 423, not "web" 400, solved 429, existing container 409 with the stored connection unchanged; each leaves every table as it was and sends nothing |
| LifecycleProps.RefusalKeepsTables | CTFd/api/v1/challenges.py:1027-1047 | a refused provisioning writes no table, reserves no port and sends nothing |
| LifecycleProps.ProvisionSpins | CTFd/api/v1/challenges.py:1050-1063 | the handler is still probing exactly when every draw so far has a Ports row, and nothing has changed yet |
| LifecycleProps.LaunchNeverSpins | CTFd/api/v1/challenges.py:1065-1156 | once a port is reserved, the handler always answers |
| LifecycleProps.AfterCreateNeverSpins | CTFd/api/v1/challenges.py:1099-1156 | from the create reply on, the handler always answers |
| LifecycleProps.AfterStartNeverSpins | CTFd/api/v1/challenges.py:1126-1156 | from the start request on, the handler always answers |
| LifecycleProps.ReservedPort | CTFd/api/v1/challenges.py:1050-1063 | the reserved port lies in [45000, 55000] and had no Ports row before; it ends owned by the user, "open" or "in use", and "in use" only after an accepted create reply; no other Ports row changes, and Users, Challenges and Solves stay as they were |
| LifecycleProps.LaunchEffect | CTFd/api/v1/challenges.py:1065-1156 | after the reservation, only a full success adds a Containers row and answers 200 with the connection; every other outcome keeps the Containers table; the port row becomes "in use" exactly when the create request was sent, its reply was accepted with an "Id" and the port is non-zero, and stays as reserved otherwise |
| LifecycleProps.LaunchCases | CTFd/api/v1/challenges.py:1065-1097 | the launch either stops before the create request, writing and sending nothing and answering no success, or goes on to the create reply with the create request as the first one sent |
| LifecycleProps.AfterCreateEffect | CTFd/api/v1/challenges.py:1099-1122 | a falsy create reply (status 400 to 599) answers 501, any other unaccepted status or a missing "Id" answers 500, and these leave the tables as they were; an accepted reply with an "Id" and a non-zero port sets the port "in use" and goes on; the create request is the first one sent |
| LifecycleProps.CreateRefused | CTFd/api/v1/challenges.py:1099-1122 | a create reply the handler does not go on from leaves the tables as they were and sends only the create request; a falsy reply answers 501, an unaccepted status or a missing "Id" answers 500 |
| LifecycleProps.CreateRequestFirst | CTFd/api/v1/challenges.py:1099-1130 | from the create reply on, the create request is the first request sent |
| LifecycleProps.AfterStartEffect | CTFd/api/v1/challenges.py:1126-1156 | the start step leaves the ports alone; a full success stores the row with connection "{ip}:{port}" and returns that connection |
| LifecycleProps.ProvisionSuccess | CTFd/api/v1/challenges.py:1086-1156 | a 200 means: the port is "in use" and owned by the user; exactly one Containers row is added for a user who had none, named "{Username}_{port}" with connection "{ip}:{port}"; the returned connection is the stored one; two requests were sent |
| LifecycleProps.FailureLeavesPort | CTFd/api/v1/challenges.py:1067-1137 | every failure after the reservation creates no Containers row, and the user's port row stays behind: "open" when the create request was never sent or its reply was not accepted, and "in use" when the create reply was accepted and the start failed |
| LifecycleProps.ProvisionKeepsPortRows | CTFd/api/v1/challenges.py:1050-1122 | provisioning never alters a Ports row that already existed |
| LifecycleProps.ProvisionSentRequests | CTFd/api/v1/challenges.py:1076-1130 | a successful provisioning had a non-empty key and endpoint and got a non-empty container id |
| LifecycleProps.LaunchSuccessGuards | CTFd/api/v1/challenges.py:1065-1130 | a successful launch from a reserved port had a non-empty key and endpoint and got a non-empty container id |
| LifecycleProps.AfterCreateSuccessGuards | CTFd/api/v1/challenges.py:1099-1130 | a successful run from the create reply on means the create reply carried a non-empty container id |
| LifecycleProps.RemoveEffect | CTFd/api/v1/challenges.py:1293-1318 | the delete step keeps the Containers row; it succeeds exactly when the request can be built and the backend answers a status outside {400, 404, 409, 500}, and then closes the port; a status in that set answers 500; every failure keeps the ports as they were |
| LifecycleProps.TeardownKeepsContainers | CTFd/api/v1/challenges.py:1257-1318 | the teardown never removes the Containers row and never writes Users, Challenges or Solves |
| LifecycleProps.TeardownEffect | CTFd/api/v1/challenges.py:1274-1318 | with a container and a key, the port is read from the text after ":"; a missing Ports row is inserted as "closing" for the user; success exactly when the request could be built and the status is outside {400, 404, 409, 500}, and then the port is "closed"; a failure keeps the healed row; a failure status answers 500 |
| LifecycleProps.TeardownWithoutContainer | CTFd/api/v1/challenges.py:1257-1260 | without a Containers row the teardown answers 404 and changes nothing |
| LifecycleProps.ReleaseReachesRemove | CTFd/api/v1/challenges.py:1274-1297 | with a container, a key and a readable port, the teardown is the delete step on the tables with the missing Ports row healed |
| LifecycleProps.ReleaseRefusalKeepsTables | CTFd/api/v1/challenges.py:1257-1278 | without a container, a key or a readable port, the teardown writes no table and sends nothing |
| LifecycleProps.HealedRemoveEffect | CTFd/api/v1/challenges.py:1281-1318 | after the heal, a successful delete closes the port and a failure leaves it as healed, stated against the tables before the heal |
| LifecycleProps.TeardownKeepsOtherPorts | CTFd/api/v1/challenges.py:1280-1314 | any Ports row that existed before the teardown either stays as it was or becomes "closed" |
| LifecycleProps.ClosedIsFinal | CTFd/api/v1/challenges.py:1055-1313 | a "closed" port stays closed after any provisioning or teardown |
| LifecycleProps.ConnectionReadsBack | CTFd/api/v1/challenges.py:1147-1278 | the port text after ":" in "{ip}:{port}" is `str(port)` and converts back to the port when the address holds no ":" (for a port of at most 4300 digits) |
| LifecycleProps.ReleaseKnownPort | CTFd/api/v1/challenges.py:1274-1318 | a teardown of an "in use" port that the backend accepts closes that port, answers "container deleted" and keeps the Containers row |
| LifecycleProps.ReleaseClosesPort | CTFd/api/v1/challenges.py:1274-1318 | with a Ports row for the container's port and every request guard passing, an accepted teardown closes that port, answers "container deleted" and changes nothing else |
| LifecycleProps.RemoveAccepted | CTFd/api/v1/challenges.py:1293-1318 | with a non-empty key, endpoint and container id, a delete reply outside {400, 404, 409, 500} closes the port and answers "container deleted" |
| LifecycleProps.StatusOf | CTFd/api/v1/challenges.py:922-928 | the status query of an admitted user answers the stored connection, or 404 without a container |
| LifecycleProps.ProvisionedRow | CTFd/api/v1/challenges.py:1117-1151 | after a successful provisioning the stored row reads back as the reserved port and every request guard of the teardown passes |
| LifecycleProps.ProvisionThenStatus | CTFd/api/v1/challenges.py:922-928 | after a successful provisioning the status query returns "{ip}:{port}" |
| LifecycleProps.ProvisionThenTeardown | CTFd/api/v1/challenges.py:1257-1318 | an accepted teardown after a successful provisioning closes the port and keeps the row, so the status query still reports the deleted container |
| LifecycleProps.NoSecondInstance | CTFd/api/v1/challenges.py:1044-1047 | after a provisioning and an accepted teardown, the next provisioning by the same user is a 409 carrying the old connection and changes nothing |
| LifecycleProps.SuccessivePortsDiffer | CTFd/api/v1/challenges.py:1050-1063 | two successful provisionings in a row never hand out the same port |
| Service.InstanceService.constructor | CTFd/api/v1/challenges.py:828 | the service starts with the given tables |
| Service.InstanceService.Probe | CTFd/api/v1/challenges.py:1050-1063 | the probe loop returns the first draw without a Ports row, or none when the draws run out |
| Service.InstanceService.Admission | CTFd/api/v1/challenges.py:935-1017 | the header block and the credential check answer what `Admit` describes |
| Service.InstanceService.Get | CTFd/api/v1/challenges.py:833-928 | `get` answers what `StatusQuery` describes |
| Service.InstanceService.Post | CTFd/api/v1/challenges.py:933-1156 | `post` answers, updates the tables and sends exactly what `Provision` describes |
| Service.InstanceService.Launch | CTFd/api/v1/challenges.py:1065-1097 | from the reserved port to the create request, as `Lifecycle.Launch` describes |
| Service.InstanceService.AfterCreate | CTFd/api/v1/challenges.py:1099-1122 | the create reply handling and the update to "in use", as `Lifecycle.AfterCreate` describes |
| Service.InstanceService.AfterStart | CTFd/api/v1/challenges.py:1126-1156 | the start request and the new Containers row, as `Lifecycle.AfterStart` describes |
| Service.InstanceService.Delete | CTFd/api/v1/challenges.py:1162-1318 | `delete` answers, updates the tables and sends exactly what `Teardown` describes |
| Service.InstanceService.Release | CTFd/api/v1/challenges.py:1257-1297 | the container lookup, the key guard, the port read back and the self-heal, as `Lifecycle.Release` describes |
| Service.InstanceService.Remove | CTFd/api/v1/challenges.py:1293-1318 | the delete request, its reply and the port closed, as `Lifecycle.Remove` describes |
| Attempt.Punctuated | CTFd/api/v1/challenges.py:676-677 | the judge's message is kept when it ends in one of `!().;?[]{}`, and gets a "." otherwise |
| Attempt.SubmitCascade | CTFd/api/v1/challenges.py:556-631 | past the session checks, the guards in order: missing 404, hidden 404, locked 403, unmet prerequisites 403, too fast 429 "ratelimited" with a fail recorded during the CTF, solved "already_solved", fails ≥ max_attempts > 0 403 "You have 0 tries remaining" |
| Attempt.JudgeOnlyPastGuards | CTFd/api/v1/challenges.py:507-633 | outside the admin preview, when any guard refuses, the outcome does not depend on the judge |
| Attempt.PastGuardsIsJudged | CTFd/api/v1/challenges.py:633-691 | past the guards, a correct flag answers "correct" with the judge's message; a wrong one answers "incorrect", or raises on an empty message under an attempt limit |
| Attempt.RecordedEffects | CTFd/api/v1/challenges.py:588-668 | a solve is recorded exactly when every guard passes, the flag is correct and the CTF is running or the caller is an admin; a fail is recorded exactly for a rate-limited request during the CTF and for a wrong flag past the guards under the same condition as a solve |
| Attempt.TriesLeftNonNegative | CTFd/api/v1/challenges.py:671-686 | under a positive limit, the tries left are max_attempts − fails − 1 and never negative, and the message is the punctuated message followed by " You have {n} {try/tries} remaining." |
| Attempt.ListChallenges | CTFd/api/v1/challenges.py:184-230 | the listing loop builds the entries `ListView` describes, in query order |
| Attempt.ListViewMembers | CTFd/api/v1/challenges.py:184-214 | an entry is listed exactly when some challenge in the query yields it: in full when its prerequisites are met (or in the admin view) and its type is installed, anonymized when they are unmet and it asks for anonymity |
| Attempt.ListViewLength | CTFd/api/v1/challenges.py:184-230 | the listing is never longer than the query; in the admin view with every type installed it lists every challenge in full, in order |
| Attempt.DetailView | CTFd/api/v1/challenges.py:300-359 | a challenge shown in full exists and has an installed type; to a non-admin it is neither hidden nor locked and its prerequisites are met; an anonymized answer only goes to a non-admin when the challenge asks for it |
| Attempt.GateAgrees | CTFd/api/v1/challenges.py:184-208 | for a non-admin, the listing shows a visible challenge in full exactly when the detail view does |
| Attempt.SubmitImpliesShown | CTFd/api/v1/challenges.py:564-581 | a non-admin whose submission reaches the judge may also see the challenge in full |

## Left out

- HTTP transport, the `load_dotenv`/`os.getenv` calls and the file reads are
  not modelled. Their results are inputs: `Config`, `BackendReply`, and a
  template or image file that may be missing or malformed.
- A create reply whose body is not JSON, or whose "Id" is not a string, is
  not modelled.
- An image map whose values are not strings is not modelled. `payload`
  applies `str(image)` to whatever the JSON map holds; the model's map holds
  strings only, so `str` is the identity on it.
- JSON numbers are integers only; floats are not modelled.
- `randint` is not modelled. The port draws are an input sequence, and the
  range [45000, 55000] is assumed where a lemma needs it. Draws that never
  hit a free port give `Spinning`, because the source loops for ever.
- Concurrency is not modelled, so neither is a race between two requests on
  a port or on the one-container-per-user check. Each request runs alone on
  the tables.
- Database failures are not modelled: the 503 lookups, the 500 when
  inserting the port, and the 207 when updating it. Every commit succeeds.
- Header names are looked up exactly. Flask's case-insensitive header
  matching is not modelled.
- `Text.ParseInt`: only ASCII input is handled. Python's `int()` also accepts
  other Unicode digits and whitespace.
- `Text.IntToString`: `str()` of an integer with more than 4300 digits raises
  ValueError; the model writes every integer out. Its arguments here are
  ports and HTTP statuses.
- `Text.ParseIntOfIntToString`: stated for integers of at most 4300 digits,
  the ones `str()` writes out.
- `LifecycleProps.ConnectionReadsBack`: stated for ports of at most 4300
  digits, the ones `str()` writes out.
- `Portainer.PayloadHostPortReadsBack`: stated for ports of at most 4300
  digits, the ones `str()` writes out.
- The handlers look rows up with the raw header text, and the database
  converts it. The model uses lookups by the parsed integer instead.
- In the teardown, the port text goes back to the Ports table as text. The
  model converts it with `int()`, and text that does not convert is treated
  as an escaping `ValueError`.
- The teardown's `except ValueError` on `int(status_code)` is not modelled.
  Its branch cannot be reached, because status codes are integers.
- The `if not port` test at CTFd/api/v1/challenges.py:1118 looks at the port
  number, not the row it just fetched. Its branch fires only for port 0, and
  no draw in range is 0. The model keeps it as written.
- The email check refuses a space and requires at least one "@". It does not
  refuse other whitespace or a second "@". The model follows the code.
- `Attempt.Tries` assumes CTFd's `pluralize` returns the singular exactly when
  the count is 1. `CTFd/utils/humanize/words.py` is not part of this model.
- `kpm_limit` is an input. Its `int(get_config(...))` conversion, the kpm
  count and the fail count come from queries that are not part of this model.
- These views are not modelled beyond their gate:
  - the detail view's hints, files, tags and rendering;
  - the listing's solve counts and templates.
- Logging, cache clearing, `render_template` and `url_for` are not modelled.
- The view decorators are not modelled. `during_ctf_time_only` and
  `check_challenge_visibility` can answer before a handler runs, and the model
  starts after them.
- The teams-mode gate is not modelled. In teams mode the listing and the
  detail view abort with 403 for a non-admin without a team
  (CTFd/api/v1/challenges.py:142-143 and 375-376). `Attempt.ListView` and
  `Attempt.DetailView` describe a user-mode or teamed caller.
- The admin create, update and delete endpoints only delegate to plugin
  classes, so they are not modelled.
- The listings of files, tags, topics, hints and flags are read-only, so they
  are not modelled.
- `list_endpoints` and `list_container` are not modelled, because no handler
  calls them.
