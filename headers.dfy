/** The request validation and the credential check that each of the three
    instance handlers (status, provision, teardown) performs before anything
    else (CTFd/api/v1/challenges.py, copied three times in `ChallengeStart`). */
module Headers {
  import opened Py
  import opened Text
  import opened Http

  /** A stored user, as far as the credential check reads it. */
  datatype User = User(name: string, email: string)

  /** A validated request: the two ids as integers, the challenge id also
      as the raw header text (the image map is keyed by that text). */
  datatype Identity = Identity(uid: nat, name: string, email: string, challengeText: string, cid: nat)

  function Bad(msg: string): Response {
    Answer(400, "status", msg)
  }

  /** The `head` dict, filled header by header: the first missing header
      among userId, userName, userEmail, challengeId is reported. The
      entries keep the order of insertion. */
  function CollectHead(h: map<string, string>): Result<seq<(string, string)>, Response> {
    if "userId" !in h then Failure(Bad("Userid header missing"))
    else if "userName" !in h then Failure(Bad("Username header missing"))
    else if "userEmail" !in h then Failure(Bad("Useremail header missing"))
    else if "challengeId" !in h then Failure(Bad("Challengeid header missing"))
    else Success([("Userid", h["userId"]), ("Username", h["userName"]),
                  ("Useremail", h["userEmail"]), ("Challengeid", h["challengeId"])])
  }

  predicate NoneEmpty(head: seq<(string, string)>) {
    forall i :: 0 <= i < |head| ==> head[i].1 != []
  }

  /** The key of the first entry whose value is empty. */
  function FirstEmpty(head: seq<(string, string)>): (k: Option<string>)
    ensures k.None? <==> NoneEmpty(head)
    ensures k.Some? ==> exists i :: 0 <= i < |head| && head[i].0 == k.value && head[i].1 == [] && NoneEmpty(head[..i])
  {
    if head == [] then None
    else if head[0].1 == [] then
      assert NoneEmpty(head[..0]);
      Some(head[0].0)
    else
      var k := FirstEmpty(head[1..]);
      if k.Some? then
        var i :| 0 <= i < |head[1..]| && head[1..][i].0 == k.value && head[1..][i].1 == [] && NoneEmpty(head[1..][..i]);
        assert head[..i + 1] == [head[0]] + head[1..][..i];
        k
      else k
  }

  /** The loop over `head.keys()` that rejects the first empty value. */
  method FindEmpty(head: seq<(string, string)>) returns (k: Option<string>)
    ensures k == FirstEmpty(head)
  {
    var i := 0;
    while i < |head|
      invariant 0 <= i <= |head|
      invariant FirstEmpty(head) == FirstEmpty(head[i..])
    {
      if head[i].1 == [] {
        return Some(head[i].0);
      }
      assert head[i..][1..] == head[i + 1..];
      i := i + 1;
    }
    return None;
  }

  /** Every check passes, stated without regard to order. */
  predicate WellFormed(h: map<string, string>) {
    && "userId" in h && "userName" in h && "userEmail" in h && "challengeId" in h
    && h["userId"] != [] && h["userName"] != [] && h["userEmail"] != [] && h["challengeId"] != []
    && ParseInt(h["userId"]).Some? && ParseInt(h["userId"]).value >= 0
    && ' ' !in h["userEmail"] && '@' in h["userEmail"]
    && ParseInt(h["challengeId"]).Some? && ParseInt(h["challengeId"]).value >= 0
  }

  /** The validation sequence: missing headers, empty values, the user id
      as a non-negative integer, the email without spaces and with an "@",
      the challenge id as a non-negative integer. Every failure is a 400;
      a request passes exactly when it is well formed. */
  function Validate(h: map<string, string>): (r: Result<Identity, Response>)
    ensures r.Failure? ==> r.error.Reply? && r.error.code == 400
    ensures r.Success? <==> WellFormed(h)
    ensures r.Success? ==> (&& r.value.uid == ParseInt(h["userId"]).value
                            && r.value.name == h["userName"] && r.value.email == h["userEmail"]
                            && r.value.challengeText == h["challengeId"]
                            && r.value.cid == ParseInt(h["challengeId"]).value)
  {
    match CollectHead(h)
    case Failure(e) => Failure(e)
    case Success(head) =>
      var empty := FirstEmpty(head);
      HeadValues(h);
      if empty.Some? then Failure(Bad(empty.value + " cannot be empty"))
      else
        Checked(h["userId"], h["userName"], h["userEmail"], h["challengeId"])
  }

  lemma HeadValues(h: map<string, string>)
    requires CollectHead(h).Success?
    ensures var head := CollectHead(h).value;
      NoneEmpty(head) <==> h["userId"] != [] && h["userName"] != [] && h["userEmail"] != [] && h["challengeId"] != []
  {
    var head := CollectHead(h).value;
    assert head[0].1 == h["userId"] && head[1].1 == h["userName"];
    assert head[2].1 == h["userEmail"] && head[3].1 == h["challengeId"];
  }

  /** The integer and email checks, once every value is known non-empty. */
  function Checked(userId: string, name: string, email: string, challengeId: string): (r: Result<Identity, Response>)
    ensures r.Failure? ==> r.error.Reply? && r.error.code == 400
    ensures r.Success? <==> (&& ParseInt(userId).Some? && ParseInt(userId).value >= 0
                             && ' ' !in email && '@' in email
                             && ParseInt(challengeId).Some? && ParseInt(challengeId).value >= 0)
    ensures r.Success? ==> r.value == Identity(ParseInt(userId).value, name, email, challengeId, ParseInt(challengeId).value)
  {
    var u := ParseInt(userId);
    if u.None? then Failure(Bad("Userid must be an integer"))
    else if u.value < 0 then Failure(Bad("Userid cannot be negative"))
    else if ' ' in email then Failure(Bad("Useremail cannot contain spaces"))
    else if '@' !in email then Failure(Bad("Invalid Useremail"))
    else
      var c := ParseInt(challengeId);
      if c.None? then Failure(Bad("Challengeid must be an integer"))
      else if c.value < 0 then Failure(Bad("Challengeid cannot be negative"))
      else Success(Identity(u.value, name, email, challengeId, c.value))
  }

  /** The header block of a handler: collect, then loop for empty values,
      then the integer and email checks. */
  method CheckHeaders(h: map<string, string>) returns (r: Result<Identity, Response>)
    ensures r == Validate(h)
  {
    var collected := CollectHead(h);
    if collected.Failure? {
      return Failure(collected.error);
    }
    var head := collected.value;
    var empty := FindEmpty(head);
    if empty.Some? {
      return Failure(Bad(empty.value + " cannot be empty"));
    }
    r := Checked(h["userId"], h["userName"], h["userEmail"], h["challengeId"]);
  }

  /** The credential check: an unknown user id is a 404; otherwise the
      supplied name and then the supplied email must equal the stored ones
      exactly, else 401. `None` means the caller is who they claim. */
  function Authenticate(users: map<int, User>, who: Identity): (r: Option<Response>)
    ensures r.None? <==> who.uid in users && users[who.uid] == User(who.name, who.email)
    ensures r.Some? ==> r.value.Reply? && (r.value.code == 404 <==> who.uid !in users)
    ensures r.Some? ==> r.value.code == 404 || r.value.code == 401
  {
    if who.uid !in users then Some(Answer(404, "error", "User does not exist"))
    else if who.name != users[who.uid].name then Some(Answer(401, "error", "Credentials does not match"))
    else if who.email != users[who.uid].email then Some(Answer(401, "error", "Credentials does not match"))
    else None
  }

  /** Validation followed by the credential check. */
  function Admit(users: map<int, User>, h: map<string, string>): Result<Identity, Response> {
    match Validate(h)
    case Failure(e) => Failure(e)
    case Success(who) =>
      match Authenticate(users, who)
      case Some(e) => Failure(e)
      case None => Success(who)
  }

  /** The headers are read in the order userId, userName, userEmail,
      challengeId: the first one missing is the one reported. */
  lemma ValidationOrder(h: map<string, string>)
    ensures "userId" !in h ==> Validate(h) == Failure(Bad("Userid header missing"))
    ensures "userId" in h && "userName" !in h ==> Validate(h) == Failure(Bad("Username header missing"))
    ensures "userId" in h && "userName" in h && "userEmail" !in h ==> Validate(h) == Failure(Bad("Useremail header missing"))
    ensures "userId" in h && "userName" in h && "userEmail" in h && "challengeId" !in h ==>
              Validate(h) == Failure(Bad("Challengeid header missing"))
  {
  }

  /** Once all four headers are present, an empty Userid is reported
      before any other empty value. */
  lemma EmptyUseridFirst(h: map<string, string>)
    requires "userId" in h && "userName" in h && "userEmail" in h && "challengeId" in h
    requires h["userId"] == []
    ensures Validate(h) == Failure(Bad("Userid cannot be empty"))
  {
    FirstEmptyOfHead(h["userId"], h["userName"], h["userEmail"], h["challengeId"]);
    ReportsEmpty(h);
    assert "Userid" + " cannot be empty" == "Userid cannot be empty";
  }

  /** An empty Challengeid is reported only when the other three values are
      set, since it is the last entry the loop looks at. */
  lemma EmptyChallengeidLast(h: map<string, string>)
    requires "userId" in h && "userName" in h && "userEmail" in h && "challengeId" in h
    requires h["userId"] != [] && h["userName"] != [] && h["userEmail"] != [] && h["challengeId"] == []
    ensures Validate(h) == Failure(Bad("Challengeid cannot be empty"))
  {
    FirstEmptyOfHead(h["userId"], h["userName"], h["userEmail"], h["challengeId"]);
    ReportsEmpty(h);
    assert "Challengeid" + " cannot be empty" == "Challengeid cannot be empty";
  }

  /** The first empty entry of a filled `head`. */
  lemma FirstEmptyOfHead(userId: string, name: string, email: string, challengeId: string)
    ensures var head := [("Userid", userId), ("Username", name), ("Useremail", email), ("Challengeid", challengeId)];
      && (userId == [] ==> FirstEmpty(head) == Some("Userid"))
      && (userId != [] && name != [] && email != [] && challengeId == [] ==> FirstEmpty(head) == Some("Challengeid"))
  {
    var head := [("Userid", userId), ("Username", name), ("Useremail", email), ("Challengeid", challengeId)];
    if userId != [] && name != [] && email != [] && challengeId == [] {
      assert head[3..] == [("Challengeid", [])];
      assert FirstEmpty(head[3..]) == Some("Challengeid");
      assert head[2..][1..] == head[3..];
      assert FirstEmpty(head[2..]) == Some("Challengeid");
      assert head[1..][1..] == head[2..];
      assert FirstEmpty(head[1..]) == Some("Challengeid");
    }
  }

  /** With all headers present, the first empty value is what is reported. */
  lemma ReportsEmpty(h: map<string, string>)
    requires CollectHead(h).Success? && FirstEmpty(CollectHead(h).value).Some?
    ensures Validate(h) == Failure(Bad(FirstEmpty(CollectHead(h).value).value + " cannot be empty"))
  {
  }

  /** Once the headers are present and non-empty, a user id that is not an
      integer is reported before anything about the email or the challenge
      id, a bad email before a bad challenge id, and a negative challenge id
      last. */
  lemma ChecksOrder(h: map<string, string>)
    requires "userId" in h && "userName" in h && "userEmail" in h && "challengeId" in h
    requires h["userId"] != [] && h["userName"] != [] && h["userEmail"] != [] && h["challengeId"] != []
    ensures ParseInt(h["userId"]).None? ==> Validate(h) == Failure(Bad("Userid must be an integer"))
    ensures ParseInt(h["userId"]).Some? && ParseInt(h["userId"]).value < 0 ==>
              Validate(h) == Failure(Bad("Userid cannot be negative"))
    ensures ParseInt(h["userId"]).Some? && ParseInt(h["userId"]).value >= 0 && ' ' in h["userEmail"] ==>
              Validate(h) == Failure(Bad("Useremail cannot contain spaces"))
    ensures (ParseInt(h["userId"]).Some? && ParseInt(h["userId"]).value >= 0 && ' ' !in h["userEmail"]
             && '@' !in h["userEmail"]) ==> Validate(h) == Failure(Bad("Invalid Useremail"))
    ensures (ParseInt(h["userId"]).Some? && ParseInt(h["userId"]).value >= 0 && ' ' !in h["userEmail"]
             && '@' in h["userEmail"] && ParseInt(h["challengeId"]).None?) ==>
              Validate(h) == Failure(Bad("Challengeid must be an integer"))
    ensures (ParseInt(h["userId"]).Some? && ParseInt(h["userId"]).value >= 0 && ' ' !in h["userEmail"]
             && '@' in h["userEmail"] && ParseInt(h["challengeId"]).Some? && ParseInt(h["challengeId"]).value < 0) ==>
              Validate(h) == Failure(Bad("Challengeid cannot be negative"))
  {
    var head := CollectHead(h).value;
    assert NoneEmpty(head);
  }
}
