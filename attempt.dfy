/** Flag submission (`ChallengeAttempt.post`) and the prerequisite gate that
    the challenge listing (`ChallengeList.get`) and the challenge detail
    view (`Challenge.get`) apply (CTFd/api/v1/challenges.py). The plugin's
    `attempt` is an input (a judgement), its `solve` and `fail` are
    recorded as the effect of the request. */
module Attempt {
  import opened Py
  import opened Text

  /** A non-empty `requirements` dict: its "prerequisites" list (as a set of
      ids; an absent list is empty) and its "anonymize" flag. */
  datatype Requirements = Requirements(prerequisites: set<int>, anonymize: bool)

  /** A row of the Challenges table as these handlers read it. `kind` is the
      challenge type; `requirements` is `None` for a falsy value. */
  datatype Challenge = Challenge(state: string, kind: string, requirements: Option<Requirements>, maxAttempts: int)

  /** The request context: whether someone is logged in, whether they are an
      admin, whether `preview` was given, the pause flag and the CTF name,
      teams mode and whether the caller has a team, and whether the CTF is
      running. */
  datatype Session = Session(authed: bool, admin: bool, preview: bool, paused: bool, ctfName: string,
                             teamsMode: bool, hasTeam: bool, ctftime: bool)

  /** The caller's account as the cascade reads it: the ids it has solved,
      its failed submissions on this challenge, and its wrong submissions
      in the last minute. */
  datatype Standing = Standing(solves: set<int>, fails: int, kpm: int)

  /** What the challenge plugin's `attempt` answers. */
  datatype Judgement = Judgement(correct: bool, message: string)

  /** The handler's answer: a `data` object with a status and an optional
      message under a code, an `abort(code)`, or an exception. */
  datatype Reply = Data(code: int, status: string, message: Option<string>) | Abort(code: int) | Raise(error: PyError)

  /** The plugin call the handler makes on the store, if any. */
  datatype Effect = NoEffect | RecordFail | RecordSolve

  datatype Outcome = Outcome(reply: Reply, effect: Effect)

  /** The prerequisite gate shared by the three views: the prerequisites
      that name an existing challenge must all be solved. */
  predicate PrerequisitesMet(requirements: Option<Requirements>, solves: set<int>, allIds: set<int>) {
    requirements.None? || requirements.value.prerequisites * allIds <= solves
  }

  /** The characters after which no "." is added. */
  const Marks: string := "!().;?[]{}"

  /** The judge's message with a full stop added unless it already ends in
      a punctuation mark. */
  function Punctuated(m: string): (r: string)
    requires m != []
    ensures |r| >= |m| && r[|r| - 1] in Marks && r[..|m|] == m
    ensures m[|m| - 1] in Marks <==> r == m
    ensures m[|m| - 1] !in Marks ==> r == m + "."
  {
    if m[|m| - 1] in Marks then m else m + "."
  }

  /** `pluralize(n, singular="try", plural="tries")`. */
  function Tries(n: int): string {
    if n == 1 then "try" else "tries"
  }

  /** The tries left reported after a wrong answer: the fail just recorded
      is not yet in `fails`. */
  function TriesLeft(maxAttempts: int, fails: int): int {
    maxAttempts - fails - 1
  }

  /** Every guard before the judge passes, stated without regard to order. */
  predicate ReachesJudge(s: Session, challenges: map<int, Challenge>, installed: set<string>, kpmLimit: int,
                         id: int, st: Standing)
  {
    && s.authed && !(s.admin && s.preview) && !s.paused && !(s.teamsMode && !s.hasTeam)
    && id in challenges
    && challenges[id].state != "hidden" && challenges[id].state != "locked"
    && PrerequisitesMet(challenges[id].requirements, st.solves, challenges.Keys)
    && challenges[id].kind in installed
    && st.kpm <= kpmLimit
    && id !in st.solves
    && !(challenges[id].maxAttempts != 0 && st.fails >= challenges[id].maxAttempts > 0)
  }

  /** The whole handler. `challenges` is the Challenges table (its keys are
      all existing ids), `installed` the registered challenge types,
      `kpmLimit` the configured limit. */
  function Submit(s: Session, challenges: map<int, Challenge>, installed: set<string>, kpmLimit: int,
                  id: int, st: Standing, judge: Judgement): Outcome
  {
    if !s.authed then Outcome(Data(403, "authentication_required", None), NoEffect)
    else if s.admin && s.preview then
      if id !in challenges then Outcome(Abort(404), NoEffect)
      else if challenges[id].kind !in installed then Outcome(Raise(KeyError), NoEffect)
      else Outcome(Data(200, if judge.correct then "correct" else "incorrect", Some(judge.message)), NoEffect)
    else if s.paused then Outcome(Data(403, "paused", Some(s.ctfName + " is paused")), NoEffect)
    else if s.teamsMode && !s.hasTeam then Outcome(Abort(403), NoEffect)
    else if id !in challenges then Outcome(Abort(404), NoEffect)
    else
      var c := challenges[id];
      if c.state == "hidden" then Outcome(Abort(404), NoEffect)
      else if c.state == "locked" then Outcome(Abort(403), NoEffect)
      else if !PrerequisitesMet(c.requirements, st.solves, challenges.Keys) then Outcome(Abort(403), NoEffect)
      else if c.kind !in installed then Outcome(Raise(KeyError), NoEffect)
      else if st.kpm > kpmLimit then
        Outcome(Data(429, "ratelimited", Some("You're submitting flags too fast. Slow down.")),
                if s.ctftime then RecordFail else NoEffect)
      else if id in st.solves then Outcome(Data(200, "already_solved", Some("You already solved this")), NoEffect)
      else if c.maxAttempts != 0 && st.fails >= c.maxAttempts > 0 then
        Outcome(Data(403, "incorrect", Some("You have 0 tries remaining")), NoEffect)
      else Judged(s, c, st, judge)
  }

  /** After every guard: the plugin's verdict, recorded when the CTF is
      running or the caller is an admin. */
  function Judged(s: Session, c: Challenge, st: Standing, judge: Judgement): Outcome {
    var recorded := s.ctftime || s.admin;
    if judge.correct then
      Outcome(Data(200, "correct", Some(judge.message)), if recorded then RecordSolve else NoEffect)
    else
      var effect := if recorded then RecordFail else NoEffect;
      if c.maxAttempts == 0 then Outcome(Data(200, "incorrect", Some(judge.message)), effect)
      else if judge.message == [] then Outcome(Raise(IndexError), effect)
      else
        var left := TriesLeft(c.maxAttempts, st.fails);
        Outcome(Data(200, "incorrect", Some(Punctuated(judge.message) + " You have " + IntToString(left) + " "
                                            + Tries(left) + " remaining.")), effect)
  }

  /** The guards, each in its place: the first one that fails decides the
      reply, whatever comes after it. */
  lemma SubmitCascade(s: Session, challenges: map<int, Challenge>, installed: set<string>, kpmLimit: int,
                      id: int, st: Standing, judge: Judgement)
    requires s.authed && !(s.admin && s.preview) && !s.paused && !(s.teamsMode && !s.hasTeam)
    ensures var o := Submit(s, challenges, installed, kpmLimit, id, st, judge);
      && (id !in challenges ==> o == Outcome(Abort(404), NoEffect))
      && (id in challenges && challenges[id].state == "hidden" ==> o == Outcome(Abort(404), NoEffect))
      && (id in challenges && challenges[id].state == "locked" ==> o == Outcome(Abort(403), NoEffect))
      && (id in challenges && challenges[id].state != "hidden" && challenges[id].state != "locked"
          && !PrerequisitesMet(challenges[id].requirements, st.solves, challenges.Keys) ==>
            o == Outcome(Abort(403), NoEffect))
      && (id in challenges && challenges[id].state != "hidden" && challenges[id].state != "locked"
          && PrerequisitesMet(challenges[id].requirements, st.solves, challenges.Keys)
          && challenges[id].kind in installed && st.kpm > kpmLimit ==>
            o == Outcome(Data(429, "ratelimited", Some("You're submitting flags too fast. Slow down.")),
                         if s.ctftime then RecordFail else NoEffect))
      && (id in challenges && challenges[id].state != "hidden" && challenges[id].state != "locked"
          && PrerequisitesMet(challenges[id].requirements, st.solves, challenges.Keys)
          && challenges[id].kind in installed && st.kpm <= kpmLimit && id in st.solves ==>
            o == Outcome(Data(200, "already_solved", Some("You already solved this")), NoEffect))
      && (id in challenges && challenges[id].state != "hidden" && challenges[id].state != "locked"
          && PrerequisitesMet(challenges[id].requirements, st.solves, challenges.Keys)
          && challenges[id].kind in installed && st.kpm <= kpmLimit && id !in st.solves
          && st.fails >= challenges[id].maxAttempts > 0 ==>
            o == Outcome(Data(403, "incorrect", Some("You have 0 tries remaining")), NoEffect))
  {
  }

  /** The judge is consulted only when every guard passes: otherwise the
      outcome is the same whatever the submission would have been judged. */
  lemma {:induction false} JudgeOnlyPastGuards(s: Session, challenges: map<int, Challenge>, installed: set<string>,
                                                kpmLimit: int, id: int, st: Standing, j1: Judgement, j2: Judgement)
    requires !ReachesJudge(s, challenges, installed, kpmLimit, id, st)
    requires !(s.authed && s.admin && s.preview)
    ensures Submit(s, challenges, installed, kpmLimit, id, st, j1) == Submit(s, challenges, installed, kpmLimit, id, st, j2)
  {
    if s.authed && !s.paused && !(s.teamsMode && !s.hasTeam) && id in challenges {
      var c := challenges[id];
      assert !(c.state != "hidden" && c.state != "locked"
               && PrerequisitesMet(c.requirements, st.solves, challenges.Keys)
               && c.kind in installed && st.kpm <= kpmLimit && id !in st.solves
               && !(c.maxAttempts != 0 && st.fails >= c.maxAttempts > 0));
    }
  }

  /** Past the guards, the reply is the judge's: "correct" with the judge's
      message, or "incorrect". */
  lemma {:induction false} PastGuardsIsJudged(s: Session, challenges: map<int, Challenge>, installed: set<string>,
                                               kpmLimit: int, id: int, st: Standing, judge: Judgement)
    requires ReachesJudge(s, challenges, installed, kpmLimit, id, st)
    ensures var o := Submit(s, challenges, installed, kpmLimit, id, st, judge);
      && (judge.correct ==> o.reply == Data(200, "correct", Some(judge.message)))
      && (!judge.correct ==> (o.reply.Data? && o.reply.code == 200 && o.reply.status == "incorrect")
                             || (o.reply == Raise(IndexError) && judge.message == []))
  {
    assert Submit(s, challenges, installed, kpmLimit, id, st, judge) == Judged(s, challenges[id], st, judge);
  }

  /** A solve is recorded exactly when every guard passes, the judge says
      correct and the CTF is running or the caller is an admin. A fail is
      recorded exactly for a rate-limited request during the CTF, and for a
      wrong answer past the guards under the same condition as a solve. */
  lemma {:induction false} RecordedEffects(s: Session, challenges: map<int, Challenge>, installed: set<string>,
                                            kpmLimit: int, id: int, st: Standing, judge: Judgement)
    ensures var o := Submit(s, challenges, installed, kpmLimit, id, st, judge);
      o.effect == RecordSolve <==> ReachesJudge(s, challenges, installed, kpmLimit, id, st) && judge.correct
                                   && (s.ctftime || s.admin)
    ensures var o := Submit(s, challenges, installed, kpmLimit, id, st, judge);
      o.effect == RecordFail ==>
        (o.reply.Data? && o.reply.code == 429 && s.ctftime)
        || (ReachesJudge(s, challenges, installed, kpmLimit, id, st) && !judge.correct && (s.ctftime || s.admin))
    ensures var o := Submit(s, challenges, installed, kpmLimit, id, st, judge);
      ReachesJudge(s, challenges, installed, kpmLimit, id, st) && !judge.correct && (s.ctftime || s.admin) ==>
        o.effect == RecordFail
    ensures var o := Submit(s, challenges, installed, kpmLimit, id, st, judge);
      (&& s.authed && !(s.admin && s.preview) && !s.paused && !(s.teamsMode && !s.hasTeam)
       && id in challenges && challenges[id].state != "hidden" && challenges[id].state != "locked"
       && PrerequisitesMet(challenges[id].requirements, st.solves, challenges.Keys)
       && challenges[id].kind in installed && st.kpm > kpmLimit && s.ctftime) ==>
        o.effect == RecordFail
  {
    if ReachesJudge(s, challenges, installed, kpmLimit, id, st) {
      assert Submit(s, challenges, installed, kpmLimit, id, st, judge) == Judged(s, challenges[id], st, judge);
    }
  }

  /** The tries left after a wrong answer under a positive limit are never
      negative, and the reply names them without a sign. */
  lemma {:induction false} TriesLeftNonNegative(s: Session, challenges: map<int, Challenge>, installed: set<string>,
                                                 kpmLimit: int, id: int, st: Standing, judge: Judgement)
    requires ReachesJudge(s, challenges, installed, kpmLimit, id, st)
    requires challenges[id].maxAttempts > 0 && !judge.correct && judge.message != []
    ensures var left := TriesLeft(challenges[id].maxAttempts, st.fails);
      && 0 <= left < challenges[id].maxAttempts - st.fails
      && Submit(s, challenges, installed, kpmLimit, id, st, judge).reply
         == Data(200, "incorrect", Some(Punctuated(judge.message) + " You have " + NatToString(left) + " "
                                        + Tries(left) + " remaining."))
  {
    assert Submit(s, challenges, installed, kpmLimit, id, st, judge) == Judged(s, challenges[id], st, judge);
  }

  // ---------------------------------------------------------------------
  // the listing

  /** A challenge as the listing query yields it. */
  datatype Listed = Listed(id: int, kind: string, requirements: Option<Requirements>)

  /** A listing entry: the challenge itself, or its anonymized stand-in. */
  datatype Entry = Visible(id: int) | Anonymized(id: int)

  /** The entry for one challenge, if any: hidden behind unmet prerequisites
      (anonymized when the challenge asks for it), dropped when its type is
      not installed. */
  function EntryFor(c: Listed, solves: set<int>, allIds: set<int>, adminView: bool, installed: set<string>): Option<Entry> {
    if !adminView && !PrerequisitesMet(c.requirements, solves, allIds) then
      if c.requirements.value.anonymize then Some(Anonymized(c.id)) else None
    else if c.kind !in installed then None
    else Some(Visible(c.id))
  }

  /** The response list: the entries of the challenges, in query order. */
  function ListView(q: seq<Listed>, solves: set<int>, allIds: set<int>, adminView: bool, installed: set<string>): seq<Entry>
  {
    if q == [] then []
    else
      var rest := ListView(q[..|q| - 1], solves, allIds, adminView, installed);
      var e := EntryFor(q[|q| - 1], solves, allIds, adminView, installed);
      if e.Some? then rest + [e.value] else rest
  }

  /** The loop that builds the listing. */
  method ListChallenges(q: seq<Listed>, solves: set<int>, allIds: set<int>, adminView: bool, installed: set<string>)
    returns (response: seq<Entry>)
    ensures response == ListView(q, solves, allIds, adminView, installed)
  {
    response := [];
    var i := 0;
    while i < |q|
      invariant 0 <= i <= |q|
      invariant response == ListView(q[..i], solves, allIds, adminView, installed)
    {
      var c := q[i];
      assert q[..i + 1][..i] == q[..i];
      if c.requirements.Some? {
        if !(c.requirements.value.prerequisites * allIds <= solves || adminView) {
          if c.requirements.value.anonymize {
            response := response + [Anonymized(c.id)];
          }
          i := i + 1;
          continue;
        }
      }
      if c.kind in installed {
        response := response + [Visible(c.id)];
      }
      i := i + 1;
    }
    assert q[..|q|] == q;
  }

  /** Which challenges the listing shows: a challenge is listed in full
      exactly when its prerequisites are met (or the admin view is on) and
      its type is installed; it is listed anonymized exactly when its
      prerequisites are unmet outside the admin view and it asks to be
      anonymized. Nothing else appears. */
  lemma {:induction false} ListViewMembers(q: seq<Listed>, solves: set<int>, allIds: set<int>, adminView: bool,
                                           installed: set<string>, e: Entry)
    ensures e in ListView(q, solves, allIds, adminView, installed) <==>
      exists i :: 0 <= i < |q| && EntryFor(q[i], solves, allIds, adminView, installed) == Some(e)
    decreases |q|
  {
    if q != [] {
      var init := q[..|q| - 1];
      ListViewMembers(init, solves, allIds, adminView, installed, e);
      if e in ListView(q, solves, allIds, adminView, installed) {
        if e in ListView(init, solves, allIds, adminView, installed) {
          var i :| 0 <= i < |init| && EntryFor(init[i], solves, allIds, adminView, installed) == Some(e);
          assert q[i] == init[i];
        } else {
          assert EntryFor(q[|q| - 1], solves, allIds, adminView, installed) == Some(e);
        }
      } else {
        forall i | 0 <= i < |q| ensures EntryFor(q[i], solves, allIds, adminView, installed) != Some(e) {
          if i < |q| - 1 {
            assert q[i] == init[i];
          }
        }
      }
    }
  }

  /** The listing never grows past the query and keeps its order: the
      entry for a challenge comes from that challenge. */
  lemma {:induction false} ListViewLength(q: seq<Listed>, solves: set<int>, allIds: set<int>, adminView: bool,
                                          installed: set<string>)
    ensures |ListView(q, solves, allIds, adminView, installed)| <= |q|
    ensures adminView && (forall i :: 0 <= i < |q| ==> q[i].kind in installed) ==>
      ListView(q, solves, allIds, adminView, installed) == seq(|q|, i requires 0 <= i < |q| => Visible(q[i].id))
    decreases |q|
  {
    if q != [] {
      var init := q[..|q| - 1];
      ListViewLength(init, solves, allIds, adminView, installed);
      if adminView && (forall i :: 0 <= i < |q| ==> q[i].kind in installed) {
        assert forall i :: 0 <= i < |init| ==> init[i].kind in installed;
        var all := seq(|q|, i requires 0 <= i < |q| => Visible(q[i].id));
        assert all == seq(|init|, i requires 0 <= i < |init| => Visible(init[i].id)) + [Visible(q[|q| - 1].id)];
      }
    }
  }

  // ---------------------------------------------------------------------
  // the detail view

  /** What the detail view answers, before the shared rendering. */
  datatype Detail = NotFound | TypeMissing | Forbidden | AnonymizedDetail | Shown

  /** `Challenge.get`: non-admins do not see hidden or locked challenges; a
      missing type is a 500; a challenge with requirements needs the
      challenges to be visible and its prerequisites met (an anonymous
      viewer has solved nothing), or an admin. */
  function DetailView(challenges: map<int, Challenge>, installed: set<string>, id: int, admin: bool,
                      challengesVisible: bool, viewerSolves: Option<set<int>>): (d: Detail)
    ensures d == Shown ==> id in challenges && challenges[id].kind in installed
    ensures d == Shown && !admin ==> challenges[id].state != "hidden" && challenges[id].state != "locked"
    ensures d == Shown && !admin ==>
      PrerequisitesMet(challenges[id].requirements, if viewerSolves.Some? then viewerSolves.value else {}, challenges.Keys)
    ensures d == AnonymizedDetail ==> !admin && id in challenges && challenges[id].requirements.Some? && challenges[id].requirements.value.anonymize
  {
    if id !in challenges then NotFound
    else
      var c := challenges[id];
      if !admin && (c.state == "hidden" || c.state == "locked") then NotFound
      else if c.kind !in installed then TypeMissing
      else if c.requirements.None? then Shown
      else if !challengesVisible then Forbidden
      else
        var solves := if viewerSolves.Some? then viewerSolves.value else {};
        if PrerequisitesMet(c.requirements, solves, challenges.Keys) || admin then Shown
        else if c.requirements.value.anonymize then AnonymizedDetail
        else Forbidden
  }

  /** The listing and the detail view agree for a non-admin viewer with
      visible challenges: a listed challenge whose type is installed is
      shown in full by both or by neither. */
  lemma GateAgrees(challenges: map<int, Challenge>, installed: set<string>, id: int, solves: set<int>)
    requires id in challenges && challenges[id].kind in installed
    requires challenges[id].state != "hidden" && challenges[id].state != "locked"
    ensures var c := challenges[id];
      (EntryFor(Listed(id, c.kind, c.requirements), solves, challenges.Keys, false, installed) == Some(Visible(id)))
      <==> (DetailView(challenges, installed, id, false, true, Some(solves)) == Shown)
  {
  }

  /** The submission gate and the detail gate agree: a non-admin who may
      submit to a challenge with requirements may also see it in full. */
  lemma {:induction false} SubmitImpliesShown(s: Session, challenges: map<int, Challenge>, installed: set<string>,
                                               kpmLimit: int, id: int, st: Standing)
    requires ReachesJudge(s, challenges, installed, kpmLimit, id, st) && !s.admin
    ensures DetailView(challenges, installed, id, false, true, Some(st.solves)) == Shown
  {
  }
}
