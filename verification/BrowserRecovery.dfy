/** What a result tells the caller about the stores: a ready_for_review result has its checkpoint, a
    human_required result can be resumed (internal/browser/runner.go). */
module BrowserRecovery {
  import opened Days
  import opened BrowserSession
  import opened BrowserProtocol
  import opened BrowserSafety
  import opened Wrappers

  // Ready for review

  /** The last checkpoint records where this session stands. */
  predicate RecordedIn(c: Checkpoint, s: Session) {
    && c.sessionId == s.id && c.currentUrl == s.currentUrl
    && c.screenshotRef == s.screenshotRef && c.createdAt == s.lastCheckpointAt
  }

  /** A call adds a checkpoint if it reports ready_for_review, and then the session it returns is
      stored and recorded; if it reports anything else it adds none, unless a save failed. */
  ghost predicate Checkpointed(w: World, w2: World, ret: Return) {
    if ret.outcome == ReadyForReview then
      && ret.error.None? && ret.session.id in w2.sessions && w2.sessions[ret.session.id] == ret.session
      && |w2.checkpoints| == |w.checkpoints| + 1 && w2.checkpoints[..|w.checkpoints|] == w.checkpoints
      && RecordedIn(w2.checkpoints[|w.checkpoints|], ret.session)
    else w2.checkpoints == w.checkpoints || ret.error == Some(SaveError)
  }

  lemma IssueTokenAddsNone(w: World, o: Oracle, cfg: Config, s: Session)
    ensures var (w2, ret) := IssueToken(w, o, cfg, s);
      w2.checkpoints == w.checkpoints && ret.outcome != ReadyForReview
  {
  }

  lemma PauseAddsNone(w: World, o: Oracle, cfg: Config, s: Session, reason: Reason)
    ensures var (w2, ret) := PauseForHuman(w, o, cfg, s, reason);
      w2.checkpoints == w.checkpoints && ret.outcome != ReadyForReview
  {
    var (w1, ref) := Capture(w, o, s.id);
    var w2 := w1.Log(ReadUrl(s.id));
    var paused := PausedSession(s, w1.Answer(o).text, ref, reason);
    IssueTokenAddsNone(PutSession(w2, o, paused), o, cfg, paused);
  }

  lemma TroubleAddsNone(w: World, o: Oracle, cfg: Config, s: Session, page: PageState)
    requires page != Normal
    ensures var (w2, ret) := HandleTrouble(w, o, cfg, s, page);
      w2.checkpoints == w.checkpoints && ret.outcome != ReadyForReview
  {
    match page
    case Captcha => PauseAddsNone(w, o, cfg, s, CaptchaDetected);
    case LoginWall => PauseAddsNone(w, o, cfg, s, UnrecognizedPage(page));
    case Unknown => PauseAddsNone(w, o, cfg, s, UnrecognizedPage(page));
    case NavigateErr =>
    case _ => PauseAddsNone(w, o, cfg, s, UnhandledPage(page));
  }

  lemma ProgressCheckpointed(w: World, o: Oracle, s: Session)
    ensures var (w2, ret) := SaveProgress(w, o, s); Checkpointed(w, w2, ret)
  {
    var (w1, ready) := WriteCheckpoint(w, o, s);
    if ready.Some? {
      assert w1.checkpoints[..|w.checkpoints|] == w.checkpoints;
    }
  }

  lemma FillCheckpointed(w: World, o: Oracle, cfg: Config, s: Session, fields: seq<FieldValue>)
    ensures var (w2, ret) := FillAndCheckpoint(w, o, cfg, s, fields); Checkpointed(w, w2, ret)
  {
    var w1 := w.Log(Filled(s.id, fields, !w.Answer(o).fails));
    var seen := w1.Answer(o);
    var w2 := w1.Log(Detected(s.id, Seen(seen)));
    if seen.page != Normal {
      TroubleAddsNone(w2, o, cfg, s, seen.page);
    } else {
      ProgressCheckpointed(w2, o, s);
    }
  }

  lemma NavigateCheckpointed(w: World, o: Oracle, cfg: Config, s: Session, url: string, fields: seq<FieldValue>)
    ensures var (w2, ret) := NavigateAndFill(w, o, cfg, s, url, fields); Checkpointed(w, w2, ret)
  {
    var w1 := Tick(w, o);
    var seen := w1.Answer(o);
    var w2 := w1.Log(Navigated(s.id, url, Seen(seen)));
    var there := s.(currentUrl := url);
    if seen.page != Normal {
      TroubleAddsNone(w2, o, cfg, there, seen.page);
    } else {
      FillCheckpointed(w2, o, cfg, there, fields);
    }
  }

  lemma LaunchCheckpointed(w: World, o: Oracle, cfg: Config, s: Session, input: StartInput)
    ensures var (w2, ret) := LaunchAndGo(w, o, cfg, s, input); Checkpointed(w, w2, ret)
  {
    var running := s.(state := Running);
    var w1 := w.Log(Launched(s.id, true));
    NavigateCheckpointed(PutSession(w1, o, running), o, cfg, running, input.startUrl, input.fields);
  }

  lemma CheckpointedFrom(w: World, w1: World, w2: World, ret: Return)
    requires w1.checkpoints == w.checkpoints && Checkpointed(w1, w2, ret)
    ensures Checkpointed(w, w2, ret)
  {
  }

  lemma AdmitCheckpointed(w: World, o: Oracle, cfg: Config, input: StartInput)
    ensures var (w2, ret) := Admit(w, o, cfg, input); Checkpointed(w, w2, ret)
  {
    var w0 := Tick(w, o);
    var s := NewSession(w0, cfg, input);
    var w1 := w0.(nextId := w0.nextId + 1);
    assert Admit(w, o, cfg, input) == LaunchAndGo(w1, o, cfg, s, input);
    var (w2, ret) := LaunchAndGo(w1, o, cfg, s, input);
    LaunchedCheckpointed(w, w1, o, cfg, s, input, w2, ret);
  }

  lemma LaunchedCheckpointed(
      w: World, w1: World, o: Oracle, cfg: Config, s: Session, input: StartInput, w2: World, ret: Return)
    requires w1.checkpoints == w.checkpoints && (w2, ret) == LaunchAndGo(w1, o, cfg, s, input)
    ensures Checkpointed(w, w2, ret)
  {
    LaunchCheckpointed(w1, o, cfg, s, input);
    CheckpointedFrom(w, w1, w2, ret);
  }

  lemma StartCheckpointed(w: World, o: Oracle, cfg: Config, input: StartInput)
    ensures var (w2, ret) := StartCall(w, o, cfg, input); Checkpointed(w, w2, ret)
  {
    var w1 := Tick(w, o);
    var since := StartOfDay(w1.clock);
    var counted := w1.Log(CountedSessions(since, !w1.Answer(o).fails));
    if !w1.Answer(o).fails && CountSince(counted.StartTimes(), since) < cfg.sessionsPerDay {
      var (w2, ret) := Admit(counted, o, cfg, input);
      AdmitCheckpointed(counted, o, cfg, input);
      CheckpointedFrom(w, counted, w2, ret);
    }
  }

  lemma ContinueCheckpointed(w: World, o: Oracle, cfg: Config, s: Session, fields: seq<FieldValue>)
    ensures var (w2, ret) := ContinueSession(w, o, cfg, s, fields); Checkpointed(w, w2, ret)
  {
    var w1 := Tick(w, o);
    var seen := w1.Answer(o);
    var w2 := w1.Log(Detected(s.id, Seen(seen)));
    if seen.page != Normal {
      PauseAddsNone(w2, o, cfg, s, StillNotResumable(seen.page));
    } else {
      var resumed := s.(state := Resumed);
      FillCheckpointed(PutSession(w2, o, resumed), o, cfg, resumed, fields);
    }
  }

  lemma RedeemAddsNone(w: World, o: Oracle, token: nat, now: int)
    ensures Redeem(w, o, token, now).0.checkpoints == w.checkpoints
  {
  }

  lemma ResumeCheckpointed(w: World, o: Oracle, cfg: Config, token: nat, fields: seq<FieldValue>)
    ensures var (w2, ret) := ResumeCall(w, o, cfg, token, fields); Checkpointed(w, w2, ret)
  {
    var w1 := Tick(w, o);
    RedeemAddsNone(w1, o, token, w1.clock);
    var (w2, failed) := Redeem(w1, o, token, w1.clock);
    if failed.None? && token in w2.tokens {
      var id := w2.tokens[token].sessionId;
      var w3 := w2.Log(LoadedSession(id, !w2.Answer(o).fails));
      ContinueCheckpointed(w3, o, cfg, Stored(w3, id), fields);
    }
  }

  lemma ClickAddsNone(w: World, o: Oracle, cfg: Config, s: Session)
    ensures var (w2, ret) := ClickAndJudge(w, o, cfg, s);
      w2.checkpoints == w.checkpoints && ret.outcome != ReadyForReview
  {
    var seen := w.Answer(o);
    var w1 := w.Log(Clicked(s, Seen(seen)));
    if seen.fails {
      PauseAddsNone(w1, o, cfg, s, SubmissionUncertain(seen.text));
    } else {
      match seen.page
      case Submitted =>
      case Normal => PauseAddsNone(w1, o, cfg, s, SubmissionUnconfirmed);
      case Captcha => PauseAddsNone(w1, o, cfg, s, CaptchaAfterSubmission);
      case page => PauseAddsNone(w1, o, cfg, s, UnexpectedAfterSubmission(page));
    }
  }

  lemma SubmitCheckpointed(w: World, o: Oracle, cfg: Config, s: Session, gatePassed: bool)
    ensures var (w2, ret) := SubmitCall(w, o, cfg, s, gatePassed); Checkpointed(w, w2, ret)
  {
    var running := s.(state := Running);
    var w1 := Tick(w, o);
    ClickAddsNone(PutSession(w1, o, running), o, cfg, running);
  }

  /** Whatever fails, a call that reports ready_for_review has stored the session it returns and
      exactly one new checkpoint, which records that session; a call that reports anything else
      leaves no new checkpoint, unless it reports a failed save. */
  lemma ReadyIsCheckpointed(w: World, o: Oracle, cfg: Config, call: Call)
    ensures var (w2, ret) := Do(w, o, cfg, call); Checkpointed(w, w2, ret)
  {
    var w1 := w.Log(Begin(call));
    match call
    case Start(input) => StartCheckpointed(w1, o, cfg, input);
    case Resume(token, fields) => ResumeCheckpointed(w1, o, cfg, token, fields);
    case Submit(s, gatePassed, _) => SubmitCheckpointed(w1, o, cfg, s, gatePassed);
  }

  // Resuming

  /** From now on nothing fails and every page is normal. */
  ghost predicate Smooth(o: Oracle, from: nat) {
    forall k | k >= from :: !o(k).fails && o(k).page == Normal
  }

  /** The clock is read in time for the token, and again in time for the session. */
  predicate InTime(w: World, o: Oracle, token: nat, s: Session)
    requires token in w.tokens
  {
    var n := |w.events|;
    && w.clock + o(n + 1).wait <= w.tokens[token].expiresAt
    && !s.IsExpired(w.clock + o(n + 1).wait + o(n + 5).wait)
  }

  lemma SmoothProgress(w: World, o: Oracle, s: Session)
    requires Smooth(o, |w.events|)
    ensures var (w2, ret) := SaveProgress(w, o, s);
      && ret.outcome == ReadyForReview && ret.error.None? && w2.tokens == w.tokens
      && ret.session == s.(lastCheckpointAt := ret.session.lastCheckpointAt, screenshotRef := ret.session.screenshotRef)
  {
  }

  lemma SmoothFill(w: World, o: Oracle, cfg: Config, s: Session, fields: seq<FieldValue>)
    requires Smooth(o, |w.events|)
    ensures var (w2, ret) := FillAndCheckpoint(w, o, cfg, s, fields);
      && ret.outcome == ReadyForReview && ret.error.None? && w2.tokens == w.tokens
      && ret.session == s.(lastCheckpointAt := ret.session.lastCheckpointAt, screenshotRef := ret.session.screenshotRef)
  {
    var w2 := w.Log(Filled(s.id, fields, true)).Log(Detected(s.id, Some(Normal)));
    SmoothProgress(w2, o, s);
  }

  lemma SmoothContinue(w: World, o: Oracle, cfg: Config, s: Session, fields: seq<FieldValue>)
    requires Smooth(o, |w.events|) && !s.IsExpired(w.clock + w.Answer(o).wait)
    ensures var (w2, ret) := ContinueSession(w, o, cfg, s, fields);
      && ret.outcome == ReadyForReview && ret.error.None? && w2.tokens == w.tokens
      && ret.session == s.(state := Resumed, lastCheckpointAt := ret.session.lastCheckpointAt,
                           screenshotRef := ret.session.screenshotRef)
  {
    var w1 := Tick(w, o);
    var w2 := w1.Log(Detected(s.id, Some(Normal)));
    var resumed := s.(state := Resumed);
    SmoothFill(PutSession(w2, o, resumed), o, cfg, resumed, fields);
  }

  /** A pause is undone by its token: in any sound world a live token, used in time while nothing
      fails and the page is normal, resumes its very session where it stood, and is spent. */
  lemma LiveTokenResumes(w: World, o: Oracle, cfg: Config, token: nat, fields: seq<FieldValue>)
    requires Sound(w) && w.Live(token) && Smooth(o, |w.events|)
    requires InTime(w, o, token, Stored(w, w.tokens[token].sessionId))
    ensures var s := Stored(w, w.tokens[token].sessionId);
            var (w2, ret) := Do(w, o, cfg, Resume(token, fields));
      && s.state == HumanReq
      && ret.outcome == ReadyForReview && ret.error.None?
      && ret.session == s.(state := Resumed, lastCheckpointAt := ret.session.lastCheckpointAt,
                           screenshotRef := ret.session.screenshotRef)
      && !w2.Live(token)
  {
    var s := Stored(w, w.tokens[token].sessionId);
    var w1 := Tick(w.Log(Begin(Resume(token, fields))), o);
    var w2 := Revoke(w1.Log(LookedUpToken(token, true)), o, token);
    assert Redeem(w1, o, token, w1.clock) == (w2, None);
    var w3 := w2.Log(LoadedSession(s.id, true));
    assert |w3.events| == |w.events| + 5;
    SmoothContinue(w3, o, cfg, s, fields);
  }
}
