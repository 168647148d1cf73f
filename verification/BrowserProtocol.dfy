/** What one call of the runner does to its world: the specification the Runner class meets and
    the run-level theorems are about (internal/browser/runner.go, internal/browser/recovery.go). */
module BrowserProtocol {
  import opened Days
  import opened BrowserSession
  import opened Wrappers

  /** The two steps shared by pauseForHuman and checkpoint: capture, and store if captured. */
  function Capture(w: World, o: Oracle, id: nat): (World, string) {
    var shot := w.Answer(o);
    var w1 := w.Log(TookScreenshot(id, !shot.fails));
    if shot.fails then (w1, "")
    else
      var kept := w1.Answer(o);
      (w1.Log(SavedScreenshot(id, !kept.fails)), kept.text)
  }

  function PausedSession(s: Session, url: string, ref: string, reason: Reason): Session {
    s.(currentUrl := if url != "" then url else s.currentUrl,
    state := HumanReq, humanRequired := true, failureReason := reason, screenshotRef := ref)
  }

  function PauseForHuman(w: World, o: Oracle, cfg: Config, s: Session, reason: Reason): (World, Return) {
    var (w1, ref) := Capture(w, o, s.id);
    var url := w1.Answer(o).text;
    var w2 := w1.Log(ReadUrl(s.id));
    var paused := PausedSession(s, url, ref, reason);
    var saved := w2.Answer(o);
    var w3 := PutSession(w2, o, paused);
    if saved.fails then (w3, Refuse(SaveError)) else IssueToken(w3, o, cfg, paused)
  }

  /** The second half of a pause: a recovery token for the session just stored, then the notice. */
  function IssueToken(w: World, o: Oracle, cfg: Config, paused: Session): (World, Return) {
    var w1 := Tick(w, o);
    var drawn := w1.Answer(o);
    var token := w1.nextToken;
    var w2 := DrawToken(w1, o, paused.id);
    if drawn.fails then (w2, Refuse(RandomError))
    else
      var kept := w2.Answer(o);
      var w3 := PutToken(w2, o, token, paused.id, w1.clock + cfg.recoveryTTL);
      if kept.fails then (w3, Refuse(SaveTokenError))
      else if !cfg.hasNotifier then (w3, Return(paused, HumanRequired, None))
      else
        var told := w3.Answer(o);
        (w3.Log(Notified(paused.id, !told.fails)),
         Return(paused, HumanRequired, if told.fails then Some(NotifyError) else None))
  }

  /** fail and expire: one save, whose error is handed back beside the outcome. */
  function Finish(w: World, o: Oracle, s: Session, outcome: Outcome): (World, Return) {
    var w1 := PutSession(w, o, s);
    (w1, if w.Answer(o).fails then Return(ZERO_SESSION, outcome, Some(SaveError)) else Return(s, outcome, None))
  }

  function Fail(w: World, o: Oracle, s: Session, reason: Reason): (World, Return) {
    Finish(w, o, s.(state := Failed, failureReason := reason), FailedOutcome)
  }

  function Expire(w: World, o: Oracle, s: Session): (World, Return) {
    Finish(w, o, s.(state := Expired), ExpiredOutcome)
  }

  /** handleNonNormalState on a state other than Normal. */
  function HandleTrouble(w: World, o: Oracle, cfg: Config, s: Session, page: PageState): (World, Return)
    requires page != Normal
  {
    match page
    case Captcha => PauseForHuman(w, o, cfg, s, CaptchaDetected)
    case LoginWall => PauseForHuman(w, o, cfg, s, UnrecognizedPage(page))
    case Unknown => PauseForHuman(w, o, cfg, s, UnrecognizedPage(page))
    case NavigateErr => Fail(w, o, s, NavigationError)
    case _ => PauseForHuman(w, o, cfg, s, UnhandledPage(page))
  }

  /** The checkpoint record; the session it leaves is to be stored only if the record was. */
  function WriteCheckpoint(w: World, o: Oracle, s: Session): (World, Maybe<Session>) {
    var (w1, ref) := Capture(w, o, s.id);
    var w2 := Tick(w1, o);
    var now := w2.clock;
    var c := Checkpoint(w2.nextId, s.id, "form_section", s.currentUrl, ref, now);
    var w3 := w2.(nextId := w2.nextId + 1);
    (PutCheckpoint(w3, o, c),
     if w3.Answer(o).fails then None else Some(s.(lastCheckpointAt := now, screenshotRef := ref)))
  }

  function SaveProgress(w: World, o: Oracle, s: Session): (World, Return) {
    var (w1, ready) := WriteCheckpoint(w, o, s);
    if ready.None? then (w1, Refuse(CheckpointError))
    else
      (PutSession(w1, o, ready.value),
       if w1.Answer(o).fails then Refuse(SaveError) else Return(ready.value, ReadyForReview, None))
  }

  function FillAndCheckpoint(w: World, o: Oracle, cfg: Config, s: Session, fields: seq<FieldValue>)
    : (World, Return)
  {
    var filled := w.Answer(o);
    var w1 := w.Log(Filled(s.id, fields, !filled.fails));
    if filled.fails then Fail(w1, o, s, FillFailed(filled.text))
    else
      var seen := w1.Answer(o);
      var w2 := w1.Log(Detected(s.id, Seen(seen)));
      if seen.fails then Fail(w2, o, s, DetectionFailed(seen.text))
      else if seen.page != Normal then HandleTrouble(w2, o, cfg, s, seen.page)
      else SaveProgress(w2, o, s)
  }

  function NavigateAndFill(w: World, o: Oracle, cfg: Config, s: Session, url: string, fields: seq<FieldValue>)
    : (World, Return)
  {
    var w1 := Tick(w, o);
    if s.IsExpired(w1.clock) then Expire(w1, o, s)
    else
      var seen := w1.Answer(o);
      var w2 := w1.Log(Navigated(s.id, url, Seen(seen)));
      if seen.fails then Fail(w2, o, s, NavigationFailed(seen.text))
      else
        var there := s.(currentUrl := url);
        if seen.page != Normal then HandleTrouble(w2, o, cfg, there, seen.page)
        else FillAndCheckpoint(w2, o, cfg, there, fields)
  }

  function NewSession(w: World, cfg: Config, input: StartInput): Session {
    Session(w.nextId, input.applicationId, input.platform, "", Starting, w.clock, 0, "",
            w.clock + cfg.maxSessionMinutes * 60, false, NoReason)
  }

  function StartCall(w: World, o: Oracle, cfg: Config, input: StartInput): (World, Return) {
    var w1 := Tick(w, o);
    var since := StartOfDay(w1.clock);
    var counted := w1.Answer(o);
    var w2 := w1.Log(CountedSessions(since, !counted.fails));
    if counted.fails then (w2, Refuse(CountError))
    else if CountSince(w2.StartTimes(), since) >= cfg.sessionsPerDay then (w2, Refuse(DailyLimit))
    else Admit(w2, o, cfg, input)
  }

  /** Start once its limit check has passed; the clock is read again for the new session. */
  function Admit(w: World, o: Oracle, cfg: Config, input: StartInput): (World, Return) {
    var w1 := Tick(w, o);
    LaunchAndGo(w1.(nextId := w1.nextId + 1), o, cfg, NewSession(w1, cfg, input), input)
  }

  function LaunchAndGo(w: World, o: Oracle, cfg: Config, s: Session, input: StartInput): (World, Return) {
    var launched := w.Answer(o);
    var w1 := w.Log(Launched(s.id, !launched.fails));
    if launched.fails then
      var dead := s.(state := Failed, failureReason := LaunchError(launched.text));
      var saved := w1.Answer(o);
      (PutSession(w1, o, dead),
       if saved.fails then Refuse(SaveError) else Return(dead, FailedOutcome, Some(LaunchFailure)))
    else
      var running := s.(state := Running);
      var saved := w1.Answer(o);
      var w2 := PutSession(w1, o, running);
      if saved.fails then (w2, Refuse(SaveError))
      else NavigateAndFill(w2, o, cfg, running, input.startUrl, input.fields)
  }

  /** Redeem: look up, then revoke; the session id is handed out only if both answered. */
  function Redeem(w: World, o: Oracle, token: nat, now: int): (World, Maybe<Error>) {
    var looked := w.Answer(o);
    var w1 := w.Log(LookedUpToken(token, !looked.fails));
    if looked.fails then (w1, Some(LookupError))
    else if !Redeemable(w1, token, now) then (w1, Some(InvalidToken))
    else
      (Revoke(w1, o, token), if w1.Answer(o).fails then Some(RevokeError) else None)
  }

  function ResumeCall(w: World, o: Oracle, cfg: Config, token: nat, fields: seq<FieldValue>): (World, Return) {
    var w1 := Tick(w, o);
    var (w2, failed) := Redeem(w1, o, token, w1.clock);
    if failed.Some? then (w2, Refuse(failed.value))
    else if token !in w2.tokens then assert false; (w2, Refuse(InvalidToken))
    else
      var id := w2.tokens[token].sessionId;
      var loaded := w2.Answer(o);
      var w3 := w2.Log(LoadedSession(id, !loaded.fails));
      if loaded.fails then (w3, Refuse(LoadError)) else ContinueSession(w3, o, cfg, Stored(w3, id), fields)
  }

  function ContinueSession(w: World, o: Oracle, cfg: Config, s: Session, fields: seq<FieldValue>): (World, Return) {
    var w1 := Tick(w, o);
    if s.IsExpired(w1.clock) then Expire(w1, o, s)
    else
      var seen := w1.Answer(o);
      var w2 := w1.Log(Detected(s.id, Seen(seen)));
      if seen.fails then Fail(w2, o, s, ResumeDetectionFailed(seen.text))
      else if seen.page != Normal then PauseForHuman(w2, o, cfg, s, StillNotResumable(seen.page))
      else
        var resumed := s.(state := Resumed);
        var saved := w2.Answer(o);
        var w3 := PutSession(w2, o, resumed);
        if saved.fails then (w3, Refuse(SaveError)) else FillAndCheckpoint(w3, o, cfg, resumed, fields)
  }

  function SubmitCall(w: World, o: Oracle, cfg: Config, s: Session, gatePassed: bool): (World, Return) {
    if !gatePassed then (w, Refuse(GateRefused))
    else
      var w1 := Tick(w, o);
      if s.IsExpired(w1.clock) then Expire(w1, o, s) else SaveAndClick(w1, o, cfg, s.(state := Running))
  }

  function SaveAndClick(w: World, o: Oracle, cfg: Config, s: Session): (World, Return) {
    var w1 := PutSession(w, o, s);
    if w.Answer(o).fails then (w1, Refuse(SaveError)) else ClickAndJudge(w1, o, cfg, s)
  }

  /** The click and what is made of its answer: anything but a clear success goes to a human. */
  function ClickAndJudge(w: World, o: Oracle, cfg: Config, s: Session): (World, Return) {
    var seen := w.Answer(o);
    var w1 := w.Log(Clicked(s, Seen(seen)));
    if seen.fails then PauseForHuman(w1, o, cfg, s, SubmissionUncertain(seen.text))
    else match seen.page
      case Submitted =>
        var done := s.(state := Completed);
        var saved := w1.Answer(o);
        (PutSession(w1, o, done), if saved.fails then Refuse(SaveError) else Return(done, SubmittedOk, None))
      case Normal => PauseForHuman(w1, o, cfg, s, SubmissionUnconfirmed)
      case Captcha => PauseForHuman(w1, o, cfg, s, CaptchaAfterSubmission)
      case page => PauseForHuman(w1, o, cfg, s, UnexpectedAfterSubmission(page))
  }

  /** One public call. */
  function Do(w: World, o: Oracle, cfg: Config, call: Call): (World, Return) {
    var w1 := w.Log(Begin(call));
    match call
    case Start(input) => StartCall(w1, o, cfg, input)
    case Resume(token, fields) => ResumeCall(w1, o, cfg, token, fields)
    case Submit(s, gatePassed, _) => SubmitCall(w1, o, cfg, s, gatePassed)
  }
}
