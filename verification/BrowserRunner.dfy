/** The runner as the program has it: an object whose methods act step by step on its stores and
    its driver. Each method is proved to do what BrowserProtocol says of the world it had. */
module BrowserRunner {
  import opened Days
  import opened BrowserSession
  import opened BrowserProtocol
  import opened Wrappers

  class Runner {
    const cfg: Config
    const answers: Oracle

    var clock: int
    var nextId: nat
    var nextToken: nat
    var sessions: map<nat, Session>
    var tokens: map<nat, TokenEntry>
    var checkpoints: seq<Checkpoint>
    var events: seq<Event>

    ghost function View(): World
      reads this
    {
      World(clock, nextId, nextToken, sessions, tokens, checkpoints, events)
    }

    constructor (cfg: Config, answers: Oracle, clock: int)
      ensures View() == EmptyWorld(clock) && this.cfg == cfg && this.answers == answers
    {
      this.cfg, this.answers, this.clock := cfg, answers, clock;
      nextId, nextToken := 1, 1;
      sessions, tokens, checkpoints, events := map[], map[], [], [];
    }

    function Reply(): Reply
      reads this
    {
      answers(|events|)
    }

    // Outside calls

    method Note(e: Event)
      modifies `events
      ensures View() == old(View()).Log(e)
    {
      events := events + [e];
    }

    method Now() returns (now: int)
      modifies `clock, `events
      ensures View() == Tick(old(View()), answers) && now == clock
    {
      clock := clock + Reply().wait;
      now := clock;
      Note(ClockRead(now));
    }

    method NewID() returns (id: nat)
      modifies `nextId
      ensures id == old(nextId) && nextId == id + 1
    {
      id := nextId;
      nextId := nextId + 1;
    }

    method SaveSession(s: Session) returns (ok: bool)
      modifies `sessions, `events
      ensures View() == PutSession(old(View()), answers, s) && ok == !old(Reply()).fails
    {
      ok := !Reply().fails;
      if ok {
        sessions := sessions[s.id := s];
      }
      Note(SavedSession(s, ok));
    }

    method SaveCheckpoint(c: Checkpoint) returns (ok: bool)
      modifies `checkpoints, `events
      ensures View() == PutCheckpoint(old(View()), answers, c) && ok == !old(Reply()).fails
    {
      ok := !Reply().fails;
      if ok {
        checkpoints := checkpoints + [c];
      }
      Note(SavedCheckpoint(c, ok));
    }

    method NewRecoveryToken(id: nat) returns (ok: bool, token: nat)
      modifies `nextToken, `events
      ensures View() == DrawToken(old(View()), answers, id)
      ensures ok == !old(Reply()).fails && token == old(nextToken)
    {
      ok, token := !Reply().fails, nextToken;
      if ok {
        nextToken := nextToken + 1;
      }
      Note(DrewToken(id, ok));
    }

    method SaveTokenHash(token: nat, id: nat, expiresAt: int) returns (ok: bool)
      modifies `tokens, `events
      ensures View() == PutToken(old(View()), answers, token, id, expiresAt) && ok == !old(Reply()).fails
    {
      ok := !Reply().fails;
      if ok {
        tokens := tokens[token := TokenEntry(id, expiresAt, false)];
      }
      Note(SavedToken(token, id, ok));
    }

    method RevokeByHash(token: nat) returns (ok: bool)
      requires token in tokens
      modifies `tokens, `events
      ensures View() == Revoke(old(View()), answers, token) && ok == !old(Reply()).fails
    {
      ok := !Reply().fails;
      var entry := tokens[token];
      if ok {
        tokens := tokens[token := entry.(revoked := true)];
      }
      Note(RevokedToken(token, entry.sessionId, ok));
    }

    method CaptureScreen(id: nat) returns (ref: string)
      modifies `events
      ensures (View(), ref) == Capture(old(View()), answers, id)
    {
      var shot := Reply();
      Note(TookScreenshot(id, !shot.fails));
      ref := "";
      if !shot.fails {
        var kept := Reply();
        Note(SavedScreenshot(id, !kept.fails));
        ref := kept.text;
      }
    }

    // The protocol

    method PauseForHuman(session: Session, reason: Reason) returns (ret: Return)
      modifies this
      ensures (View(), ret) == BrowserProtocol.PauseForHuman(old(View()), answers, cfg, session, reason)
    {
      var s := session;
      var ref := CaptureScreen(s.id);
      var url := Reply().text;
      Note(ReadUrl(s.id));
      if url != "" {
        s := s.(currentUrl := url);
      }
      s := s.(state := HumanReq, humanRequired := true, failureReason := reason, screenshotRef := ref);
      var ok := SaveSession(s);
      if !ok {
        return Refuse(SaveError);
      }
      ret := IssueToken(s);
    }

    method IssueToken(s: Session) returns (ret: Return)
      modifies this
      ensures (View(), ret) == BrowserProtocol.IssueToken(old(View()), answers, cfg, s)
    {
      var now := Now();
      var drawn, token := NewRecoveryToken(s.id);
      if !drawn {
        return Refuse(RandomError);
      }
      var ok := SaveTokenHash(token, s.id, now + cfg.recoveryTTL);
      if !ok {
        return Refuse(SaveTokenError);
      }
      if cfg.hasNotifier {
        var told := Reply();
        Note(Notified(s.id, !told.fails));
        if told.fails {
          return Return(s, HumanRequired, Some(NotifyError));
        }
      }
      return Return(s, HumanRequired, None);
    }

    method Finish(s: Session, outcome: Outcome) returns (ret: Return)
      modifies this
      ensures (View(), ret) == BrowserProtocol.Finish(old(View()), answers, s, outcome)
    {
      var ok := SaveSession(s);
      ret := if ok then Return(s, outcome, None) else Return(ZERO_SESSION, outcome, Some(SaveError));
    }

    method Fail(session: Session, reason: Reason) returns (ret: Return)
      modifies this
      ensures (View(), ret) == BrowserProtocol.Fail(old(View()), answers, session, reason)
    {
      var s := session.(state := Failed);
      s := s.(failureReason := reason);
      ret := Finish(s, FailedOutcome);
    }

    method Expire(session: Session) returns (ret: Return)
      modifies this
      ensures (View(), ret) == BrowserProtocol.Expire(old(View()), answers, session)
    {
      ret := Finish(session.(state := Expired), ExpiredOutcome);
    }

    /** handled is false exactly on a normal page, and then nothing has happened. */
    method HandleNonNormalState(s: Session, page: PageState) returns (handled: bool, ret: Return)
      modifies this
      ensures handled <==> page != Normal
      ensures !handled ==> View() == old(View())
      ensures handled ==> (View(), ret) == HandleTrouble(old(View()), answers, cfg, s, page)
    {
      handled, ret := true, Refuse(LoadError);
      match page
      case Normal => handled := false;
      case Captcha => ret := PauseForHuman(s, CaptchaDetected);
      case LoginWall => ret := PauseForHuman(s, UnrecognizedPage(page));
      case Unknown => ret := PauseForHuman(s, UnrecognizedPage(page));
      case NavigateErr => ret := Fail(s, NavigationError);
      case _ => ret := PauseForHuman(s, UnhandledPage(page));
    }

    method Checkpoint(session: Session) returns (ret: Return)
      modifies this
      ensures (View(), ret) == SaveProgress(old(View()), answers, session)
    {
      var s := session;
      var ref := CaptureScreen(s.id);
      var now := Now();
      var id := NewID();
      var ok := SaveCheckpoint(BrowserSession.Checkpoint(id, s.id, "form_section", s.currentUrl, ref, now));
      if !ok {
        return Refuse(CheckpointError);
      }
      s := s.(lastCheckpointAt := now);
      s := s.(screenshotRef := ref);
      ok := SaveSession(s);
      ret := if ok then Return(s, ReadyForReview, None) else Refuse(SaveError);
    }

    method FillAndCheckpoint(s: Session, fields: seq<FieldValue>) returns (ret: Return)
      modifies this
      ensures (View(), ret) == BrowserProtocol.FillAndCheckpoint(old(View()), answers, cfg, s, fields)
    {
      var filled := Reply();
      Note(Filled(s.id, fields, !filled.fails));
      if filled.fails {
        ret := Fail(s, FillFailed(filled.text));
        return;
      }
      var seen := Reply();
      Note(Detected(s.id, Seen(seen)));
      if seen.fails {
        ret := Fail(s, DetectionFailed(seen.text));
        return;
      }
      var handled, answer := HandleNonNormalState(s, seen.page);
      if handled {
        return answer;
      }
      ret := Checkpoint(s);
    }

    method NavigateAndFill(session: Session, url: string, fields: seq<FieldValue>) returns (ret: Return)
      modifies this
      ensures (View(), ret) == BrowserProtocol.NavigateAndFill(old(View()), answers, cfg, session, url, fields)
    {
      var now := Now();
      if session.IsExpired(now) {
        ret := Expire(session);
        return;
      }
      var seen := Reply();
      Note(Navigated(session.id, url, Seen(seen)));
      if seen.fails {
        ret := Fail(session, NavigationFailed(seen.text));
        return;
      }
      var s := session.(currentUrl := url);
      var handled, answer := HandleNonNormalState(s, seen.page);
      if handled {
        return answer;
      }
      ret := FillAndCheckpoint(s, fields);
    }

    method Start(input: StartInput) returns (ret: Return)
      modifies this
      ensures (View(), ret) == Do(old(View()), answers, cfg, Call.Start(input))
    {
      Note(Begin(Call.Start(input)));
      var check := Now();
      var since := StartOfDay(check);
      var counted := Reply();
      Note(CountedSessions(since, !counted.fails));
      if counted.fails {
        return Refuse(CountError);
      }
      var count := CountStartedSince(since);
      if count >= cfg.sessionsPerDay {
        return Refuse(DailyLimit);
      }
      ret := Admit(input);
    }

    method CountStartedSince(since: int) returns (count: nat)
      ensures count == CountSince(View().StartTimes(), since)
    {
      var times: map<nat, int> := map id: nat | id in sessions :: sessions[id].startedAt;
      assert times == View().StartTimes();
      count := CountSince(times, since);
    }

    method Admit(input: StartInput) returns (ret: Return)
      modifies this
      ensures (View(), ret) == BrowserProtocol.Admit(old(View()), answers, cfg, input)
    {
      var now := Now();
      var id := NewID();
      var s := Session(id, input.applicationId, input.platform, "", Starting, now, 0, "",
                       now + cfg.maxSessionMinutes * 60, false, NoReason);
      ghost var w := Tick(old(View()), answers);
      assert s == NewSession(w, cfg, input) && View() == w.(nextId := w.nextId + 1);
      ret := Launch(s, input);
    }

    method Launch(session: Session, input: StartInput) returns (ret: Return)
      modifies this
      ensures (View(), ret) == LaunchAndGo(old(View()), answers, cfg, session, input)
    {
      var launched := Reply();
      Note(Launched(session.id, !launched.fails));
      if launched.fails {
        var s := session.(state := Failed);
        s := s.(failureReason := LaunchError(launched.text));
        var ok := SaveSession(s);
        return if ok then Return(s, FailedOutcome, Some(LaunchFailure)) else Refuse(SaveError);
      }
      var s := session.(state := Running);
      var ok := SaveSession(s);
      if !ok {
        return Refuse(SaveError);
      }
      ret := NavigateAndFill(s, input.startUrl, input.fields);
    }

    /** id is the session of the token when there is no error. */
    method Redeem(token: nat, now: int) returns (failed: Maybe<Error>, id: nat)
      modifies this
      ensures (View(), failed) == BrowserProtocol.Redeem(old(View()), answers, token, now)
      ensures failed.None? ==> token in tokens && id == tokens[token].sessionId
    {
      id := 0;
      var looked := Reply();
      Note(LookedUpToken(token, !looked.fails));
      if looked.fails {
        return Some(LookupError), 0;
      }
      if token !in tokens || tokens[token].revoked || now > tokens[token].expiresAt {
        return Some(InvalidToken), 0;
      }
      var ok := RevokeByHash(token);
      if !ok {
        return Some(RevokeError), 0;
      }
      return None, tokens[token].sessionId;
    }

    method Resume(token: nat, fields: seq<FieldValue>) returns (ret: Return)
      modifies this
      ensures (View(), ret) == Do(old(View()), answers, cfg, Call.Resume(token, fields))
    {
      Note(Begin(Call.Resume(token, fields)));
      var now := Now();
      var failed, id := Redeem(token, now);
      if failed.Some? {
        return Refuse(failed.value);
      }
      var loaded := Reply();
      Note(LoadedSession(id, !loaded.fails));
      if loaded.fails {
        return Refuse(LoadError);
      }
      ret := Continue(if id in sessions then sessions[id] else ZERO_SESSION, fields);
    }

    method Continue(session: Session, fields: seq<FieldValue>) returns (ret: Return)
      modifies this
      ensures (View(), ret) == ContinueSession(old(View()), answers, cfg, session, fields)
    {
      var now := Now();
      if session.IsExpired(now) {
        ret := Expire(session);
        return;
      }
      var seen := Reply();
      Note(Detected(session.id, Seen(seen)));
      if seen.fails {
        ret := Fail(session, ResumeDetectionFailed(seen.text));
        return;
      }
      if seen.page != Normal {
        ret := PauseForHuman(session, StillNotResumable(seen.page));
        return;
      }
      var s := session.(state := Resumed);
      var ok := SaveSession(s);
      if !ok {
        return Refuse(SaveError);
      }
      ret := FillAndCheckpoint(s, fields);
    }

    method Submit(session: Session, gatePassed: bool, selector: string) returns (ret: Return)
      modifies this
      ensures (View(), ret) == Do(old(View()), answers, cfg, Call.Submit(session, gatePassed, selector))
    {
      Note(Begin(Call.Submit(session, gatePassed, selector)));
      if !gatePassed {
        return Refuse(GateRefused);
      }
      var now := Now();
      if session.IsExpired(now) {
        ret := Expire(session);
        return;
      }
      var s := session.(state := Running);
      var ok := SaveSession(s);
      if !ok {
        return Refuse(SaveError);
      }
      ret := Click(s);
    }

    method Click(session: Session) returns (ret: Return)
      modifies this
      ensures (View(), ret) == ClickAndJudge(old(View()), answers, cfg, session)
    {
      var seen := Reply();
      Note(Clicked(session, Seen(seen)));
      if seen.fails {
        ret := PauseForHuman(session, SubmissionUncertain(seen.text));
        return;
      }
      match seen.page
      case Submitted =>
        var s := session.(state := Completed);
        var ok := SaveSession(s);
        ret := if ok then Return(s, SubmittedOk, None) else Refuse(SaveError);
      case Normal => ret := PauseForHuman(session, SubmissionUnconfirmed);
      case Captcha => ret := PauseForHuman(session, CaptchaAfterSubmission);
      case page => ret := PauseForHuman(session, UnexpectedAfterSubmission(page));
    }
  }
}
