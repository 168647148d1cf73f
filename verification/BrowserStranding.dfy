/** When faults strand a session: stored as HUMAN_REQUIRED with no unrevoked token
    (internal/browser/runner.go). The condition is on the calls that failed. */
module BrowserStranding {
  import opened Days
  import opened BrowserSession
  import opened BrowserProtocol
  import opened BrowserSafety
  import opened BrowserRuns
  import opened BrowserTheorems
  import opened Wrappers

  predicate Waiting(w: World, id: nat) {
    id in w.sessions && w.sessions[id].state == HumanReq
  }

  ghost predicate Stranded(w: World, id: nat) {
    Waiting(w, id) && !HasToken(w, id)
  }

  // What can fail

  predicate PauseSaved(e: Event, id: nat) {
    e.SavedSession? && e.ok && e.session.id == id && e.session.state == HumanReq
  }

  predicate TokenFailed(e: Event, id: nat) {
    (e.DrewToken? || e.SavedToken?) && !e.ok && e.id == id
  }

  predicate Saved(e: Event, id: nat) {
    e.SavedSession? && e.ok && e.session.id == id
  }

  predicate SaveFailed(e: Event, id: nat) {
    e.SavedSession? && !e.ok && e.session.id == id
  }

  predicate LoadFailed(e: Event, id: nat) {
    e.LoadedSession? && !e.ok && e.id == id
  }

  predicate Redeemed(e: Event, id: nat) {
    e.RevokedToken? && e.ok && e.id == id
  }

  /** Since `from`: the pause was stored, then its token could not be drawn or saved. */
  ghost predicate PauseFault(ev: seq<Event>, from: nat, id: nat) {
    exists i, j :: from <= i < j < |ev| && PauseSaved(ev[i], id) && TokenFailed(ev[j], id)
  }

  /** Since `from`: the first attempt to store the session failed. */
  ghost predicate FirstSaveFailed(ev: seq<Event>, from: nat, id: nat) {
    exists j :: from <= j < |ev| && SaveFailed(ev[j], id) && forall k | from <= k < j :: !Saved(ev[k], id)
  }

  ghost predicate LoadFault(ev: seq<Event>, from: nat, id: nat) {
    exists j :: from <= j < |ev| && LoadFailed(ev[j], id)
  }

  /** Since `from`: a token of the session was spent, and then the session could not be loaded, or the
      first attempt to store it failed. */
  ghost predicate ResumeFault(ev: seq<Event>, from: nat, id: nat) {
    exists i :: from <= i < |ev| && Redeemed(ev[i], id)
             && (LoadFault(ev, i + 1, id) || FirstSaveFailed(ev, i + 1, id))
  }

  // Parts of a call

  /** Exactly these faults strand the session in a part of a call that begins with no live token. */
  ghost predicate Told(w: World, w2: World, id: nat) {
    && w.events <= w2.events
    && (forall k | |w.events| <= k < |w2.events| :: !Redeemed(w2.events[k], id) && !LoadFailed(w2.events[k], id))
    && (Stranded(w2, id) <==>
          PauseFault(w2.events, |w.events|, id) || (Waiting(w, id) && FirstSaveFailed(w2.events, |w.events|, id)))
  }

  /** Events that say nothing of where the session stands. */
  predicate Neutral(e: Event) {
    !e.SavedSession? && !e.DrewToken? && !e.SavedToken? && !e.RevokedToken? && !e.LoadedSession?
  }

  /** From w to w1 only neutral events. */
  ghost predicate Quietly(w: World, w1: World) {
    && w.events <= w1.events && w1.sessions == w.sessions && w1.tokens == w.tokens
    && forall k | |w.events| <= k < |w1.events| :: Neutral(w1.events[k])
  }

  lemma PauseFaultFrom(ev: seq<Event>, n: nat, m: nat, id: nat)
    requires n <= m <= |ev| && forall k | n <= k < m :: !PauseSaved(ev[k], id)
    ensures PauseFault(ev, n, id) <==> PauseFault(ev, m, id)
  {
    if PauseFault(ev, n, id) {
      var i, j :| n <= i < j < |ev| && PauseSaved(ev[i], id) && TokenFailed(ev[j], id);
      assert m <= i;
    }
  }

  lemma FirstSaveFrom(ev: seq<Event>, n: nat, m: nat, id: nat)
    requires n <= m <= |ev| && forall k | n <= k < m :: !ev[k].SavedSession?
    ensures FirstSaveFailed(ev, n, id) <==> FirstSaveFailed(ev, m, id)
  {
    if FirstSaveFailed(ev, n, id) {
      var j :| n <= j < |ev| && SaveFailed(ev[j], id) && forall k | n <= k < j :: !Saved(ev[k], id);
      assert m <= j;
    }
    if FirstSaveFailed(ev, m, id) {
      var j :| m <= j < |ev| && SaveFailed(ev[j], id) && forall k | m <= k < j :: !Saved(ev[k], id);
      assert forall k | n <= k < j :: !Saved(ev[k], id);
    }
  }

  lemma ToldAfterQuiet(w: World, w1: World, w2: World, id: nat)
    requires Quietly(w, w1) && Told(w1, w2, id)
    ensures Told(w, w2, id)
  {
    var ev := w2.events;
    assert forall k | |w.events| <= k < |w1.events| :: ev[k] == w1.events[k];
    PauseFaultFrom(ev, |w.events|, |w1.events|, id);
    FirstSaveFrom(ev, |w.events|, |w1.events|, id);
  }

  lemma SavedFirst(ev: seq<Event>, n: nat, id: nat)
    requires n < |ev| && Saved(ev[n], id)
    ensures !FirstSaveFailed(ev, n, id)
  {
    forall j | n <= j < |ev| && SaveFailed(ev[j], id) ensures exists k :: n <= k < j && Saved(ev[k], id) {
      assert n < j && Saved(ev[n], id);
    }
  }

  /** After the session is stored in another state than HUMAN_REQUIRED. */
  lemma ToldAfterSave(w: World, w1: World, w2: World, s: Session)
    requires w1.events == w.events + [SavedSession(s, true)] && s.state != HumanReq
    requires !Waiting(w1, s.id) && Told(w1, w2, s.id)
    ensures Told(w, w2, s.id)
  {
    var ev, n := w2.events, |w.events|;
    assert ev[n] == w1.events[n] == SavedSession(s, true);
    PauseFaultFrom(ev, n, n + 1, s.id);
    SavedFirst(ev, n, s.id);
  }

  lemma NothingHappened(w: World, w2: World, id: nat)
    requires Quietly(w, w2) && Free(w, id) && !Waiting(w, id)
    ensures Told(w, w2, id)
  {
    var ev, n := w2.events, |w.events|;
    assert forall k | n <= k < |ev| :: Neutral(ev[k]);
  }

  // Pausing

  lemma IssueTokenTold(w: World, o: Oracle, cfg: Config, s: Session)
    requires Waiting(w, s.id) && Free(w, s.id)
    ensures var (w2, ret) := IssueToken(w, o, cfg, s);
      && w.events <= w2.events
      && (forall k | |w.events| <= k < |w2.events| ::
            !w2.events[k].SavedSession? && !w2.events[k].LoadedSession? && !w2.events[k].RevokedToken?)
      && (Stranded(w2, s.id) <==> exists j :: |w.events| <= j < |w2.events| && TokenFailed(w2.events[j], s.id))
      && (Stranded(w2, s.id) <==> ret.error == Some(RandomError) || ret.error == Some(SaveTokenError))
  {
    var (w2, ret) := IssueToken(w, o, cfg, s);
    var n := |w.events|;
    var w1 := Tick(w, o);
    IssueTokenOutcome(w, o, cfg, s);
    if w1.Answer(o).fails {
      assert TokenFailed(w2.events[n + 1], s.id);
    } else if DrawToken(w1, o, s.id).Answer(o).fails {
      assert TokenFailed(w2.events[n + 2], s.id);
    }
  }

  lemma SavedPauseTold(w: World, w1: World, w2: World, s: Session)
    requires w1.events == w.events + [SavedSession(s, true)] && s.state == HumanReq && w1.events <= w2.events
    requires forall k | |w1.events| <= k < |w2.events| ::
      !w2.events[k].SavedSession? && !w2.events[k].LoadedSession? && !w2.events[k].RevokedToken?
    requires Stranded(w2, s.id) <==> exists j :: |w1.events| <= j < |w2.events| && TokenFailed(w2.events[j], s.id)
    ensures Told(w, w2, s.id)
  {
    var ev, n := w2.events, |w.events|;
    assert ev[n] == w1.events[n] == SavedSession(s, true);
    assert PauseSaved(ev[n], s.id) && Saved(ev[n], s.id);
    assert forall k | n < k < |ev| :: !ev[k].SavedSession?;
  }

  lemma FailedSaveTold(w: World, w2: World, s: Session)
    requires w2 == w.Log(SavedSession(s, false)) && Free(w, s.id)
    ensures Told(w, w2, s.id)
  {
    var n := |w.events|;
    assert SaveFailed(w2.events[n], s.id);
    assert forall t :: w2.Live(t) == w.Live(t);
  }

  lemma SavePauseTold(w: World, o: Oracle, cfg: Config, s: Session)
    requires Free(w, s.id) && s.state == HumanReq
    ensures var w1 := PutSession(w, o, s);
            var w2 := if w.Answer(o).fails then w1 else IssueToken(w1, o, cfg, s).0;
      Told(w, w2, s.id)
  {
    var w1 := PutSession(w, o, s);
    if w.Answer(o).fails {
      FailedSaveTold(w, w1, s);
    } else {
      assert forall t :: w1.Live(t) == w.Live(t);
      IssueTokenTold(w1, o, cfg, s);
      SavedPauseTold(w, w1, IssueToken(w1, o, cfg, s).0, s);
    }
  }

  lemma PauseTold(w: World, o: Oracle, cfg: Config, s: Session, reason: Reason)
    requires Free(w, s.id)
    ensures Told(w, PauseForHuman(w, o, cfg, s, reason).0, s.id)
  {
    var (w1, ref) := Capture(w, o, s.id);
    var w2 := w1.Log(ReadUrl(s.id));
    var paused := PausedSession(s, w1.Answer(o).text, ref, reason);
    assert Quietly(w, w2) && Free(w2, s.id);
    SavePauseTold(w2, o, cfg, paused);
    ToldAfterQuiet(w, w2, PauseForHuman(w, o, cfg, s, reason).0, s.id);
  }

  lemma FinishTold(w: World, o: Oracle, s: Session, outcome: Outcome)
    requires Free(w, s.id) && s.state != HumanReq
    ensures Told(w, Finish(w, o, s, outcome).0, s.id)
  {
    var w1 := PutSession(w, o, s);
    if w.Answer(o).fails {
      FailedSaveTold(w, w1, s);
    } else {
      assert forall t :: w1.Live(t) == w.Live(t);
      NothingHappened(w1, w1, s.id);
      ToldAfterSave(w, w1, w1, s);
    }
  }

  lemma TroubleTold(w: World, o: Oracle, cfg: Config, s: Session, page: PageState)
    requires Free(w, s.id) && page != Normal
    ensures Told(w, HandleTrouble(w, o, cfg, s, page).0, s.id)
  {
    match page
    case Captcha => PauseTold(w, o, cfg, s, CaptchaDetected);
    case LoginWall => PauseTold(w, o, cfg, s, UnrecognizedPage(page));
    case Unknown => PauseTold(w, o, cfg, s, UnrecognizedPage(page));
    case NavigateErr => FinishTold(w, o, s.(state := Failed, failureReason := NavigationError), FailedOutcome);
    case _ => PauseTold(w, o, cfg, s, UnhandledPage(page));
  }

  // Filling and starting

  lemma ProgressTold(w: World, o: Oracle, s: Session)
    requires Free(w, s.id) && !Waiting(w, s.id) && s.state != HumanReq
    ensures Told(w, SaveProgress(w, o, s).0, s.id)
  {
    var (w1, ready) := WriteCheckpoint(w, o, s);
    assert Quietly(w, w1) && Free(w1, s.id);
    if ready.None? {
      NothingHappened(w, w1, s.id);
    } else {
      FinishTold(w1, o, ready.value, ReadyForReview);
      ToldAfterQuiet(w, w1, PutSession(w1, o, ready.value), s.id);
    }
  }

  lemma FillTold(w: World, o: Oracle, cfg: Config, s: Session, fields: seq<FieldValue>)
    requires Free(w, s.id) && !Waiting(w, s.id) && s.state != HumanReq
    ensures Told(w, FillAndCheckpoint(w, o, cfg, s, fields).0, s.id)
  {
    var filled := w.Answer(o);
    var w1 := w.Log(Filled(s.id, fields, !filled.fails));
    var w2 := FillAndCheckpoint(w, o, cfg, s, fields).0;
    assert Quietly(w, w1) && Free(w1, s.id);
    if filled.fails {
      FinishTold(w1, o, s.(state := Failed, failureReason := FillFailed(filled.text)), FailedOutcome);
    } else {
      DetectTold(w1, o, cfg, s, w1.Answer(o));
    }
    ToldAfterQuiet(w, w1, w2, s.id);
  }

  lemma DetectTold(w: World, o: Oracle, cfg: Config, s: Session, seen: Reply)
    requires Free(w, s.id) && !Waiting(w, s.id) && s.state != HumanReq
    ensures var w1 := w.Log(Detected(s.id, Seen(seen)));
            var w2 := if seen.fails then Fail(w1, o, s, DetectionFailed(seen.text)).0
                      else if seen.page != Normal then HandleTrouble(w1, o, cfg, s, seen.page).0
                      else SaveProgress(w1, o, s).0;
      Told(w, w2, s.id)
  {
    var w1 := w.Log(Detected(s.id, Seen(seen)));
    assert Quietly(w, w1) && Free(w1, s.id);
    if seen.fails {
      FinishTold(w1, o, s.(state := Failed, failureReason := DetectionFailed(seen.text)), FailedOutcome);
      ToldAfterQuiet(w, w1, Fail(w1, o, s, DetectionFailed(seen.text)).0, s.id);
    } else if seen.page != Normal {
      TroubleTold(w1, o, cfg, s, seen.page);
      ToldAfterQuiet(w, w1, HandleTrouble(w1, o, cfg, s, seen.page).0, s.id);
    } else {
      ProgressTold(w1, o, s);
      ToldAfterQuiet(w, w1, SaveProgress(w1, o, s).0, s.id);
    }
  }

  lemma NavigateTold(w: World, o: Oracle, cfg: Config, s: Session, url: string, fields: seq<FieldValue>)
    requires Free(w, s.id) && !Waiting(w, s.id) && s.state != HumanReq
    ensures Told(w, NavigateAndFill(w, o, cfg, s, url, fields).0, s.id)
  {
    var w1 := Tick(w, o);
    assert Quietly(w, w1) && Free(w1, s.id);
    if s.IsExpired(w1.clock) {
      FinishTold(w1, o, s.(state := Expired), ExpiredOutcome);
    } else {
      NavigationTold(w1, o, cfg, s, url, fields);
    }
    ToldAfterQuiet(w, w1, NavigateAndFill(w, o, cfg, s, url, fields).0, s.id);
  }

  lemma NavigationTold(w: World, o: Oracle, cfg: Config, s: Session, url: string, fields: seq<FieldValue>)
    requires Free(w, s.id) && !Waiting(w, s.id) && s.state != HumanReq
    ensures var seen := w.Answer(o);
            var w1 := w.Log(Navigated(s.id, url, Seen(seen)));
            var there := s.(currentUrl := url);
            var w2 := if seen.fails then Fail(w1, o, s, NavigationFailed(seen.text)).0
                      else if seen.page != Normal then HandleTrouble(w1, o, cfg, there, seen.page).0
                      else FillAndCheckpoint(w1, o, cfg, there, fields).0;
      Told(w, w2, s.id)
  {
    var seen := w.Answer(o);
    var w1 := w.Log(Navigated(s.id, url, Seen(seen)));
    var there := s.(currentUrl := url);
    assert Quietly(w, w1) && Free(w1, s.id);
    if seen.fails {
      FinishTold(w1, o, s.(state := Failed, failureReason := NavigationFailed(seen.text)), FailedOutcome);
      ToldAfterQuiet(w, w1, Fail(w1, o, s, NavigationFailed(seen.text)).0, s.id);
    } else if seen.page != Normal {
      TroubleTold(w1, o, cfg, there, seen.page);
      ToldAfterQuiet(w, w1, HandleTrouble(w1, o, cfg, there, seen.page).0, s.id);
    } else {
      FillTold(w1, o, cfg, there, fields);
      ToldAfterQuiet(w, w1, FillAndCheckpoint(w1, o, cfg, there, fields).0, s.id);
    }
  }

  lemma LaunchTold(w: World, o: Oracle, cfg: Config, s: Session, input: StartInput)
    requires Free(w, s.id) && !Waiting(w, s.id) && s.state != HumanReq
    ensures Told(w, LaunchAndGo(w, o, cfg, s, input).0, s.id)
  {
    var launched := w.Answer(o);
    var w1 := w.Log(Launched(s.id, !launched.fails));
    var w3 := LaunchAndGo(w, o, cfg, s, input).0;
    assert Quietly(w, w1) && Free(w1, s.id);
    if launched.fails {
      FinishTold(w1, o, s.(state := Failed, failureReason := LaunchError(launched.text)), FailedOutcome);
    } else {
      var running := s.(state := Running);
      var w2 := PutSession(w1, o, running);
      if w1.Answer(o).fails {
        FailedSaveTold(w1, w2, running);
      } else {
        assert forall t :: w2.Live(t) == w1.Live(t);
        NavigateTold(w2, o, cfg, running, input.startUrl, input.fields);
        ToldAfterSave(w1, w2, w3, running);
      }
    }
    ToldAfterQuiet(w, w1, w3, s.id);
  }

  // Resuming and submitting

  lemma ContinueTold(w: World, o: Oracle, cfg: Config, s: Session, fields: seq<FieldValue>)
    requires Free(w, s.id)
    ensures Told(w, ContinueSession(w, o, cfg, s, fields).0, s.id)
  {
    var w1 := Tick(w, o);
    assert Quietly(w, w1) && Free(w1, s.id);
    if s.IsExpired(w1.clock) {
      FinishTold(w1, o, s.(state := Expired), ExpiredOutcome);
    } else {
      LookedTold(w1, o, cfg, s, fields);
    }
    ToldAfterQuiet(w, w1, ContinueSession(w, o, cfg, s, fields).0, s.id);
  }

  function Look(w: World, o: Oracle, cfg: Config, s: Session, fields: seq<FieldValue>): World {
    var seen := w.Answer(o);
    var w1 := w.Log(Detected(s.id, Seen(seen)));
    if seen.fails then Fail(w1, o, s, ResumeDetectionFailed(seen.text)).0
    else if seen.page != Normal then PauseForHuman(w1, o, cfg, s, StillNotResumable(seen.page)).0
    else
      var resumed := s.(state := Resumed);
      var w2 := PutSession(w1, o, resumed);
      if w1.Answer(o).fails then w2 else FillAndCheckpoint(w2, o, cfg, resumed, fields).0
  }

  lemma LookedTold(w: World, o: Oracle, cfg: Config, s: Session, fields: seq<FieldValue>)
    requires Free(w, s.id)
    ensures Told(w, Look(w, o, cfg, s, fields), s.id)
  {
    var seen := w.Answer(o);
    var w1 := w.Log(Detected(s.id, Seen(seen)));
    assert Quietly(w, w1) && Free(w1, s.id);
    if seen.fails {
      FinishTold(w1, o, s.(state := Failed, failureReason := ResumeDetectionFailed(seen.text)), FailedOutcome);
    } else if seen.page != Normal {
      PauseTold(w1, o, cfg, s, StillNotResumable(seen.page));
    } else {
      ResumedTold(w1, o, cfg, s.(state := Resumed), fields);
    }
    ToldAfterQuiet(w, w1, Look(w, o, cfg, s, fields), s.id);
  }

  lemma ResumedTold(w: World, o: Oracle, cfg: Config, s: Session, fields: seq<FieldValue>)
    requires Free(w, s.id) && s.state == Resumed
    ensures var w1 := PutSession(w, o, s);
      Told(w, if w.Answer(o).fails then w1 else FillAndCheckpoint(w1, o, cfg, s, fields).0, s.id)
  {
    var w1 := PutSession(w, o, s);
    if w.Answer(o).fails {
      FailedSaveTold(w, w1, s);
    } else {
      assert forall t :: w1.Live(t) == w.Live(t);
      FillTold(w1, o, cfg, s, fields);
      ToldAfterSave(w, w1, FillAndCheckpoint(w1, o, cfg, s, fields).0, s);
    }
  }

  lemma ClickTold(w: World, o: Oracle, cfg: Config, s: Session)
    requires Free(w, s.id)
    ensures Told(w, ClickAndJudge(w, o, cfg, s).0, s.id)
  {
    var seen := w.Answer(o);
    var w1 := w.Log(Clicked(s, Seen(seen)));
    assert Quietly(w, w1) && Free(w1, s.id);
    if seen.fails {
      PauseTold(w1, o, cfg, s, SubmissionUncertain(seen.text));
    } else {
      match seen.page
      case Submitted => FinishTold(w1, o, s.(state := Completed), SubmittedOk);
      case Normal => PauseTold(w1, o, cfg, s, SubmissionUnconfirmed);
      case Captcha => PauseTold(w1, o, cfg, s, CaptchaAfterSubmission);
      case page => PauseTold(w1, o, cfg, s, UnexpectedAfterSubmission(page));
    }
    ToldAfterQuiet(w, w1, ClickAndJudge(w, o, cfg, s).0, s.id);
  }

  lemma SaveAndClickTold(w: World, o: Oracle, cfg: Config, s: Session)
    requires Free(w, s.id) && s.state == Running
    ensures Told(w, SaveAndClick(w, o, cfg, s).0, s.id)
  {
    var w1 := PutSession(w, o, s);
    if w.Answer(o).fails {
      FailedSaveTold(w, w1, s);
    } else {
      assert forall t :: w1.Live(t) == w.Live(t);
      ClickTold(w1, o, cfg, s);
      ToldAfterSave(w, w1, ClickAndJudge(w1, o, cfg, s).0, s);
    }
  }

  /** A pause of a session that has no live token strands it exactly if its save succeeds and its token
      cannot be drawn or saved, or if the save fails and the session was waiting already. The caller
      sees these cases as the errors named last. */
  lemma PauseStrandsIff(w: World, o: Oracle, cfg: Config, s: Session, reason: Reason)
    requires Sound(w) && Known(w, s) && Free(w, s.id)
    ensures var (w2, ret) := PauseForHuman(w, o, cfg, s, reason);
            var n := |w.events|;
      && (Stranded(w2, s.id) <==>
            PauseFault(w2.events, n, s.id) || (Waiting(w, s.id) && FirstSaveFailed(w2.events, n, s.id)))
      && (Stranded(w2, s.id) <==>
            || ret.error == Some(RandomError) || ret.error == Some(SaveTokenError)
            || (ret.error == Some(SaveError) && w.sessions[s.id].state == HumanReq))
  {
    PauseTold(w, o, cfg, s, reason);
    var (w1, ref) := Capture(w, o, s.id);
    var w2 := w1.Log(ReadUrl(s.id));
    var paused := PausedSession(s, w1.Answer(o).text, ref, reason);
    var w3 := PutSession(w2, o, paused);
    if w2.Answer(o).fails {
      assert forall t :: w3.Live(t) == w.Live(t);
    } else {
      assert forall t :: w3.Live(t) == w.Live(t);
      IssueTokenTold(w3, o, cfg, paused);
      IssueTokenOutcome(w3, o, cfg, paused);
    }
  }

  // Whole calls

  /** The session a call is about. */
  function SessionOf(w: World, call: Call): nat {
    match call
    case Start(_) => w.nextId
    case Resume(token, _) => TokenSession(w, token)
    case Submit(s, _, _) => s.id
  }

  lemma StartTold(w: World, o: Oracle, cfg: Config, input: StartInput)
    requires Free(w, w.nextId) && !Waiting(w, w.nextId)
    ensures Told(w, StartCall(w, o, cfg, input).0, w.nextId)
  {
    var w1 := Tick(w, o);
    var since := StartOfDay(w1.clock);
    var w2 := w1.Log(CountedSessions(since, !w1.Answer(o).fails));
    assert Quietly(w, w2) && Free(w2, w.nextId);
    if w1.Answer(o).fails || CountSince(w2.StartTimes(), since) >= cfg.sessionsPerDay {
      NothingHappened(w, w2, w.nextId);
    } else {
      AdmitTold(w2, o, cfg, input);
      ToldAfterQuiet(w, w2, Admit(w2, o, cfg, input).0, w.nextId);
    }
  }

  lemma AdmitTold(w: World, o: Oracle, cfg: Config, input: StartInput)
    requires Free(w, w.nextId) && !Waiting(w, w.nextId)
    ensures Told(w, Admit(w, o, cfg, input).0, w.nextId)
  {
    var w1 := Tick(w, o);
    var s := NewSession(w1, cfg, input);
    var w2 := w1.(nextId := w1.nextId + 1);
    assert Quietly(w, w2);
    AdmittedTold(w, w2, o, cfg, s, input);
    assert Admit(w, o, cfg, input) == LaunchAndGo(w2, o, cfg, s, input);
  }

  lemma AdmittedTold(w: World, w1: World, o: Oracle, cfg: Config, s: Session, input: StartInput)
    requires Quietly(w, w1) && Free(w, s.id) && !Waiting(w, s.id) && s.state != HumanReq
    ensures Told(w, LaunchAndGo(w1, o, cfg, s, input).0, s.id)
  {
    assert forall t :: w1.Live(t) == w.Live(t);
    LaunchTold(w1, o, cfg, s, input);
    ToldAfterQuiet(w, w1, LaunchAndGo(w1, o, cfg, s, input).0, s.id);
  }

  lemma SubmitTold(w: World, o: Oracle, cfg: Config, s: Session, gatePassed: bool)
    requires Free(w, s.id) && !Waiting(w, s.id)
    ensures Told(w, SubmitCall(w, o, cfg, s, gatePassed).0, s.id)
  {
    if !gatePassed {
      NothingHappened(w, w, s.id);
    } else {
      var w1 := Tick(w, o);
      assert Quietly(w, w1) && Free(w1, s.id);
      if s.IsExpired(w1.clock) {
        FinishTold(w1, o, s.(state := Expired), ExpiredOutcome);
      } else {
        SaveAndClickTold(w1, o, cfg, s.(state := Running));
      }
      ToldAfterQuiet(w, w1, SubmitCall(w, o, cfg, s, gatePassed).0, s.id);
    }
  }

  /** What a whole call tells. */
  ghost predicate CallTold(w: World, w2: World, id: nat) {
    Stranded(w2, id) <==>
      || Stranded(w, id)
      || PauseFault(w2.events, |w.events|, id) || ResumeFault(w2.events, |w.events|, id)
  }

  lemma CallToldBy(w: World, w2: World, id: nat)
    requires Told(w, w2, id) && !Waiting(w, id)
    ensures CallTold(w, w2, id)
  {
  }

  /** Redemption did not succeed: nothing was stored and no token changed. */
  lemma RefusedTold(w: World, w2: World, id: nat)
    requires w.events <= w2.events && w2.sessions == w.sessions && w2.tokens == w.tokens
    requires forall k | |w.events| <= k < |w2.events| :: !w2.events[k].SavedSession? && !Redeemed(w2.events[k], id)
    ensures CallTold(w, w2, id)
  {
    assert forall t :: w2.Live(t) == w.Live(t);
    assert HasToken(w2, id) <==> HasToken(w, id);
  }

  /** The token was spent by the last event before w1, and the session could not be loaded. */
  lemma LoadFailureTold(w: World, w1: World, w2: World, id: nat)
    requires w.events < w1.events && Redeemed(w1.events[|w1.events| - 1], id)
    requires w2 == w1.Log(LoadedSession(id, false)) && Stranded(w1, id)
    ensures CallTold(w, w2, id)
  {
    var ev, i := w2.events, |w1.events| - 1;
    assert ev[i] == w1.events[i];
    assert LoadFailed(ev[i + 1], id);
    assert LoadFault(ev, i + 1, id);
    assert Redeemed(ev[i], id);
    assert forall t :: w2.Live(t) == w1.Live(t);
  }

  /** The only redemption since n is at i, and the load right after it succeeded. */
  ghost predicate SpentAndLoaded(ev: seq<Event>, n: nat, i: nat, id: nat) {
    && n <= i && i + 1 < |ev| && Redeemed(ev[i], id) && ev[i + 1].LoadedSession? && ev[i + 1].ok
    && (forall k | n <= k < i :: Neutral(ev[k]))
    && (forall k | i + 1 < k < |ev| :: !Redeemed(ev[k], id) && !LoadFailed(ev[k], id))
  }

  lemma FaultsAfterLoad(ev: seq<Event>, n: nat, i: nat, id: nat)
    requires SpentAndLoaded(ev, n, i, id)
    ensures ResumeFault(ev, n, id) <==> FirstSaveFailed(ev, i + 2, id)
    ensures PauseFault(ev, n, id) <==> PauseFault(ev, i + 2, id)
  {
    assert forall k | n <= k < i + 2 :: !ev[k].SavedSession?;
    PauseFaultFrom(ev, n, i + 2, id);
    FirstSaveFrom(ev, i + 1, i + 2, id);
    if ResumeFault(ev, n, id) {
      var k :| n <= k < |ev| && Redeemed(ev[k], id)
            && (LoadFault(ev, k + 1, id) || FirstSaveFailed(ev, k + 1, id));
      assert k == i;
    }
  }

  /** The token was spent by the last event before w1, and the session was loaded. */
  lemma LoadedTold(w: World, w1: World, w2: World, w3: World, id: nat)
    requires w.events < w1.events && Redeemed(w1.events[|w1.events| - 1], id)
    requires forall k | |w.events| <= k < |w1.events| - 1 :: Neutral(w1.events[k])
    requires !Stranded(w, id) && w2 == w1.Log(LoadedSession(id, true)) && Waiting(w2, id) && Told(w2, w3, id)
    ensures CallTold(w, w3, id)
  {
    var ev, i := w3.events, |w1.events| - 1;
    assert ev[i] == w2.events[i] == w1.events[i] && ev[i + 1] == w2.events[i + 1];
    assert forall k | |w.events| <= k < i :: ev[k] == w2.events[k] == w1.events[k];
    FaultsAfterLoad(ev, |w.events|, i, id);
  }

  lemma RedeemedTold(w: World, o: Oracle, cfg: Config, w1: World, id: nat, fields: seq<FieldValue>)
    requires w.events < w1.events && Redeemed(w1.events[|w1.events| - 1], id)
    requires forall k | |w.events| <= k < |w1.events| - 1 :: Neutral(w1.events[k])
    requires !Stranded(w, id) && Free(w1, id) && Stranded(w1, id) && w1.sessions[id].id == id
    ensures var loaded := w1.Answer(o);
            var w2 := w1.Log(LoadedSession(id, !loaded.fails));
      CallTold(w, if loaded.fails then w2 else ContinueSession(w2, o, cfg, Stored(w2, id), fields).0, id)
  {
    var w2 := w1.Log(LoadedSession(id, !w1.Answer(o).fails));
    if w1.Answer(o).fails {
      LoadFailureTold(w, w1, w2, id);
    } else {
      assert Free(w2, id);
      ContinueTold(w2, o, cfg, w2.sessions[id], fields);
      LoadedTold(w, w1, w2, ContinueSession(w2, o, cfg, Stored(w2, id), fields).0, id);
    }
  }

  lemma ResumeTold(w: World, o: Oracle, cfg: Config, token: nat, fields: seq<FieldValue>)
    requires Sound(w)
    ensures CallTold(w, Do(w, o, cfg, Resume(token, fields)).0, TokenSession(w, token))
  {
    var id := TokenSession(w, token);
    var w1 := Tick(w.Log(Begin(Resume(token, fields))), o);
    var w2 := w1.Log(LookedUpToken(token, !w1.Answer(o).fails));
    var end := Do(w, o, cfg, Resume(token, fields)).0;
    if w1.Answer(o).fails || !Redeemable(w2, token, w1.clock) {
      RefusedTold(w, end, id);
    } else if w2.Answer(o).fails {
      RefusedTold(w, end, id);
    } else {
      RedeemableTold(w, w2, o, cfg, token, fields);
    }
  }

  lemma RedeemableTold(w: World, w2: World, o: Oracle, cfg: Config, token: nat, fields: seq<FieldValue>)
    requires Sound(w) && w.Live(token) && Quietly(w, w2) && !w2.Answer(o).fails
    ensures var w3 := Revoke(w2, o, token);
            var id := w.tokens[token].sessionId;
            var loaded := w3.Answer(o);
            var w4 := w3.Log(LoadedSession(id, !loaded.fails));
      CallTold(w, if loaded.fails then w4 else ContinueSession(w4, o, cfg, Stored(w4, id), fields).0, id)
  {
    var id := w.tokens[token].sessionId;
    var w3 := Revoke(w2, o, token);
    RevokeFreesLater(w, w2, o, token);
    assert HasToken(w, id);
    assert Redeemed(w3.events[|w3.events| - 1], id);
    RedeemedTold(w, o, cfg, w3, id, fields);
  }

  lemma RevokeFreesLater(w: World, w2: World, o: Oracle, token: nat)
    requires Sound(w) && w.Live(token) && w2.sessions == w.sessions && w2.tokens == w.tokens && !w2.Answer(o).fails
    ensures var w3 := Revoke(w2, o, token);
            var id := w.tokens[token].sessionId;
      Free(w3, id) && Stranded(w3, id) && w3.sessions[id].id == id
  {
    var w3 := Revoke(w2, o, token);
    assert forall t | t in w3.tokens && w3.Live(t) :: t != token && w.Live(t);
  }

  lemma BeginTold(w: World, call: Call, w2: World, id: nat)
    requires Free(w, id) && !Waiting(w, id) && Told(w.Log(Begin(call)), w2, id)
    ensures CallTold(w, w2, id)
  {
    var w1 := w.Log(Begin(call));
    assert Quietly(w, w1);
    ToldAfterQuiet(w, w1, w2, id);
    CallToldBy(w, w2, id);
  }

  lemma DoTold(rs: RunState, o: Oracle, cfg: Config, call: Call)
    requires RunInv(rs, cfg) && Disciplined(rs, call)
    ensures CallTold(rs.world, Do(rs.world, o, cfg, call).0, SessionOf(rs.world, call))
  {
    var w := rs.world;
    var w1 := w.Log(Begin(call));
    match call
    case Start(input) =>
      assert Free(w, w.nextId) && Free(w1, w.nextId);
      StartTold(w1, o, cfg, input);
      BeginTold(w, call, StartCall(w1, o, cfg, input).0, w.nextId);
    case Resume(token, fields) => ResumeTold(w, o, cfg, token, fields);
    case Submit(s, gatePassed, _) =>
      assert Free(w, s.id) && Free(w1, s.id);
      SubmitTold(w1, o, cfg, s, gatePassed);
      BeginTold(w, call, SubmitCall(w1, o, cfg, s, gatePassed).0, s.id);
  }

  /** A call leaves every other session as it stood. */
  lemma OthersStandAsBefore(w: World, w2: World, ret: Return, id: nat, x: nat)
    requires Effect(w, w2, ret, id) && x != id
    ensures Stranded(w2, x) <==> Stranded(w, x)
    ensures Stranded(w, x) ==> w2.sessions[x] == w.sessions[x]
  {
    forall t ensures (t in w2.tokens && w2.Live(t) && w2.tokens[t].sessionId == x)
                <==> (t in w.tokens && w.Live(t) && w.tokens[t].sessionId == x) {
    }
  }

  lemma DoEffect(rs: RunState, o: Oracle, cfg: Config, call: Call)
    requires RunInv(rs, cfg) && Disciplined(rs, call)
    ensures var (w2, ret) := Do(rs.world, o, cfg, call); Effect(rs.world, w2, ret, SessionOf(rs.world, call))
  {
    match call
    case Start(_) => StartDo(rs.world, o, cfg, call);
    case Resume(_, _) => ResumeDo(rs.world, o, cfg, call);
    case Submit(_, _, _) => SubmitDo(rs.world, o, cfg, call);
  }

  /** Exactly when a session stands HUMAN_REQUIRED with no unrevoked token after a disciplined call from
      any reached state: it did so before; or the call is about it, and stored its pause but could not
      draw or save the token; or the call spent its token and could not load it, or failed its first
      attempt to store it. Tokens that merely expire are BrowserResumable's subject. */
  lemma CallStrandsIff(rs: RunState, o: Oracle, cfg: Config, calls: seq<Call>, clock: int, call: Call, id: nat)
    requires Reached(rs, o, cfg, calls, clock) && Disciplined(rs, call)
    ensures var w2 := Step(rs, o, cfg, call).world;
            var n := |rs.world.events|;
      Stranded(w2, id) <==>
        || Stranded(rs.world, id)
        || (id == SessionOf(rs.world, call) && (PauseFault(w2.events, n, id) || ResumeFault(w2.events, n, id)))
  {
    ReachedInv(rs, o, cfg, calls, clock);
    DoTold(rs, o, cfg, call);
    if id != SessionOf(rs.world, call) {
      var (w2, ret) := Do(rs.world, o, cfg, call);
      DoEffect(rs, o, cfg, call);
      OthersStandAsBefore(rs.world, w2, ret, SessionOf(rs.world, call), id);
    }
  }

  // For good

  lemma LiveHasToken(w: World, token: nat)
    ensures w.Live(token) ==> HasToken(w, TokenSession(w, token))
  {
  }

  lemma StrandedStep(rs: RunState, o: Oracle, cfg: Config, call: Call, id: nat)
    requires RunInv(rs, cfg) && Disciplined(rs, call) && Stranded(rs.world, id)
    ensures var w2 := Step(rs, o, cfg, call).world; Stranded(w2, id) && w2.sessions[id] == rs.world.sessions[id]
  {
    var w := rs.world;
    var (w2, ret) := Do(w, o, cfg, call);
    DoEffect(rs, o, cfg, call);
    if id != SessionOf(w, call) {
      OthersStandAsBefore(w, w2, ret, SessionOf(w, call), id);
    } else {
      DoTold(rs, o, cfg, call);
      assert call.Resume?;
      LiveHasToken(w, call.token);
      ResumeDo(w, o, cfg, call);
    }
  }

  /** A session without an unrevoked token stays so, and stored as it is, through any further
      disciplined calls. */
  lemma {:induction false} StrandedForGood(rs: RunState, o: Oracle, cfg: Config, more: seq<Call>, id: nat)
    requires RunInv(rs, cfg) && DisciplinedRun(rs, o, cfg, more) && Stranded(rs.world, id)
    ensures var w2 := Run(rs, o, cfg, more).world; Stranded(w2, id) && w2.sessions[id] == rs.world.sessions[id]
    decreases |more|
  {
    if more != [] {
      StrandedStep(rs, o, cfg, more[0], id);
      StepKeeps(rs, o, cfg, more[0]);
      StrandedForGood(Step(rs, o, cfg, more[0]), o, cfg, more[1..], id);
    }
  }

  // A run that strands a session

  /** The first page is a CAPTCHA; the one fault is the load that follows the redemption. */
  function StallAnswer(k: nat): Reply {
    Reply(k == 19, if k == 7 then Captcha else Normal, "", 0)
  }

  const STALL_INPUT := StartInput("app", "board", "url", [])
  const STALL_CALLS := [Start(STALL_INPUT), Resume(1, [])]

  /** The first call, a Start, meets a CAPTCHA and pauses without a fault and without delay. */
  ghost predicate PausesFirst(o: Oracle) {
    forall k | 0 <= k < 15 :: o(k) == Reply(false, if k == 7 then Captcha else Normal, "", 0)
  }

  lemma StallPause(o: Oracle, w: World, s: Session)
    requires PausesFirst(o) && |w.events| == 6 && w.clock == 0 && w.nextToken == 1 && w.tokens == map[]
    requires s.expiresAt == 1800
    ensures var (w2, ret) := NavigateAndFill(w, o, SLIP_CONFIG, s, "url", []);
      && ret.outcome == HumanRequired && |w2.events| == 15 && w2.clock == 0
      && w2.tokens == map[1 := TokenEntry(s.id, 1800, false)]
      && Waiting(w2, s.id)
  {
    var there := s.(currentUrl := "url");
    var w1 := Tick(w, o).Log(Navigated(s.id, "url", Some(Captcha)));
    assert |w1.events| == 8;
    var (w2, ref) := Capture(w1, o, s.id);
    assert |w2.events| == 10;
    var paused := PausedSession(there, "", ref, CaptchaDetected);
    var w3 := PutSession(w2.Log(ReadUrl(s.id)), o, paused);
    assert |w3.events| == 12 && w3.sessions[s.id] == paused;
    var w4 := PutToken(DrawToken(Tick(w3, o), o, s.id), o, 1, s.id, 1800);
    assert w4.tokens == map[1 := TokenEntry(s.id, 1800, false)];
    assert IssueToken(w3, o, SLIP_CONFIG, paused) == (w4, Return(paused, HumanRequired, None));
    assert NavigateAndFill(w, o, SLIP_CONFIG, s, "url", [])
        == PauseForHuman(w1, o, SLIP_CONFIG, there, CaptchaDetected);
  }

  lemma StallAdmit(o: Oracle, w: World)
    requires PausesFirst(o) && |w.events| == 3 && w.clock == 0 && w.nextId == 1 && w.nextToken == 1 && w.tokens == map[]
    ensures var (w2, ret) := Admit(w, o, SLIP_CONFIG, STALL_INPUT);
      && ret.outcome == HumanRequired && |w2.events| == 15 && w2.clock == 0
      && w2.tokens == map[1 := TokenEntry(1, 1800, false)] && Waiting(w2, 1)
  {
    var w1 := Tick(w, o);
    var s := NewSession(w1, SLIP_CONFIG, STALL_INPUT);
    assert s.id == 1 && s.expiresAt == 1800;
    var w2 := w1.(nextId := 2);
    assert Admit(w, o, SLIP_CONFIG, STALL_INPUT)
        == LaunchAndGo(w2, o, SLIP_CONFIG, s, STALL_INPUT);
    var running := s.(state := Running);
    var w3 := PutSession(w2.Log(Launched(1, true)), o, running);
    assert |w3.events| == 6;
    StallPause(o, w3, running);
  }

  lemma StallStart(o: Oracle)
    requires PausesFirst(o)
    ensures var (w, ret) := Do(EmptyWorld(0), o, SLIP_CONFIG, Start(STALL_INPUT));
      && ret.outcome == HumanRequired && |w.events| == 15 && w.clock == 0
      && w.tokens == map[1 := TokenEntry(1, 1800, false)] && Waiting(w, 1)
  {
    var w := EmptyWorld(0).Log(Begin(Start(STALL_INPUT)));
    var w1 := Tick(w, o);
    var since := StartOfDay(w1.clock);
    var w2 := w1.Log(CountedSessions(since, true));
    assert w2.StartTimes() == map[];
    CountSinceBound(w2.StartTimes(), since);
    StallAdmit(o, w2);
    assert StartCall(w, o, SLIP_CONFIG, STALL_INPUT) == Admit(w2, o, SLIP_CONFIG, STALL_INPUT);
  }

  lemma StallResume(w: World)
    requires Sound(w) && |w.events| == 15 && w.clock == 0
    requires w.tokens == map[1 := TokenEntry(1, 1800, false)]
    ensures Stranded(Do(w, StallAnswer, SLIP_CONFIG, Resume(1, [])).0, 1)
  {
    var w1 := Tick(w.Log(Begin(Resume(1, []))), StallAnswer);
    var w2 := w1.Log(LookedUpToken(1, true));
    assert |w2.events| == 18;
    RevokeFreesLater(w, w2, StallAnswer, 1);
    var w3 := Revoke(w2, StallAnswer, 1);
    var w4 := w3.Log(LoadedSession(1, false));
    assert Do(w, StallAnswer, SLIP_CONFIG, Resume(1, [])) == (w4, Refuse(LoadError));
    assert forall t :: w4.Live(t) == w3.Live(t);
  }

  /** A disciplined run of two calls from the empty store strands a session: Start meets a CAPTCHA and
      pauses without a fault, and the human's token is spent by a Resume that cannot load the session. */
  lemma StallRunStrands()
    ensures DisciplinedRun(Initially(0), StallAnswer, SLIP_CONFIG, STALL_CALLS)
    ensures Stranded(Run(Initially(0), StallAnswer, SLIP_CONFIG, STALL_CALLS).world, 1)
  {
    var rs := Initially(0);
    var call, again := Start(STALL_INPUT), Resume(1, []);
    InitialInv(0, SLIP_CONFIG);
    StallStart(StallAnswer);
    StepKeeps(rs, StallAnswer, SLIP_CONFIG, call);
    var rs1 := Step(rs, StallAnswer, SLIP_CONFIG, call);
    StallResume(rs1.world);
    TwoCalls(rs, StallAnswer, SLIP_CONFIG, call, again);
  }

  lemma TwoCalls(rs: RunState, o: Oracle, cfg: Config, call: Call, again: Call)
    requires !call.Submit? && !again.Submit?
    ensures DisciplinedRun(rs, o, cfg, [call, again])
    ensures Run(rs, o, cfg, [call, again]) == Step(Step(rs, o, cfg, call), o, cfg, again)
  {
    var rs1 := Step(rs, o, cfg, call);
    assert [call, again][1..] == [again] && [again][1..] == [];
    assert Run(rs1, o, cfg, [again]) == Step(rs1, o, cfg, again);
    assert DisciplinedRun(rs1, o, cfg, [again]);
  }
}
