/** Whole calls and whole runs of the runner. */
module BrowserRuns {
  import opened Days
  import opened BrowserSession
  import opened BrowserProtocol
  import opened BrowserRules
  import opened BrowserSafety
  import opened Wrappers

  /** Rules a call settles once, at its first event, and no idle event raises again. */
  predicate SettledAtBegin(r: Rule) {
    r.AfterTrouble? || r.NavigationOutsideStart? || r.UngatedClick?
  }

  predicate Calm(e: Event) {
    Idle(e) && !e.Begin?
  }

  lemma CalmAppend(ev: seq<Event>, e: Event)
    requires Calm(e)
    ensures forall r: Rule | SettledAtBegin(r) :: Open(r, ev + [e]) ==> Open(r, ev)
  {
    forall r: Rule | SettledAtBegin(r) ensures Open(r, ev + [e]) ==> Open(r, ev) {
      OpenAppend(r, ev, e);
    }
  }

  /** One idle event: the stores are untouched, apart from what the caller says of the clock and ids. */
  lemma CalmStep(w: World, w1: World, e: Event, id: nat)
    requires Sound(w) && Calm(e) && w1 == w.(clock := w1.clock, nextId := w1.nextId).Log(e)
    requires w.clock <= w1.clock && w.nextId <= w1.nextId
    ensures Sound(w1) && Carried(w, w1, id)
    ensures forall r: Rule | SettledAtBegin(r) || Lasting(r) :: Open(r, w1.events) ==> Open(r, w.events)
  {
    SelfIdled(w.events);
    IdledLog(w.events, w, e);
    IdleKeeps(w.events, w1.events);
    LookingEffect(w, w1, id);
    CalmAppend(w.events, e);
  }

  // Start

  lemma NavigateSettles(w: World, o: Oracle, cfg: Config, s: Session, url: string, fields: seq<FieldValue>)
    requires Sound(w) && Known(w, s) && Free(w, s.id) && s.state == Running
    requires !Open(AfterTrouble, w.events) && !Open(NavigationOutsideStart, w.events)
    requires !Open(Renavigate(s.id), w.events)
    ensures var (w2, ret) := NavigateAndFill(w, o, cfg, s, url, fields); Settled(w, w2, ret, s.id)
  {
    var w1 := Tick(w, o);
    CalmStep(w, w1, ClockRead(w1.clock), s.id);
    var (w2, ret) := NavigateAndFill(w, o, cfg, s, url, fields);
    if s.IsExpired(w1.clock) {
      FinishSettles(w1, o, s.(state := Expired), ExpiredOutcome);
    } else {
      NavigationSettles(w1, o, cfg, s, url, fields);
    }
    SettledAfter(w, w1, w2, ret, s.id);
  }

  /** NavigateAndFill after its expiry check. */
  lemma NavigationSettles(w: World, o: Oracle, cfg: Config, s: Session, url: string, fields: seq<FieldValue>)
    requires Sound(w) && Known(w, s) && Free(w, s.id) && s.state == Running
    requires !Open(AfterTrouble, w.events) && !Open(NavigationOutsideStart, w.events)
    requires !Open(Renavigate(s.id), w.events)
    ensures var seen := w.Answer(o);
            var w1 := w.Log(Navigated(s.id, url, Seen(seen)));
            var there := s.(currentUrl := url);
            var (w2, ret) :=
              if seen.fails then Fail(w1, o, s, NavigationFailed(seen.text))
              else if seen.page != Normal then HandleTrouble(w1, o, cfg, there, seen.page)
              else FillAndCheckpoint(w1, o, cfg, there, fields);
            Settled(w, w2, ret, s.id)
  {
    var seen := w.Answer(o);
    var e := Navigated(s.id, url, Seen(seen));
    var w1 := w.Log(e);
    NavigatedEffect(w, e, s.id);
    var there := s.(currentUrl := url);
    if seen.fails {
      FinishSettles(w1, o, s.(state := Failed, failureReason := NavigationFailed(seen.text)), FailedOutcome);
    } else if seen.page != Normal {
      TroubleSettles(w1, o, cfg, there, seen.page);
    } else {
      OpenAppend(AfterTrouble, w.events, e);
      OpenAppend(UnconfirmedFill(s.id), w.events, e);
      FillSettles(w1, o, cfg, there, fields);
    }
    var (w2, ret) :=
      if seen.fails then Fail(w1, o, s, NavigationFailed(seen.text))
      else if seen.page != Normal then HandleTrouble(w1, o, cfg, there, seen.page)
      else FillAndCheckpoint(w1, o, cfg, there, fields);
    SettledAfter(w, w1, w2, ret, s.id);
  }

  lemma NavigatedEffect(w: World, e: Event, id: nat)
    requires Sound(w) && e.Navigated? && e.id == id && id in w.sessions
    requires !Open(AfterTrouble, w.events) && !Open(NavigationOutsideStart, w.events)
    requires !Open(Renavigate(id), w.events)
    ensures Sound(w.Log(e)) && Carried(w, w.Log(e), id)
  {
    ObeyedAppend(w.events, e);
    forall r: Rule ensures Open(r, w.Log(e).events) == (Raises(r, e) || (!Clears(r, e) && Open(r, w.events))) {
      OpenAppend(r, w.events, e);
    }
    forall r: Rule | Lasting(r) && Open(r, w.Log(e).events) ensures Accounted(w.Log(e), r) {
      assert Raises(r, e) || Accounted(w, r);
    }
  }

  /** What a whole call working on session `id` does: that session may be new, its tokens may be
      revoked or issued, its click rule may move; nothing else about other sessions changes. */
  ghost predicate Effect(w: World, w2: World, ret: Return, id: nat) {
    && Sound(w2) && w.nextId <= w2.nextId && w.clock <= w2.clock
    && w.sessions.Keys <= w2.sessions.Keys <= w.sessions.Keys + {id}
    && (forall x | x in w.sessions ::
          && w2.sessions[x].startedAt == w.sessions[x].startedAt
          && (x != id ==> w2.sessions[x] == w.sessions[x]))
    && (forall t | t in w.tokens && w.tokens[t].sessionId != id :: t in w2.tokens && w2.tokens[t] == w.tokens[t])
    && (forall t | t in w2.tokens && w2.tokens[t].sessionId != id :: t in w.tokens && w2.tokens[t] == w.tokens[t])
    && (forall x | x != id :: Open(Resubmit(x), w2.events) == Open(Resubmit(x), w.events))
    && w.events <= w2.events
    && (ret.outcome == ReadyForReview && Open(Resubmit(id), w2.events) ==> Open(Resubmit(id), w.events))
    && Answers(w2, ret, id)
  }

  /** What the answer of a call on `id` promises of the stores. */
  ghost predicate Answers(w2: World, ret: Return, id: nat) {
    && (StoresAnswered(w2.events) ==> NotStranded(w2, id))
    && (ret.outcome == HumanRequired ==> HasToken(w2, id) && id in w2.sessions && ret.session == w2.sessions[id])
    && (ret.outcome == ReadyForReview ==> Submittable(w2, ret.session) && ret.session.id == id && Free(w2, id))
  }

  lemma SettledIsEffect(w: World, w2: World, ret: Return, id: nat)
    requires Settled(w, w2, ret, id)
    ensures Effect(w, w2, ret, id)
  {
  }

  lemma EffectAfter(w: World, w1: World, w2: World, ret: Return, id: nat)
    requires Carried(w, w1, id) && Effect(w1, w2, ret, id)
    ensures Effect(w, w2, ret, id)
  {
  }

  lemma NewSessionEffect(w: World, o: Oracle, s: Session, ret: Return)
    requires Sound(w) && s.id !in w.sessions && 0 < s.id < w.nextId && s.state != HumanReq
    requires ret.outcome != HumanRequired && ret.outcome != ReadyForReview
    ensures var w2 := PutSession(w, o, s);
      && Effect(w, w2, ret, s.id) && Free(w2, s.id) && HistoryCarried(w, w2)
      && (forall r: Rule | SettledAtBegin(r) || r.Renavigate? :: Open(r, w2.events) ==> Open(r, w.events))
  {
    var w2 := PutSession(w, o, s);
    SelfIdled(w.events);
    PutSessionIdles(w.events, w, o, s);
    IdleHistory(w, w2);
    IdleKeeps(w.events, w2.events);
    CalmAppend(w.events, SavedSession(s, !w.Answer(o).fails));
    NewSessionStores(w, s);
  }

  lemma NewSessionStores(w: World, s: Session)
    requires StoreSound(w) && s.id !in w.sessions && 0 < s.id < w.nextId
    ensures StoreSound(w.(sessions := w.sessions[s.id := s])) && Free(w, s.id)
  {
  }

  lemma EffectThenSettled(w: World, w1: World, w2: World, noted: Return, ret: Return, id: nat)
    requires Effect(w, w1, noted, id) && HistoryCarried(w, w1) && Settled(w1, w2, ret, id)
    ensures Effect(w, w2, ret, id)
  {
  }

  lemma LaunchEffect(w: World, o: Oracle, cfg: Config, s: Session, input: StartInput)
    requires Sound(w) && s.id !in w.sessions && 0 < s.id < w.nextId
    requires !Open(AfterTrouble, w.events) && !Open(NavigationOutsideStart, w.events)
    requires !Open(Renavigate(s.id), w.events)
    ensures var (w2, ret) := LaunchAndGo(w, o, cfg, s, input);
      Effect(w, w2, ret, s.id) && (s.id in w2.sessions ==> w2.sessions[s.id].startedAt == s.startedAt)
  {
    var launched := w.Answer(o);
    var e := Launched(s.id, !launched.fails);
    var w1 := w.Log(e);
    TouchEffect(w, e, s.id);
    if launched.fails {
      var dead := s.(state := Failed, failureReason := LaunchError(launched.text));
      var ret := if w1.Answer(o).fails then Refuse(SaveError) else Return(dead, FailedOutcome, Some(LaunchFailure));
      NewSessionEffect(w1, o, dead, ret);
      EffectAfter(w, w1, PutSession(w1, o, dead), ret, s.id);
    } else {
      OpenAppend(AfterTrouble, w.events, e);
      OpenAppend(NavigationOutsideStart, w.events, e);
      OpenAppend(Renavigate(s.id), w.events, e);
      LaunchedEffect(w1, o, cfg, s.(state := Running), input);
      var (w2, ret) := LaunchAndGo(w, o, cfg, s, input);
      EffectAfter(w, w1, w2, ret, s.id);
    }
  }

  lemma LaunchedEffect(w: World, o: Oracle, cfg: Config, s: Session, input: StartInput)
    requires Sound(w) && s.id !in w.sessions && 0 < s.id < w.nextId && s.state == Running
    requires !Open(AfterTrouble, w.events) && !Open(NavigationOutsideStart, w.events)
    requires !Open(Renavigate(s.id), w.events)
    ensures var w1 := PutSession(w, o, s);
            var (w2, ret) :=
              if w.Answer(o).fails then (w1, Refuse(SaveError))
              else NavigateAndFill(w1, o, cfg, s, input.startUrl, input.fields);
            Effect(w, w2, ret, s.id) && (s.id in w2.sessions ==> w2.sessions[s.id].startedAt == s.startedAt)
  {
    var w1 := PutSession(w, o, s);
    NewSessionEffect(w, o, s, Refuse(SaveError));
    if !w.Answer(o).fails {
      NavigateSettles(w1, o, cfg, s, input.startUrl, input.fields);
      var (w2, ret) := NavigateAndFill(w1, o, cfg, s, input.startUrl, input.fields);
      EffectThenSettled(w, w1, w2, Refuse(SaveError), ret, s.id);
    }
  }

  /** `check` is the clock reading the limit was counted from. */
  lemma AdmittedEffect(w: World, o: Oracle, cfg: Config, input: StartInput, check: int)
    requires Sound(w) && 0 < w.nextId && Capped(w.StartTimes(), cfg.sessionsPerDay)
    requires !Open(AfterTrouble, w.events) && !Open(NavigationOutsideStart, w.events)
    requires check <= w.clock && CountSince(w.StartTimes(), StartOfDay(check)) < cfg.sessionsPerDay
    ensures var (w2, ret) := Admit(w, o, cfg, input);
      Effect(w, w2, ret, w.nextId) && Capped(w2.StartTimes(), cfg.sessionsPerDay)
  {
    var id := w.nextId;
    var w0 := Tick(w, o);
    var s := NewSession(w0, cfg, input);
    var w1 := w0.(nextId := w0.nextId + 1);
    CalmStep(w, w1, ClockRead(w0.clock), id);
    assert Accounted(w, Renavigate(id)) <==> false;
    LaunchEffect(w1, o, cfg, s, input);
    var (w2, ret) := LaunchAndGo(w1, o, cfg, s, input);
    EffectAfter(w, w1, w2, ret, id);
    NewTimesCapped(w, w2, id, check, s.startedAt, cfg.sessionsPerDay);
  }

  lemma NewTimesCapped(w: World, w2: World, id: nat, check: int, at: int, limit: int)
    requires Capped(w.StartTimes(), limit) && id !in w.sessions && check <= at
    requires CountSince(w.StartTimes(), StartOfDay(check)) < limit
    requires w.sessions.Keys <= w2.sessions.Keys <= w.sessions.Keys + {id}
    requires forall x | x in w.sessions :: w2.sessions[x].startedAt == w.sessions[x].startedAt
    requires id in w2.sessions ==> w2.sessions[id].startedAt == at
    ensures Capped(w2.StartTimes(), limit)
  {
    CapSurvivesMidnight(w.StartTimes(), id, check, at, limit);
    assert w2.StartTimes() == if id in w2.sessions then w.StartTimes()[id := at] else w.StartTimes();
  }

  /** The limit check's two questions leave the stores alone. */
  lemma CountedEffect(w: World, o: Oracle, id: nat)
    requires Sound(w)
    requires !Open(AfterTrouble, w.events) && !Open(NavigationOutsideStart, w.events)
    ensures var w1 := Tick(w, o);
            var w2 := w1.Log(CountedSessions(StartOfDay(w1.clock), !w1.Answer(o).fails));
            && Sound(w2) && Carried(w, w2, id) && w2.StartTimes() == w.StartTimes() && w2.nextId == w.nextId
            && !Open(AfterTrouble, w2.events) && !Open(NavigationOutsideStart, w2.events)
  {
    var w1 := Tick(w, o);
    CalmStep(w, w1, ClockRead(w1.clock), id);
    var e := CountedSessions(StartOfDay(w1.clock), !w1.Answer(o).fails);
    CalmStep(w1, w1.Log(e), e, id);
    CarriedTrans(w, w1, w1.Log(e), id);
    assert w1.Log(e).StartTimes() == w.StartTimes();
  }

  lemma StartEffect(w: World, o: Oracle, cfg: Config, input: StartInput)
    requires Sound(w) && 0 < w.nextId && Capped(w.StartTimes(), cfg.sessionsPerDay)
    requires !Open(AfterTrouble, w.events) && !Open(NavigationOutsideStart, w.events)
    ensures var (w2, ret) := StartCall(w, o, cfg, input);
      Effect(w, w2, ret, w.nextId) && Capped(w2.StartTimes(), cfg.sessionsPerDay)
  {
    var id := w.nextId;
    CountedEffect(w, o, id);
    var w1 := Tick(w, o);
    var counted := w1.Answer(o);
    var since := StartOfDay(w1.clock);
    var w2 := w1.Log(CountedSessions(since, !counted.fails));
    var (w3, ret) := StartCall(w, o, cfg, input);
    if !counted.fails && CountSince(w2.StartTimes(), since) < cfg.sessionsPerDay {
      AdmittedEffect(w2, o, cfg, input, w1.clock);
      EffectAfter(w, w2, w3, ret, id);
    } else {
      RefusedEffect(w, w2, ret, id);
    }
  }

  lemma RefusedEffect(w: World, w1: World, ret: Return, id: nat)
    requires Sound(w1) && Carried(w, w1, id) && id !in w.sessions
    requires ret.outcome == NoOutcome
    ensures Effect(w, w1, ret, id)
  {
  }

  // Resume

  lemma ContinueSettles(w: World, o: Oracle, cfg: Config, s: Session, fields: seq<FieldValue>)
    requires Sound(w) && s.id in w.sessions && w.sessions[s.id] == s && Free(w, s.id)
    requires !Open(AfterTrouble, w.events)
    ensures var (w2, ret) := ContinueSession(w, o, cfg, s, fields); Settled(w, w2, ret, s.id)
  {
    var w1 := Tick(w, o);
    CalmStep(w, w1, ClockRead(w1.clock), s.id);
    var (w2, ret) := ContinueSession(w, o, cfg, s, fields);
    if s.IsExpired(w1.clock) {
      FinishSettles(w1, o, s.(state := Expired), ExpiredOutcome);
    } else {
      LookedSettles(w1, o, cfg, s, fields);
    }
    SettledAfter(w, w1, w2, ret, s.id);
  }

  /** ContinueSession after its expiry check. */
  lemma LookedSettles(w: World, o: Oracle, cfg: Config, s: Session, fields: seq<FieldValue>)
    requires Sound(w) && s.id in w.sessions && w.sessions[s.id] == s && Free(w, s.id)
    requires !Open(AfterTrouble, w.events)
    ensures var seen := w.Answer(o);
            var w1 := w.Log(Detected(s.id, Seen(seen)));
            var resumed := s.(state := Resumed);
            var (w2, ret) :=
              if seen.fails then Fail(w1, o, s, ResumeDetectionFailed(seen.text))
              else if seen.page != Normal then PauseForHuman(w1, o, cfg, s, StillNotResumable(seen.page))
              else if w1.Answer(o).fails then (PutSession(w1, o, resumed), Refuse(SaveError))
              else FillAndCheckpoint(PutSession(w1, o, resumed), o, cfg, resumed, fields);
            Settled(w, w2, ret, s.id)
  {
    var seen := w.Answer(o);
    var e := Detected(s.id, Seen(seen));
    var w1 := w.Log(e);
    TouchEffect(w, e, s.id);
    var resumed := s.(state := Resumed);
    if seen.fails {
      FinishSettles(w1, o, s.(state := Failed, failureReason := ResumeDetectionFailed(seen.text)), FailedOutcome);
    } else if seen.page != Normal {
      PauseSettles(w1, o, cfg, s, StillNotResumable(seen.page));
    } else {
      OpenAppend(AfterTrouble, w.events, e);
      OpenAppend(UnconfirmedFill(s.id), w.events, e);
      ResumedSettles(w1, o, cfg, resumed, fields);
    }
    var (w2, ret) :=
      if seen.fails then Fail(w1, o, s, ResumeDetectionFailed(seen.text))
      else if seen.page != Normal then PauseForHuman(w1, o, cfg, s, StillNotResumable(seen.page))
      else if w1.Answer(o).fails then (PutSession(w1, o, resumed), Refuse(SaveError))
      else FillAndCheckpoint(PutSession(w1, o, resumed), o, cfg, resumed, fields);
    SettledAfter(w, w1, w2, ret, s.id);
  }

  lemma ResumedSettles(w: World, o: Oracle, cfg: Config, s: Session, fields: seq<FieldValue>)
    requires Sound(w) && Known(w, s) && Free(w, s.id) && s.state == Resumed
    requires !Open(AfterTrouble, w.events) && !Open(UnconfirmedFill(s.id), w.events)
    ensures var w1 := PutSession(w, o, s);
            var (w2, ret) := if w.Answer(o).fails then (w1, Refuse(SaveError))
                             else FillAndCheckpoint(w1, o, cfg, s, fields);
            Settled(w, w2, ret, s.id)
  {
    var w1 := PutSession(w, o, s);
    PutSessionEffect(w, o, s);
    var e := SavedSession(s, !w.Answer(o).fails);
    if w.Answer(o).fails {
      assert StoreFault(w1.events[|w1.events| - 1]);
    } else {
      OpenAppend(AfterTrouble, w.events, e);
      OpenAppend(UnconfirmedFill(s.id), w.events, e);
      FillSettles(w1, o, cfg, s, fields);
      var (w2, ret) := FillAndCheckpoint(w1, o, cfg, s, fields);
      SettledAfter(w, w1, w2, ret, s.id);
    }
  }

  lemma RevokeStores(w: World, token: nat)
    requires StoreSound(w) && token in w.tokens && w.Live(token)
    ensures var w2 := w.(tokens := w.tokens[token := w.tokens[token].(revoked := true)]);
      StoreSound(w2) && Free(w2, w.tokens[token].sessionId)
  {
  }

  /** A successful redemption: the token is spent, its session has no live token left, and the
      session's click rule is cleared. */
  lemma RevokeEffect(w: World, o: Oracle, token: nat)
    requires Sound(w) && token in w.tokens && w.Live(token) && !w.Answer(o).fails
    ensures var w2 := Revoke(w, o, token);
            var id := w.tokens[token].sessionId;
            && Sound(w2) && Free(w2, id) && !Open(Resubmit(id), w2.events)
            && (forall x | x != id :: Open(Resubmit(x), w2.events) == Open(Resubmit(x), w.events))
            && (Open(AfterTrouble, w2.events) ==> Open(AfterTrouble, w.events))
  {
    var w2 := Revoke(w, o, token);
    var e := RevokedToken(token, w.tokens[token].sessionId, true);
    RevokeStores(w, token);
    assert Open(TokenReuse(token), w.events) ==> Accounted(w, TokenReuse(token));
    ObeyedAppend(w.events, e);
    forall r: Rule ensures Open(r, w2.events) == (Raises(r, e) || (!Clears(r, e) && Open(r, w.events))) {
      OpenAppend(r, w.events, e);
    }
    forall r: Rule | Lasting(r) && Open(r, w2.events) ensures Accounted(w2, r) {
      assert Raises(r, e) || Accounted(w, r);
    }
  }

  /** The session a recovery token was issued for; no session when the token is unknown. */
  function TokenSession(w: World, token: nat): nat {
    if token in w.tokens then w.tokens[token].sessionId else 0
  }

  lemma RedeemEffect(w: World, o: Oracle, token: nat, now: int)
    requires Sound(w) && !Open(AfterTrouble, w.events)
    ensures var (w2, failed) := Redeem(w, o, token, now);
            var id := TokenSession(w, token);
            && w2.sessions == w.sessions
            && (failed.Some? ==>
                  && Sound(w2) && Carried(w, w2, id) && w2.tokens == w.tokens
                  && (StoresAnswered(w2.events) ==> failed == Some(InvalidToken)))
            && (failed.None? ==>
                  && w.Live(token)
                  && w2 == w.(tokens := w.tokens[token := w.tokens[token].(revoked := true)], events := w2.events)
                  && Sound(w2) && Free(w2, id) && !Open(Resubmit(id), w2.events) && w.events <= w2.events
                  && (forall x | x != id :: Open(Resubmit(x), w2.events) == Open(Resubmit(x), w.events))
                  && !Open(AfterTrouble, w2.events))
  {
    var id := TokenSession(w, token);
    var looked := w.Answer(o);
    var e := LookedUpToken(token, !looked.fails);
    var w1 := w.Log(e);
    CalmStep(w, w1, e, id);
    if looked.fails {
      assert StoreFault(w1.events[|w1.events| - 1]);
    } else if Redeemable(w1, token, now) {
      if w1.Answer(o).fails {
        var e2 := RevokedToken(token, id, false);
        CalmStep(w1, w1.Log(e2), e2, id);
        CarriedTrans(w, w1, w1.Log(e2), id);
        assert StoreFault(w1.Log(e2).events[|w1.events|]);
      } else {
        RevokeEffect(w1, o, token);
      }
    }
  }

  lemma ResumeEffect(w: World, o: Oracle, cfg: Config, token: nat, fields: seq<FieldValue>)
    requires Sound(w) && !Open(AfterTrouble, w.events)
    requires forall id | id in w.sessions && StoresAnswered(w.events) :: NotStranded(w, id)
    ensures var (w2, ret) := ResumeCall(w, o, cfg, token, fields);
            var id := TokenSession(w, token);
            && Effect(w, w2, ret, id)
            && (w.Live(token) || (ret.outcome == NoOutcome && w2.sessions == w.sessions && w2.tokens == w.tokens))
            && (ret.outcome == ReadyForReview ==> !Open(Resubmit(id), w2.events))
            && (Open(Resubmit(id), w2.events) ==> Open(Resubmit(id), w.events))
  {
    var id := TokenSession(w, token);
    var w1 := Tick(w, o);
    CalmStep(w, w1, ClockRead(w1.clock), id);
    RedeemEffect(w1, o, token, w1.clock);
    var (w2, failed) := Redeem(w1, o, token, w1.clock);
    var (w3, ret) := ResumeCall(w, o, cfg, token, fields);
    if failed.Some? {
      CarriedTrans(w, w1, w2, id);
      NotRedeemedEffect(w, w2, ret, id);
    } else {
      RedeemedEffect(w2, o, cfg, id, fields);
      RedeemThen(w1, w2, w3, token, ret, id);
      EffectAfter(w, w1, w3, ret, id);
    }
  }

  lemma NotRedeemedEffect(w: World, w1: World, ret: Return, id: nat)
    requires Sound(w) && Sound(w1) && Carried(w, w1, id) && w1.sessions == w.sessions && w1.tokens == w.tokens
    requires ret.outcome == NoOutcome
    requires forall x | x in w.sessions && StoresAnswered(w.events) :: NotStranded(w, x)
    ensures Effect(w, w1, ret, id)
  {
    if StoresAnswered(w1.events) {
      AnsweredBefore(w.events, w1.events);
      assert id in w.sessions ==> NotStranded(w, id);
      assert HasToken(w, id) ==> HasToken(w1, id) by {
        if HasToken(w, id) {
          var t :| t in w.tokens && w.Live(t) && w.tokens[t].sessionId == id;
          assert t in w1.tokens && w1.Live(t);
        }
      }
    }
  }

  /** Resume after a successful redemption. */
  lemma RedeemedEffect(w: World, o: Oracle, cfg: Config, id: nat, fields: seq<FieldValue>)
    requires Sound(w) && id in w.sessions && Free(w, id)
    requires !Open(AfterTrouble, w.events)
    ensures var w1 := w.Log(LoadedSession(id, !w.Answer(o).fails));
            var (w2, ret) := if w.Answer(o).fails then (w1, Refuse(LoadError))
                             else ContinueSession(w1, o, cfg, Stored(w1, id), fields);
            Settled(w, w2, ret, id)
  {
    var e := LoadedSession(id, !w.Answer(o).fails);
    var w1 := w.Log(e);
    CalmStep(w, w1, e, id);
    if w.Answer(o).fails {
      assert StoreFault(w1.events[|w1.events| - 1]);
    } else {
      ContinueSettles(w1, o, cfg, Stored(w1, id), fields);
      var (w2, ret) := ContinueSession(w1, o, cfg, Stored(w1, id), fields);
      SettledAfter(w, w1, w2, ret, id);
    }
  }

  /** Revoking a session's token and then working on that session only. */
  lemma RedeemThen(w: World, w1: World, w2: World, token: nat, ret: Return, id: nat)
    requires token in w.tokens && w.tokens[token].sessionId == id && w.events <= w1.events
    requires w1 == w.(tokens := w.tokens[token := w.tokens[token].(revoked := true)], events := w1.events)
    requires forall x | x != id :: Open(Resubmit(x), w1.events) == Open(Resubmit(x), w.events)
    requires !Open(Resubmit(id), w1.events) && Settled(w1, w2, ret, id)
    ensures Effect(w, w2, ret, id)
  {
  }

  // Submit

  /** The call clicked. */
  predicate ClickedSince(ev: seq<Event>, from: nat) {
    exists k :: from <= k < |ev| && ev[k].Clicked?
  }

  lemma ClickedEffect(w: World, e: Event)
    requires Sound(w) && e.Clicked? && e.session.id in w.sessions
    requires !Open(AfterTrouble, w.events) && !Open(UngatedClick(e.session.id), w.events)
    requires !Open(Resubmit(e.session.id), w.events) && !Open(OverdueClick(e.session), w.events)
    ensures Sound(w.Log(e))
    ensures forall x | x != e.session.id :: Open(Resubmit(x), w.Log(e).events) == Open(Resubmit(x), w.events)
  {
    ObeyedAppend(w.events, e);
    forall r: Rule ensures Open(r, w.Log(e).events) == (Raises(r, e) || (!Clears(r, e) && Open(r, w.events))) {
      OpenAppend(r, w.events, e);
    }
    forall r: Rule | Lasting(r) && Open(r, w.Log(e).events) ensures Accounted(w.Log(e), r) {
      assert Raises(r, e) || Accounted(w, r);
    }
  }

  lemma JudgedSettles(w: World, o: Oracle, cfg: Config, s: Session, seen: Reply)
    requires Sound(w) && s.id in w.sessions && w.sessions[s.id] == s && Free(w, s.id)
    ensures var (w2, ret) :=
              if seen.fails then PauseForHuman(w, o, cfg, s, SubmissionUncertain(seen.text))
              else match seen.page
                case Submitted =>
                  (PutSession(w, o, s.(state := Completed)),
                   if w.Answer(o).fails then Refuse(SaveError) else Return(s.(state := Completed), SubmittedOk, None))
                case Normal => PauseForHuman(w, o, cfg, s, SubmissionUnconfirmed)
                case Captcha => PauseForHuman(w, o, cfg, s, CaptchaAfterSubmission)
                case page => PauseForHuman(w, o, cfg, s, UnexpectedAfterSubmission(page));
            Settled(w, w2, ret, s.id) && ret.outcome != ReadyForReview
  {
    var reason :=
      if seen.fails then SubmissionUncertain(seen.text)
      else match seen.page
        case Normal => SubmissionUnconfirmed
        case Captcha => CaptchaAfterSubmission
        case page => UnexpectedAfterSubmission(page);
    PauseSettles(w, o, cfg, s, reason);
    PauseOutcome(w, o, cfg, s, reason);
    FinishSettles(w, o, s.(state := Completed), SubmittedOk);
    var w2 := PutSession(w, o, s.(state := Completed));
    assert w.Answer(o).fails ==> StoreFault(w2.events[|w2.events| - 1]);
  }

  lemma ClickEffect(w: World, o: Oracle, cfg: Config, s: Session)
    requires Sound(w) && s.id in w.sessions && w.sessions[s.id] == s && Free(w, s.id)
    requires !Open(AfterTrouble, w.events) && !Open(UngatedClick(s.id), w.events)
    requires !Open(Resubmit(s.id), w.events) && !Open(OverdueClick(s), w.events)
    ensures var (w2, ret) := ClickAndJudge(w, o, cfg, s);
      Effect(w, w2, ret, s.id) && ret.outcome != ReadyForReview && ClickedSince(w2.events, |w.events|)
  {
    var e := Clicked(s, Seen(w.Answer(o)));
    var w1 := w.Log(e);
    ClickedEffect(w, e);
    JudgedSettles(w1, o, cfg, s, w.Answer(o));
    var (w2, ret) := ClickAndJudge(w, o, cfg, s);
    assert w2.events[|w.events|] == w1.events[|w.events|] == e;
    ClickThen(w, w1, w2, ret, s.id);
  }

  lemma ClickThen(w: World, w1: World, w2: World, ret: Return, id: nat)
    requires w1 == w.(events := w1.events) && w.events <= w1.events
    requires forall x | x != id :: Open(Resubmit(x), w1.events) == Open(Resubmit(x), w.events)
    requires Settled(w1, w2, ret, id) && ret.outcome != ReadyForReview
    ensures Effect(w, w2, ret, id)
  {
  }

  ghost predicate StillUnclicked(w: World, w2: World, id: nat) {
    ClickedSince(w2.events, |w.events|) || (!Open(Resubmit(id), w2.events) && Free(w2, id))
  }

  lemma SubmitEffect(w: World, o: Oracle, cfg: Config, s: Session, gatePassed: bool)
    requires Sound(w) && Submittable(w, s) && !Open(AfterTrouble, w.events)
    requires !Open(Resubmit(s.id), w.events)
    requires gatePassed ==> !Open(UngatedClick(s.id), w.events)
    ensures var (w2, ret) := SubmitCall(w, o, cfg, s, gatePassed);
      Effect(w, w2, ret, s.id) && ret.outcome != ReadyForReview && StillUnclicked(w, w2, s.id)
  {
    assert Free(w, s.id);
    if gatePassed {
      var w1 := Tick(w, o);
      var e := ClockRead(w1.clock);
      CalmStep(w, w1, e, s.id);
      OpenAppend(OverdueClick(s.(state := Running)), w.events, e);
      GatedEffect(w1, o, cfg, s);
      var (w2, ret) := SubmitCall(w, o, cfg, s, gatePassed);
      EffectAfter(w, w1, w2, ret, s.id);
    } else {
      IdleSubmit(w, s, Refuse(GateRefused));
    }
  }

  lemma IdleSubmit(w: World, s: Session, ret: Return)
    requires Sound(w) && Submittable(w, s) && ret.outcome == NoOutcome
    ensures Effect(w, w, ret, s.id)
  {
  }

  /** Submit once the gate has passed and the clock is read. */
  lemma GatedEffect(w: World, o: Oracle, cfg: Config, s: Session)
    requires Sound(w) && Known(w, s) && Free(w, s.id)
    requires !Open(AfterTrouble, w.events) && !Open(UngatedClick(s.id), w.events)
    requires !Open(Resubmit(s.id), w.events)
    requires !s.IsExpired(w.clock) ==> !Open(OverdueClick(s.(state := Running)), w.events)
    ensures var (w2, ret) := if s.IsExpired(w.clock) then Expire(w, o, s)
                             else SaveAndClick(w, o, cfg, s.(state := Running));
            Effect(w, w2, ret, s.id) && ret.outcome != ReadyForReview && StillUnclicked(w, w2, s.id)
  {
    if s.IsExpired(w.clock) {
      var gone := s.(state := Expired);
      FinishSettles(w, o, gone, ExpiredOutcome);
      var (w2, ret) := Finish(w, o, gone, ExpiredOutcome);
      SettledIsEffect(w, w2, ret, s.id);
    } else {
      SaveAndClickEffect(w, o, cfg, s.(state := Running));
    }
  }

  /** The click, once the running session is stored. */
  lemma StoredThenClick(w: World, w1: World, o: Oracle, cfg: Config, s: Session)
    requires Carried(w, w1, s.id) && Sound(w1) && s.id in w1.sessions && w1.sessions[s.id] == s && Free(w1, s.id)
    requires !Open(AfterTrouble, w1.events) && !Open(UngatedClick(s.id), w1.events)
    requires !Open(Resubmit(s.id), w1.events) && !Open(OverdueClick(s), w1.events)
    ensures var (w2, ret) := ClickAndJudge(w1, o, cfg, s);
      Effect(w, w2, ret, s.id) && ret.outcome != ReadyForReview && StillUnclicked(w, w2, s.id)
  {
    ClickEffect(w1, o, cfg, s);
    var (w2, ret) := ClickAndJudge(w1, o, cfg, s);
    EffectAfter(w, w1, w2, ret, s.id);
  }

  lemma RunningStored(w: World, o: Oracle, s: Session)
    requires Sound(w) && Known(w, s) && Free(w, s.id) && s.state == Running && !w.Answer(o).fails
    requires !Open(AfterTrouble, w.events) && !Open(UngatedClick(s.id), w.events)
    requires !Open(Resubmit(s.id), w.events) && !Open(OverdueClick(s), w.events)
    ensures var w1 := PutSession(w, o, s);
      && Carried(w, w1, s.id) && Sound(w1) && s.id in w1.sessions && w1.sessions[s.id] == s && Free(w1, s.id)
      && !Open(AfterTrouble, w1.events) && !Open(UngatedClick(s.id), w1.events)
      && !Open(Resubmit(s.id), w1.events) && !Open(OverdueClick(s), w1.events)
  {
    var e := SavedSession(s, true);
    FinishSettles(w, o, s, NoOutcome);
    CalmAppend(w.events, e);
    OpenAppend(OverdueClick(s), w.events, e);
  }

  lemma RunningNotStored(w: World, o: Oracle, s: Session)
    requires Sound(w) && Known(w, s) && Free(w, s.id) && s.state == Running && w.Answer(o).fails
    requires !Open(Resubmit(s.id), w.events)
    ensures var w1 := PutSession(w, o, s);
      Effect(w, w1, Refuse(SaveError), s.id) && StillUnclicked(w, w1, s.id)
  {
    FinishSettles(w, o, s, NoOutcome);
    SettledIsEffect(w, PutSession(w, o, s), Finish(w, o, s, NoOutcome).1, s.id);
  }

  lemma SaveAndClickEffect(w: World, o: Oracle, cfg: Config, s: Session)
    requires Sound(w) && Known(w, s) && Free(w, s.id) && s.state == Running
    requires !Open(AfterTrouble, w.events) && !Open(UngatedClick(s.id), w.events)
    requires !Open(Resubmit(s.id), w.events) && !Open(OverdueClick(s), w.events)
    ensures var (w2, ret) := SaveAndClick(w, o, cfg, s);
      Effect(w, w2, ret, s.id) && ret.outcome != ReadyForReview && StillUnclicked(w, w2, s.id)
  {
    if w.Answer(o).fails {
      RunningNotStored(w, o, s);
    } else {
      RunningStored(w, o, s);
      StoredThenClick(w, PutSession(w, o, s), o, cfg, s);
    }
  }
}
