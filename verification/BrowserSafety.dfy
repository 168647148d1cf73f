/** What every call of the runner keeps, and safety over whole runs of Start, Resume and Submit. */
module BrowserSafety {
  import opened BrowserSession
  import opened BrowserProtocol
  import opened BrowserRules
  import opened Wrappers

  predicate Free(w: World, id: nat) {
    forall t | t in w.tokens && w.Live(t) :: w.tokens[t].sessionId != id
  }

  ghost predicate HasToken(w: World, id: nat) {
    exists t :: t in w.tokens && w.Live(t) && w.tokens[t].sessionId == id
  }

  /** s is a version of the stored session of the same id. */
  predicate Known(w: World, s: Session) {
    s.id in w.sessions && s.startedAt == w.sessions[s.id].startedAt
  }

  /** At most one live token per session, and only for a session stored as HUMAN_REQUIRED. */
  ghost predicate TokensSound(w: World) {
    && (forall t | t in w.tokens ::
          && t < w.nextToken
          && w.tokens[t].sessionId in w.sessions
          && (w.Live(t) ==> w.sessions[w.tokens[t].sessionId].state == HumanReq))
    && (forall t, u | t in w.tokens && u in w.tokens && w.Live(t) && w.Live(u) ::
          w.tokens[t].sessionId == w.tokens[u].sessionId ==> t == u)
  }

  /** A lasting rule stands open only for ids already drawn and tokens already revoked. */
  predicate Accounted(w: World, r: Rule) {
    match r
    case Resubmit(id) => id < w.nextId
    case Renavigate(id) => id < w.nextId
    case TokenReuse(t) => t in w.tokens && w.tokens[t].revoked
    case _ => true
  }

  ghost predicate StoreSound(w: World) {
    && (forall id | id in w.sessions :: w.sessions[id].id == id && 0 < id < w.nextId)
    && TokensSound(w)
  }

  ghost predicate HistorySound(w: World) {
    && (forall r: Rule | Lasting(r) && Open(r, w.events) :: Accounted(w, r))
    && Obeyed(w.events)
  }

  ghost predicate Sound(w: World) {
    StoreSound(w) && HistorySound(w)
  }

  /** The part of a call after its session is stored and its token, if any, revoked: nothing but
      that one session changes, and any new token is for it. */
  ghost predicate StoreCarried(w: World, w2: World, id: nat) {
    && w.clock <= w2.clock && w.nextId <= w2.nextId && w.nextToken <= w2.nextToken
    && w2.sessions.Keys == w.sessions.Keys
    && (forall x | x in w.sessions ::
          && w2.sessions[x].startedAt == w.sessions[x].startedAt
          && (x != id ==> w2.sessions[x] == w.sessions[x]))
    && (forall t | t in w.tokens :: t in w2.tokens && w2.tokens[t] == w.tokens[t])
    && (forall t | t in w2.tokens && t !in w.tokens :: w2.tokens[t].sessionId == id)
  }

  ghost predicate HistoryCarried(w: World, w2: World) {
    && w.events <= w2.events
    && (forall x :: Open(Resubmit(x), w2.events) == Open(Resubmit(x), w.events))
  }

  ghost predicate Carried(w: World, w2: World, id: nat) {
    StoreCarried(w, w2, id) && HistoryCarried(w, w2)
  }

  /** A store, token-store or random-source call that failed. */
  predicate StoreFault(e: Event) {
    match e
    case CountedSessions(_, ok) => !ok
    case SavedSession(_, ok) => !ok
    case LoadedSession(_, ok) => !ok
    case SavedCheckpoint(_, ok) => !ok
    case DrewToken(_, ok) => !ok
    case SavedToken(_, _, ok) => !ok
    case LookedUpToken(_, ok) => !ok
    case RevokedToken(_, _, ok) => !ok
    case _ => false
  }

  predicate StoresAnswered(ev: seq<Event>) {
    forall k | 0 <= k < |ev| :: !StoreFault(ev[k])
  }

  lemma AnsweredBefore(ev: seq<Event>, ev2: seq<Event>)
    requires ev <= ev2 && StoresAnswered(ev2)
    ensures StoresAnswered(ev)
  {
    forall k | 0 <= k < |ev| ensures !StoreFault(ev[k]) {
      assert ev[k] == ev2[k];
    }
  }

  /** A paused session can be resumed. */
  ghost predicate NotStranded(w: World, id: nat) {
    id in w.sessions && w.sessions[id].state == HumanReq ==> HasToken(w, id)
  }

  // Pausing

  lemma IdledLog(base: seq<Event>, w: World, e: Event)
    requires Idled(base, w.events) && Idle(e)
    ensures Idled(base, w.Log(e).events)
  {
  }

  lemma CaptureIdles(base: seq<Event>, w: World, o: Oracle, id: nat)
    requires Idled(base, w.events)
    ensures var w2 := Capture(w, o, id).0;
      Idled(base, w2.events) && w2 == w.(events := w2.events)
  {
    var shot := w.Answer(o);
    var w1 := w.Log(TookScreenshot(id, !shot.fails));
    IdledLog(base, w, TookScreenshot(id, !shot.fails));
    IdledLog(base, w1, SavedScreenshot(id, !w1.Answer(o).fails));
  }

  lemma PutSessionIdles(base: seq<Event>, w: World, o: Oracle, s: Session)
    requires Idled(base, w.events)
    ensures Idled(base, PutSession(w, o, s).events)
  {
    IdledLog(base, w, SavedSession(s, false));
    IdledLog(base, w, SavedSession(s, true));
  }

  lemma IssueTokenIdles(base: seq<Event>, w: World, o: Oracle, cfg: Config, s: Session)
    requires Idled(base, w.events)
    ensures Idled(base, IssueToken(w, o, cfg, s).0.events)
  {
    var w1 := Tick(w, o);
    IdledLog(base, w, ClockRead(w1.clock));
    var w2 := DrawToken(w1, o, s.id);
    IdledLog(base, w1, DrewToken(s.id, !w1.Answer(o).fails));
    var token := w1.nextToken;
    var w3 := PutToken(w2, o, token, s.id, w1.clock + cfg.recoveryTTL);
    IdledLog(base, w2, SavedToken(token, s.id, !w2.Answer(o).fails));
    IdledLog(base, w3, Notified(s.id, !w3.Answer(o).fails));
  }

  /** Idle events over a store that forgot no id and no revocation keep the history sound. */
  lemma IdleHistory(w: World, w2: World)
    requires HistorySound(w) && Idled(w.events, w2.events)
    requires w.nextId <= w2.nextId
    requires forall t | t in w.tokens :: t in w2.tokens && w2.tokens[t] == w.tokens[t]
    ensures HistorySound(w2) && HistoryCarried(w, w2)
  {
    IdleKeeps(w.events, w2.events);
    assert forall x :: Lasting(Resubmit(x));
    forall r: Rule | Lasting(r) && Open(r, w2.events) ensures Accounted(w2, r) {
      assert Open(r, w.events);
      assert Accounted(w, r);
    }
  }

  lemma SelfIdled(ev: seq<Event>)
    ensures Idled(ev, ev)
  {
    assert ev == ev[..|ev|];
  }

  /** Storing a version of a known session that leaves HUMAN_REQUIRED only if it has no live token. */
  lemma PutSessionStores(w: World, o: Oracle, s: Session)
    requires StoreSound(w) && Known(w, s) && (s.state == HumanReq || Free(w, s.id))
    ensures var w2 := PutSession(w, o, s); StoreSound(w2) && StoreCarried(w, w2, s.id)
  {
  }

  lemma PutSessionEffect(w: World, o: Oracle, s: Session)
    requires Sound(w) && Known(w, s) && (s.state == HumanReq || Free(w, s.id))
    ensures var w2 := PutSession(w, o, s); Sound(w2) && Carried(w, w2, s.id)
  {
    SelfIdled(w.events);
    PutSessionIdles(w.events, w, o, s);
    IdleHistory(w, PutSession(w, o, s));
    PutSessionStores(w, o, s);
  }

  lemma NewTokenStores(w: World, w2: World, id: nat, expiresAt: int)
    requires StoreSound(w) && id in w.sessions && w.sessions[id].state == HumanReq && Free(w, id)
    requires w2.sessions == w.sessions && w.clock <= w2.clock && w2.nextId == w.nextId
    requires
      || (w2.tokens == w.tokens && w.nextToken <= w2.nextToken)
      || (w2.tokens == w.tokens[w.nextToken := TokenEntry(id, expiresAt, false)] && w2.nextToken == w.nextToken + 1)
    ensures StoreSound(w2) && StoreCarried(w, w2, id)
  {
  }

  lemma IssueTokenStores(w: World, o: Oracle, cfg: Config, s: Session)
    requires StoreSound(w) && s.id in w.sessions && w.sessions[s.id].state == HumanReq && Free(w, s.id)
    ensures var (w2, ret) := IssueToken(w, o, cfg, s);
      && StoreSound(w2) && StoreCarried(w, w2, s.id) && w2.sessions == w.sessions
  {
    var w2 := IssueToken(w, o, cfg, s).0;
    NewTokenStores(w, w2, s.id, Tick(w, o).clock + cfg.recoveryTTL);
  }

  lemma IssueTokenOutcome(w: World, o: Oracle, cfg: Config, s: Session)
    ensures var (w2, ret) := IssueToken(w, o, cfg, s);
      && (StoresAnswered(w2.events) || ret.outcome == HumanRequired ==> HasToken(w2, s.id))
      && (ret.outcome == HumanRequired ==> ret.session == s)
      && ret.outcome != ReadyForReview
  {
    var (w2, ret) := IssueToken(w, o, cfg, s);
    var drew := Tick(w, o);
    if drew.Answer(o).fails || DrawToken(drew, o, s.id).Answer(o).fails {
      assert StoreFault(w2.events[|w2.events| - 1]);
    } else {
      assert w2.Live(w.nextToken) && w2.tokens[w.nextToken].sessionId == s.id;
    }
  }

  lemma IssueTokenEffect(w: World, o: Oracle, cfg: Config, s: Session)
    requires Sound(w) && s.id in w.sessions && w.sessions[s.id].state == HumanReq && Free(w, s.id)
    ensures var (w2, ret) := IssueToken(w, o, cfg, s);
      && Sound(w2) && Carried(w, w2, s.id) && w2.sessions == w.sessions
  {
    SelfIdled(w.events);
    IssueTokenIdles(w.events, w, o, cfg, s);
    IssueTokenStores(w, o, cfg, s);
    IdleHistory(w, IssueToken(w, o, cfg, s).0);
  }

  lemma CarriedTrans(w: World, w1: World, w2: World, id: nat)
    requires Carried(w, w1, id) && Carried(w1, w2, id)
    ensures Carried(w, w2, id)
  {
  }

  /** Steps before the session is stored: only events and the clock move. */
  lemma LookingEffect(w: World, w1: World, id: nat)
    requires Sound(w) && w1 == w.(events := w1.events, clock := w1.clock, nextId := w1.nextId)
    requires w.clock <= w1.clock && w.nextId <= w1.nextId && Idled(w.events, w1.events)
    ensures Sound(w1) && Carried(w, w1, id)
  {
    IdleHistory(w, w1);
  }

  lemma PauseEffect(w: World, o: Oracle, cfg: Config, s: Session, reason: Reason)
    requires Sound(w) && Known(w, s) && Free(w, s.id)
    ensures var (w2, ret) := PauseForHuman(w, o, cfg, s, reason);
      && Sound(w2) && Carried(w, w2, s.id)
  {
    var (w1, ref) := Capture(w, o, s.id);
    var w2 := w1.Log(ReadUrl(s.id));
    SelfIdled(w.events);
    CaptureIdles(w.events, w, o, s.id);
    IdledLog(w.events, w1, ReadUrl(s.id));
    LookingEffect(w, w2, s.id);
    var paused := PausedSession(s, w1.Answer(o).text, ref, reason);
    PutSessionEffect(w2, o, paused);
    var w3 := PutSession(w2, o, paused);
    CarriedTrans(w, w2, w3, s.id);
    if !w2.Answer(o).fails {
      IssueTokenEffect(w3, o, cfg, paused);
      CarriedTrans(w, w3, IssueToken(w3, o, cfg, paused).0, s.id);
    }
  }

  lemma PauseOutcome(w: World, o: Oracle, cfg: Config, s: Session, reason: Reason)
    ensures var (w2, ret) := PauseForHuman(w, o, cfg, s, reason);
      && (StoresAnswered(w2.events) || ret.outcome == HumanRequired ==> HasToken(w2, s.id))
      && (ret.outcome == HumanRequired ==> s.id in w2.sessions && ret.session == w2.sessions[s.id])
      && ret.outcome != ReadyForReview
  {
    var (w1, ref) := Capture(w, o, s.id);
    var w2 := w1.Log(ReadUrl(s.id));
    var paused := PausedSession(s, w1.Answer(o).text, ref, reason);
    var w3 := PutSession(w2, o, paused);
    if w2.Answer(o).fails {
      assert StoreFault(w3.events[|w3.events| - 1]);
    } else {
      IssueTokenOutcome(w3, o, cfg, paused);
    }
  }

  // The rest of a call, once its session is stored

  /** What the part of a call that works on stored session `id` leaves behind. */
  ghost predicate Settled(w: World, w2: World, ret: Return, id: nat) {
    && Sound(w2) && Carried(w, w2, id)
    && (StoresAnswered(w2.events) ==> NotStranded(w2, id))
    && (ret.outcome == HumanRequired ==> HasToken(w2, id) && id in w2.sessions && ret.session == w2.sessions[id])
    && (ret.outcome == ReadyForReview ==> Submittable(w2, ret.session) && ret.session.id == id && Free(w2, id))
  }

  /** s is exactly what is stored, in a state a ready_for_review result can have. */
  predicate Submittable(w: World, s: Session) {
    s.id in w.sessions && w.sessions[s.id] == s && (s.state == Running || s.state == Resumed)
  }

  lemma SettledAfter(w: World, w1: World, w2: World, ret: Return, id: nat)
    requires Carried(w, w1, id) && Settled(w1, w2, ret, id)
    ensures Settled(w, w2, ret, id)
  {
    CarriedTrans(w, w1, w2, id);
  }

  lemma PauseSettles(w: World, o: Oracle, cfg: Config, s: Session, reason: Reason)
    requires Sound(w) && Known(w, s) && Free(w, s.id)
    ensures var (w2, ret) := PauseForHuman(w, o, cfg, s, reason); Settled(w, w2, ret, s.id)
  {
    PauseEffect(w, o, cfg, s, reason);
    PauseOutcome(w, o, cfg, s, reason);
  }

  lemma FinishSettles(w: World, o: Oracle, s: Session, outcome: Outcome)
    requires Sound(w) && Known(w, s) && Free(w, s.id) && s.state != HumanReq
    requires outcome != HumanRequired && outcome != ReadyForReview
    ensures var (w2, ret) := Finish(w, o, s, outcome); Settled(w, w2, ret, s.id)
  {
    PutSessionEffect(w, o, s);
    var w2 := PutSession(w, o, s);
    if w.Answer(o).fails {
      assert StoreFault(w2.events[|w2.events| - 1]);
    }
  }

  lemma TroubleSettles(w: World, o: Oracle, cfg: Config, s: Session, page: PageState)
    requires Sound(w) && Known(w, s) && Free(w, s.id) && page != Normal
    ensures var (w2, ret) := HandleTrouble(w, o, cfg, s, page); Settled(w, w2, ret, s.id)
  {
    match page
    case Captcha => PauseSettles(w, o, cfg, s, CaptchaDetected);
    case LoginWall => PauseSettles(w, o, cfg, s, UnrecognizedPage(page));
    case Unknown => PauseSettles(w, o, cfg, s, UnrecognizedPage(page));
    case NavigateErr => FinishSettles(w, o, s.(state := Failed, failureReason := NavigationError), FailedOutcome);
    case _ => PauseSettles(w, o, cfg, s, UnhandledPage(page));
  }

  lemma WriteCheckpointEffect(w: World, o: Oracle, s: Session)
    requires Sound(w)
    ensures var (w2, ready) := WriteCheckpoint(w, o, s);
      && Sound(w2) && Carried(w, w2, s.id) && w2.sessions == w.sessions && w2.tokens == w.tokens
      && (ready.None? ==> !StoresAnswered(w2.events))
  {
    var (w1, ref) := Capture(w, o, s.id);
    var w2 := Tick(w1, o);
    SelfIdled(w.events);
    CaptureIdles(w.events, w, o, s.id);
    IdledLog(w.events, w1, ClockRead(w2.clock));
    var c := Checkpoint(w2.nextId, s.id, "form_section", s.currentUrl, ref, w2.clock);
    var w3 := w2.(nextId := w2.nextId + 1);
    var w4 := PutCheckpoint(w3, o, c);
    IdledLog(w.events, w3, SavedCheckpoint(c, !w3.Answer(o).fails));
    CheckpointEffect(w, w4, s.id);
    assert StoreFault(SavedCheckpoint(c, false));
    assert w3.Answer(o).fails ==> w4.events[|w4.events| - 1] == SavedCheckpoint(c, false);
  }

  lemma SaveProgressSettles(w: World, o: Oracle, s: Session)
    requires Sound(w) && Known(w, s) && Free(w, s.id) && (s.state == Running || s.state == Resumed)
    ensures var (w2, ret) := SaveProgress(w, o, s); Settled(w, w2, ret, s.id)
  {
    WriteCheckpointEffect(w, o, s);
    var (w1, ready) := WriteCheckpoint(w, o, s);
    if ready.Some? {
      StoreReady(w1, o, ready.value);
      var (w2, ret) := SaveProgress(w, o, s);
      SettledAfter(w, w1, w2, ret, s.id);
    }
  }

  lemma StoreReady(w: World, o: Oracle, s: Session)
    requires Sound(w) && Known(w, s) && Free(w, s.id) && (s.state == Running || s.state == Resumed)
    ensures var ret := if w.Answer(o).fails then Refuse(SaveError) else Return(s, ReadyForReview, None);
      Settled(w, PutSession(w, o, s), ret, s.id)
  {
    PutSessionEffect(w, o, s);
    var w2 := PutSession(w, o, s);
    assert w.Answer(o).fails ==> StoreFault(w2.events[|w2.events| - 1]);
  }

  lemma CheckpointEffect(w: World, w1: World, id: nat)
    requires Sound(w)
    requires w1 == w.(events := w1.events, clock := w1.clock, nextId := w1.nextId, checkpoints := w1.checkpoints)
    requires w.clock <= w1.clock && w.nextId <= w1.nextId && Idled(w.events, w1.events)
    ensures Sound(w1) && Carried(w, w1, id)
  {
    IdleHistory(w, w1);
  }

  /** A driver call no lasting rule reacts to, made while the call is still free to touch the page. */
  lemma TouchEffect(w: World, e: Event, id: nat)
    requires Sound(w) && (e.Launched? || e.Filled? || e.Detected?)
    requires !Open(AfterTrouble, w.events)
    requires e.Filled? ==> !Open(UnconfirmedFill(e.id), w.events)
    ensures Sound(w.Log(e)) && Carried(w, w.Log(e), id)
  {
    ObeyedAppend(w.events, e);
    forall r: Rule | Lasting(r) ensures Open(r, w.Log(e).events) == Open(r, w.events) {
      OpenAppend(r, w.events, e);
    }
    assert forall x :: Lasting(Resubmit(x));
    forall r: Rule | Lasting(r) && Open(r, w.Log(e).events) ensures Accounted(w.Log(e), r) {
      assert Accounted(w, r);
    }
  }

  lemma FillSettles(w: World, o: Oracle, cfg: Config, s: Session, fields: seq<FieldValue>)
    requires Sound(w) && Known(w, s) && Free(w, s.id) && (s.state == Running || s.state == Resumed)
    requires !Open(AfterTrouble, w.events) && !Open(UnconfirmedFill(s.id), w.events)
    ensures var (w2, ret) := FillAndCheckpoint(w, o, cfg, s, fields); Settled(w, w2, ret, s.id)
  {
    var filled := w.Answer(o);
    var e1 := Filled(s.id, fields, !filled.fails);
    var w1 := w.Log(e1);
    TouchEffect(w, e1, s.id);
    if filled.fails {
      FinishSettles(w1, o, s.(state := Failed, failureReason := FillFailed(filled.text)), FailedOutcome);
    } else {
      OpenAppend(AfterTrouble, w.events, e1);
      var seen := w1.Answer(o);
      var e2 := Detected(s.id, Seen(seen));
      TouchEffect(w1, e2, s.id);
      CarriedTrans(w, w1, w1.Log(e2), s.id);
      DetectSettles(w1.Log(e2), o, cfg, s, seen);
    }
    var (w2, ret) := FillAndCheckpoint(w, o, cfg, s, fields);
    SettledAfter(w, if filled.fails then w1 else w1.Log(Detected(s.id, Seen(w1.Answer(o)))), w2, ret, s.id);
  }

  lemma DetectSettles(w: World, o: Oracle, cfg: Config, s: Session, seen: Reply)
    requires Sound(w) && Known(w, s) && Free(w, s.id) && (s.state == Running || s.state == Resumed)
    ensures var (w2, ret) :=
              if seen.fails then Fail(w, o, s, DetectionFailed(seen.text))
              else if seen.page != Normal then HandleTrouble(w, o, cfg, s, seen.page)
              else SaveProgress(w, o, s);
            Settled(w, w2, ret, s.id)
  {
    if seen.fails {
      FinishSettles(w, o, s.(state := Failed, failureReason := DetectionFailed(seen.text)), FailedOutcome);
    } else if seen.page != Normal {
      TroubleSettles(w, o, cfg, s, seen.page);
    } else {
      SaveProgressSettles(w, o, s);
    }
  }
}
