/** Safety of the browser runner over every run: any calls, any answers from the driver, stores,
    notifier and random source, any nondecreasing clock, under the caller discipline below. */
module BrowserTheorems {
  import opened Days
  import opened BrowserSession
  import opened BrowserProtocol
  import opened BrowserRules
  import opened BrowserSafety
  import opened BrowserRuns
  import opened Wrappers

  /** A world and the ready_for_review results whose click has not happened yet. */
  datatype RunState = RunState(world: World, ready: set<Session>)

  /** The caller discipline: Submit is handed the session of a ready_for_review result, that
      session is still what is stored, and the result has not led to a click before. */
  predicate Disciplined(rs: RunState, call: Call) {
    call.Submit? ==>
      && call.session in rs.ready
      && call.session.id in rs.world.sessions
      && rs.world.sessions[call.session.id] == call.session
  }

  function Step(rs: RunState, o: Oracle, cfg: Config, call: Call): RunState {
    var (w, ret) := Do(rs.world, o, cfg, call);
    Next(rs, call, w, ret)
  }

  /** A click spends the result it was made for; a ready_for_review result is gained. */
  function Next(rs: RunState, call: Call, w: World, ret: Return): RunState {
    var spent := if call.Submit? && ClickedSince(w.events, |rs.world.events|) then {call.session} else {};
    RunState(w, rs.ready - spent + Gained(ret))
  }

  function Gained(ret: Return): set<Session> {
    if ret.outcome == ReadyForReview then {ret.session} else {}
  }

  function Run(rs: RunState, o: Oracle, cfg: Config, calls: seq<Call>): RunState
    decreases |calls|
  {
    if calls == [] then rs else Run(Step(rs, o, cfg, calls[0]), o, cfg, calls[1..])
  }

  predicate DisciplinedRun(rs: RunState, o: Oracle, cfg: Config, calls: seq<Call>)
    decreases |calls|
  {
    calls == [] || (Disciplined(rs, calls[0]) && DisciplinedRun(Step(rs, o, cfg, calls[0]), o, cfg, calls[1..]))
  }

  function Initially(clock: int): RunState {
    RunState(EmptyWorld(clock), {})
  }

  // The invariant of every run

  ghost predicate ReadySound(w: World, ready: set<Session>) {
    && (forall s | s in ready ::
          && s.id in w.sessions && (s.state == Running || s.state == Resumed)
          && !Open(Resubmit(s.id), w.events) && Free(w, s.id))
    && (forall s, t | s in ready && t in ready :: s.id == t.id ==> s == t)
  }

  ghost predicate RunInv(rs: RunState, cfg: Config) {
    && Sound(rs.world) && 0 < rs.world.nextId
    && Capped(rs.world.StartTimes(), cfg.sessionsPerDay)
    && ReadySound(rs.world, rs.ready)
    && (StoresAnswered(rs.world.events) ==> forall id | id in rs.world.sessions :: NotStranded(rs.world, id))
    && (rs.world.events != [] ==> rs.world.events[0].Begin?)
  }

  predicate Terminal(s: SessionState) {
    s == Completed || s == Failed || s == Expired
  }

  predicate TerminalFrozen(w: World, w2: World) {
    forall x | x in w.sessions && Terminal(w.sessions[x].state) :: x in w2.sessions && w2.sessions[x] == w.sessions[x]
  }

  lemma InitialInv(clock: int, cfg: Config)
    ensures RunInv(Initially(clock), cfg)
  {
    var w := EmptyWorld(clock);
    forall day ensures CountOnDay(w.StartTimes(), day) == 0 {
      assert (set k | k in w.StartTimes() && DayOf(w.StartTimes()[k]) == day) == {};
    }
  }

  lemma BeginEffect(w: World, call: Call)
    requires Sound(w)
    ensures var w1 := w.Log(Begin(call));
      && Sound(w1) && (forall id :: Carried(w, w1, id)) && !Open(AfterTrouble, w1.events)
      && (call.Start? ==> !Open(NavigationOutsideStart, w1.events))
      && (call.Submit? && call.gatePassed ==> !Open(UngatedClick(call.session.id), w1.events))
  {
    var w1 := w.Log(Begin(call));
    SelfIdled(w.events);
    IdledLog(w.events, w, Begin(call));
    LookingEffect(w, w1, 0);
    OpenAppend(AfterTrouble, w.events, Begin(call));
    OpenAppend(NavigationOutsideStart, w.events, Begin(call));
    if call.Submit? {
      OpenAppend(UngatedClick(call.session.id), w.events, Begin(call));
    }
  }

  lemma StrandedAfter(w: World, w2: World, ret: Return, id: nat)
    requires Effect(w, w2, ret, id) && StoresAnswered(w2.events)
    requires forall x | x in w.sessions :: NotStranded(w, x)
    ensures forall x | x in w2.sessions :: NotStranded(w2, x)
  {
    forall x | x in w2.sessions && x != id ensures NotStranded(w2, x) {
      assert NotStranded(w, x);
      if HasToken(w, x) {
        var t :| t in w.tokens && w.Live(t) && w.tokens[t].sessionId == x;
        assert w2.Live(t) && w2.tokens[t].sessionId == x;
      }
    }
  }

  lemma ReadyElsewhere(w: World, w2: World, ret: Return, id: nat, s: Session)
    requires Effect(w, w2, ret, id) && s.id != id
    requires s.id in w.sessions && !Open(Resubmit(s.id), w.events) && Free(w, s.id)
    ensures s.id in w2.sessions && !Open(Resubmit(s.id), w2.events) && Free(w2, s.id)
  {
  }

  lemma InvAfter(rs: RunState, w2: World, ret: Return, id: nat, ready: set<Session>, cfg: Config)
    requires RunInv(rs, cfg) && Effect(rs.world, w2, ret, id) && Capped(w2.StartTimes(), cfg.sessionsPerDay)
    requires w2.events != [] && w2.events[0].Begin?
    requires ReadySound(w2, ready)
    ensures RunInv(RunState(w2, ready), cfg)
  {
    if StoresAnswered(w2.events) {
      AnsweredBefore(rs.world.events, w2.events);
      StrandedAfter(rs.world, w2, ret, id);
    }
  }

  lemma SameTimes(w: World, w2: World, ret: Return, id: nat)
    requires Effect(w, w2, ret, id) && (id in w.sessions || w2.sessions == w.sessions)
    ensures w2.StartTimes() == w.StartTimes()
  {
    assert w2.sessions.Keys == w.sessions.Keys;
  }

  /** Results of other sessions stay ready; a result gained for `id` is the only one for it. */
  lemma ReadyAfter(w: World, ready: set<Session>, w2: World, ret: Return, id: nat, kept: set<Session>)
    requires ReadySound(w, ready) && Effect(w, w2, ret, id)
    requires kept <= ready
    requires forall s | s in kept && s.id == id :: !Open(Resubmit(id), w2.events) && Free(w2, id)
    requires ret.outcome == ReadyForReview ==>
      !Open(Resubmit(id), w2.events) && forall s | s in kept :: s.id != id
    ensures ReadySound(w2, kept + Gained(ret))
  {
    forall s | s in kept
      ensures s.id in w2.sessions && !Open(Resubmit(s.id), w2.events) && Free(w2, s.id)
    {
      if s.id != id {
        ReadyElsewhere(w, w2, ret, id, s);
      }
    }
  }

  lemma DoBegins(w: World, w1: World, w2: World, call: Call)
    requires w1 == w.Log(Begin(call)) && w1.events <= w2.events && (w.events != [] ==> w.events[0].Begin?)
    ensures w2.events != [] && w2.events[0].Begin?
  {
    assert w2.events[0] == w1.events[0];
  }

  lemma FrozenBy(w: World, w2: World, ret: Return, id: nat)
    requires Effect(w, w2, ret, id)
    requires w2.sessions == w.sessions || id !in w.sessions || !Terminal(w.sessions[id].state)
    ensures TerminalFrozen(w, w2)
  {
  }

  lemma StartDo(w: World, o: Oracle, cfg: Config, call: Call)
    requires Sound(w) && 0 < w.nextId && Capped(w.StartTimes(), cfg.sessionsPerDay) && call.Start?
    requires w.events != [] ==> w.events[0].Begin?
    ensures var (w2, ret) := Do(w, o, cfg, call);
      && Effect(w, w2, ret, w.nextId) && Capped(w2.StartTimes(), cfg.sessionsPerDay)
      && w2.events != [] && w2.events[0].Begin?
  {
    var w1 := w.Log(Begin(call));
    BeginEffect(w, call);
    assert w1.StartTimes() == w.StartTimes();
    StartEffect(w1, o, cfg, call.input);
    var (w2, ret) := Do(w, o, cfg, call);
    assert Carried(w, w1, w.nextId);
    EffectAfter(w, w1, w2, ret, w.nextId);
    DoBegins(w, w1, w2, call);
  }

  lemma StartReady(w: World, ready: set<Session>, w2: World, ret: Return)
    requires Sound(w) && ReadySound(w, ready) && Effect(w, w2, ret, w.nextId)
    ensures ReadySound(w2, ready + Gained(ret))
  {
    assert Lasting(Resubmit(w.nextId)) && !Accounted(w, Resubmit(w.nextId));
    ReadyAfter(w, ready, w2, ret, w.nextId, ready);
  }

  lemma StartInv(rs: RunState, call: Call, w2: World, ret: Return, cfg: Config)
    requires call.Start? && RunInv(rs, cfg) && Effect(rs.world, w2, ret, rs.world.nextId)
    requires Capped(w2.StartTimes(), cfg.sessionsPerDay) && w2.events != [] && w2.events[0].Begin?
    ensures RunInv(Next(rs, call, w2, ret), cfg)
  {
    var w := rs.world;
    StartReady(w, rs.ready, w2, ret);
    InvAfter(rs, w2, ret, w.nextId, rs.ready + Gained(ret), cfg);
    assert rs.ready - {} == rs.ready;
  }

  lemma StartStep(rs: RunState, o: Oracle, cfg: Config, call: Call)
    requires RunInv(rs, cfg) && call.Start?
    ensures RunInv(Step(rs, o, cfg, call), cfg) && TerminalFrozen(rs.world, Step(rs, o, cfg, call).world)
  {
    var (w2, ret) := Do(rs.world, o, cfg, call);
    StartDo(rs.world, o, cfg, call);
    StartInv(rs, call, w2, ret, cfg);
    FrozenBy(rs.world, w2, ret, rs.world.nextId);
  }

  lemma ResumeDo(w: World, o: Oracle, cfg: Config, call: Call)
    requires Sound(w) && call.Resume?
    requires w.events != [] ==> w.events[0].Begin?
    requires StoresAnswered(w.events) ==> forall id | id in w.sessions :: NotStranded(w, id)
    ensures var (w2, ret) := Do(w, o, cfg, call);
            var id := TokenSession(w, call.token);
            && Effect(w, w2, ret, id) && w2.events != [] && w2.events[0].Begin?
            && (w.Live(call.token) || (ret.outcome == NoOutcome && w2.sessions == w.sessions && w2.tokens == w.tokens))
            && (ret.outcome == ReadyForReview ==> !Open(Resubmit(id), w2.events))
            && (Open(Resubmit(id), w2.events) ==> Open(Resubmit(id), w.events))
  {
    var id := TokenSession(w, call.token);
    var w1 := w.Log(Begin(call));
    BeginEffect(w, call);
    BeginAnswered(w, call);
    ResumeEffect(w1, o, cfg, call.token, call.fields);
    var (w2, ret) := Do(w, o, cfg, call);
    assert Carried(w, w1, id);
    EffectAfter(w, w1, w2, ret, id);
    DoBegins(w, w1, w2, call);
  }

  /** No resubmission of the session becomes pending, and none is pending of a ready result. */
  ghost predicate NoNewResubmit(w: World, w2: World, ret: Return, id: nat) {
    Open(Resubmit(id), w2.events) ==> ret.outcome != ReadyForReview && Open(Resubmit(id), w.events)
  }

  /** Nothing comes of a token that is not live. */
  predicate OnlyLive(w: World, w2: World, ret: Return, token: nat) {
    w.Live(token) || (ret.outcome == NoOutcome && w2.sessions == w.sessions && w2.tokens == w.tokens)
  }

  lemma ResumeTimes(w: World, w2: World, ret: Return, token: nat)
    requires Sound(w) && Effect(w, w2, ret, TokenSession(w, token)) && OnlyLive(w, w2, ret, token)
    ensures w2.StartTimes() == w.StartTimes()
  {
    SameTimes(w, w2, ret, TokenSession(w, token));
  }

  lemma ResumeInv(rs: RunState, call: Call, w2: World, ret: Return, cfg: Config)
    requires call.Resume? && RunInv(rs, cfg) && Effect(rs.world, w2, ret, TokenSession(rs.world, call.token))
    requires w2.events != [] && w2.events[0].Begin?
    requires OnlyLive(rs.world, w2, ret, call.token)
    requires NoNewResubmit(rs.world, w2, ret, TokenSession(rs.world, call.token))
    ensures RunInv(Next(rs, call, w2, ret), cfg)
  {
    ResumeTimes(rs.world, w2, ret, call.token);
    ResumeReady(rs.world, rs.ready, w2, ret, call.token);
    InvAfter(rs, w2, ret, TokenSession(rs.world, call.token), rs.ready + Gained(ret), cfg);
    ResumeNext(rs, call, w2, ret);
  }

  lemma ResumeNext(rs: RunState, call: Call, w2: World, ret: Return)
    requires call.Resume?
    ensures Next(rs, call, w2, ret) == RunState(w2, rs.ready + Gained(ret))
  {
    assert rs.ready - {} == rs.ready;
  }

  lemma ResumeFrozen(w: World, w2: World, ret: Return, token: nat)
    requires Sound(w) && Effect(w, w2, ret, TokenSession(w, token))
    requires w.Live(token) || w2.sessions == w.sessions
    ensures TerminalFrozen(w, w2)
  {
    FrozenBy(w, w2, ret, TokenSession(w, token));
  }

  lemma ResumeStep(rs: RunState, o: Oracle, cfg: Config, call: Call)
    requires RunInv(rs, cfg) && call.Resume?
    ensures RunInv(Step(rs, o, cfg, call), cfg) && TerminalFrozen(rs.world, Step(rs, o, cfg, call).world)
  {
    var (w2, ret) := Do(rs.world, o, cfg, call);
    ResumeDo(rs.world, o, cfg, call);
    ResumeInv(rs, call, w2, ret, cfg);
    ResumeFrozen(rs.world, w2, ret, call.token);
  }

  lemma BeginAnswered(w: World, call: Call)
    requires StoresAnswered(w.events) ==> forall id | id in w.sessions :: NotStranded(w, id)
    ensures var w1 := w.Log(Begin(call));
      forall id | id in w1.sessions && StoresAnswered(w1.events) :: NotStranded(w1, id)
  {
    var w1 := w.Log(Begin(call));
    if StoresAnswered(w1.events) {
      AnsweredBefore(w.events, w1.events);
      forall id | id in w1.sessions ensures NotStranded(w1, id) {
        assert NotStranded(w, id);
        if HasToken(w, id) {
          var t :| t in w.tokens && w.Live(t) && w.tokens[t].sessionId == id;
          assert w1.Live(t);
        }
      }
    }
  }

  lemma ResumeReady(w: World, ready: set<Session>, w2: World, ret: Return, token: nat)
    requires Sound(w) && ReadySound(w, ready) && Effect(w, w2, ret, TokenSession(w, token))
    requires OnlyLive(w, w2, ret, token) && NoNewResubmit(w, w2, ret, TokenSession(w, token))
    ensures ReadySound(w2, ready + Gained(ret))
  {
    var id := TokenSession(w, token);
    if w.Live(token) {
      assert forall s | s in ready :: s.id != id;
    }
    ReadyAfter(w, ready, w2, ret, id, ready);
  }

  lemma SubmitDo(w: World, o: Oracle, cfg: Config, call: Call)
    requires Sound(w) && call.Submit? && Submittable(w, call.session) && !Open(Resubmit(call.session.id), w.events)
    requires w.events != [] ==> w.events[0].Begin?
    ensures var (w2, ret) := Do(w, o, cfg, call);
      && Effect(w, w2, ret, call.session.id) && w2.events != [] && w2.events[0].Begin?
      && ret.outcome != ReadyForReview && StillUnclicked(w, w2, call.session.id)
  {
    var s := call.session;
    var w1 := w.Log(Begin(call));
    BeginEffect(w, call);
    assert Carried(w, w1, s.id);
    SubmitEffect(w1, o, cfg, s, call.gatePassed);
    var (w2, ret) := Do(w, o, cfg, call);
    EffectAfter(w, w1, w2, ret, s.id);
    DoBegins(w, w1, w2, call);
  }

  lemma SubmitInv(rs: RunState, call: Call, w2: World, ret: Return, cfg: Config)
    requires call.Submit? && RunInv(rs, cfg) && Disciplined(rs, call) && Effect(rs.world, w2, ret, call.session.id)
    requires w2.events != [] && w2.events[0].Begin?
    requires ret.outcome != ReadyForReview && StillUnclicked(rs.world, w2, call.session.id)
    ensures RunInv(Next(rs, call, w2, ret), cfg)
  {
    var s := call.session;
    SameTimes(rs.world, w2, ret, s.id);
    var kept := rs.ready - if ClickedSince(w2.events, |rs.world.events|) then {s} else {};
    ReadyAfter(rs.world, rs.ready, w2, ret, s.id, kept);
    InvAfter(rs, w2, ret, s.id, kept + Gained(ret), cfg);
  }

  lemma SubmitStep(rs: RunState, o: Oracle, cfg: Config, call: Call)
    requires RunInv(rs, cfg) && call.Submit? && Disciplined(rs, call)
    ensures RunInv(Step(rs, o, cfg, call), cfg) && TerminalFrozen(rs.world, Step(rs, o, cfg, call).world)
  {
    var (w2, ret) := Do(rs.world, o, cfg, call);
    SubmitDo(rs.world, o, cfg, call);
    SubmitInv(rs, call, w2, ret, cfg);
    FrozenBy(rs.world, w2, ret, call.session.id);
  }

  lemma StepKeeps(rs: RunState, o: Oracle, cfg: Config, call: Call)
    requires RunInv(rs, cfg) && Disciplined(rs, call)
    ensures RunInv(Step(rs, o, cfg, call), cfg) && TerminalFrozen(rs.world, Step(rs, o, cfg, call).world)
  {
    match call
    case Start(_) => StartStep(rs, o, cfg, call);
    case Resume(_, _) => ResumeStep(rs, o, cfg, call);
    case Submit(_, _, _) => SubmitStep(rs, o, cfg, call);
  }

  lemma {:induction false} RunKeeps(rs: RunState, o: Oracle, cfg: Config, calls: seq<Call>)
    requires RunInv(rs, cfg) && DisciplinedRun(rs, o, cfg, calls)
    ensures RunInv(Run(rs, o, cfg, calls), cfg) && TerminalFrozen(rs.world, Run(rs, o, cfg, calls).world)
    decreases |calls|
  {
    if calls != [] {
      StepKeeps(rs, o, cfg, calls[0]);
      RunKeeps(Step(rs, o, cfg, calls[0]), o, cfg, calls[1..]);
    }
  }

  // The theorems

  /** The state after a disciplined run from an empty store satisfies the invariant. */
  ghost predicate Reached(rs: RunState, o: Oracle, cfg: Config, calls: seq<Call>, clock: int) {
    DisciplinedRun(Initially(clock), o, cfg, calls) && rs == Run(Initially(clock), o, cfg, calls)
  }

  lemma ReachedInv(rs: RunState, o: Oracle, cfg: Config, calls: seq<Call>, clock: int)
    requires Reached(rs, o, cfg, calls, clock)
    ensures RunInv(rs, cfg)
  {
    InitialInv(clock, cfg);
    RunKeeps(Initially(clock), o, cfg, calls);
  }

  lemma ReachedKept(rs: RunState, o: Oracle, cfg: Config, calls: seq<Call>, clock: int, r: Rule)
    requires Reached(rs, o, cfg, calls, clock)
    ensures Kept(r, rs.world.events)
  {
    ReachedInv(rs, o, cfg, calls, clock);
  }

  lemma NotGuardedYet(r: Rule, ev: seq<Event>, i: nat, j: nat)
    requires i < j < |ev| && Kept(r, ev) && Raises(r, ev[i])
    requires forall k | i < k < j :: !Clears(r, ev[k])
    ensures !Guards(r, ev[j])
  {
  }

  /** Two clicks on one session are separated by a redemption of a token issued for it. */
  lemma NeverBlindResubmit(rs: RunState, o: Oracle, cfg: Config, calls: seq<Call>, clock: int, i: nat, j: nat)
    requires Reached(rs, o, cfg, calls, clock)
    requires var ev := rs.world.events;
      i < j < |ev| && ev[i].Clicked? && ev[j].Clicked? && ev[i].session.id == ev[j].session.id
    ensures var ev := rs.world.events;
      exists k :: i < k < j && ev[k].RevokedToken? && ev[k].ok && ev[k].id == ev[i].session.id
  {
    var ev := rs.world.events;
    var rule := Resubmit(ev[i].session.id);
    ReachedKept(rs, o, cfg, calls, clock, rule);
    assert Raises(rule, ev[i]) && Guards(rule, ev[j]);
    assert ClearedBetween(rule, ev, i, j);
  }

  /** Whatever fails: at most one live token per session, and only for a session stored as
      HUMAN_REQUIRED. If no store, token or random-source call ever failed: exactly one for each. */
  lemma OneLiveTokenPerPause(rs: RunState, o: Oracle, cfg: Config, calls: seq<Call>, clock: int)
    requires Reached(rs, o, cfg, calls, clock)
    ensures forall t | t in rs.world.tokens && rs.world.Live(t) ::
              && rs.world.tokens[t].sessionId in rs.world.sessions
              && rs.world.sessions[rs.world.tokens[t].sessionId].state == HumanReq
    ensures forall t, u | rs.world.Live(t) && rs.world.Live(u) ::
              rs.world.tokens[t].sessionId == rs.world.tokens[u].sessionId ==> t == u
    ensures StoresAnswered(rs.world.events) ==>
              forall id | id in rs.world.sessions && rs.world.sessions[id].state == HumanReq :: HasToken(rs.world, id)
  {
    ReachedInv(rs, o, cfg, calls, clock);
    assert forall id |
      id in rs.world.sessions && rs.world.sessions[id].state == HumanReq && NotStranded(rs.world, id) ::
        HasToken(rs.world, id);
  }

  /** A token is redeemed at most once in any run. */
  lemma TokenRedeemedOnce(rs: RunState, o: Oracle, cfg: Config, calls: seq<Call>, clock: int, i: nat, j: nat)
    requires Reached(rs, o, cfg, calls, clock)
    requires var ev := rs.world.events;
      i < |ev| && j < |ev| && ev[i].RevokedToken? && ev[j].RevokedToken? && ev[i].ok && ev[j].ok
      && ev[i].token == ev[j].token
    ensures i == j
  {
    var ev := rs.world.events;
    var rule := TokenReuse(ev[i].token);
    ReachedKept(rs, o, cfg, calls, clock, rule);
    if i < j {
      NotGuardedYet(rule, ev, i, j);
    } else if j < i {
      NotGuardedYet(rule, ev, j, i);
    }
  }

  /** Between a raising event and a guarded one, the last event that raises or clears is a clearing one. */
  lemma {:induction false} LastClear(r: Rule, ev: seq<Event>, i: nat, j: nat) returns (k: nat)
    requires i < j < |ev| && Kept(r, ev) && Raises(r, ev[i]) && Guards(r, ev[j])
    ensures i < k < j && Clears(r, ev[k])
    ensures forall m | k < m < j :: !Raises(r, ev[m]) && !Clears(r, ev[m])
    decreases j - i
  {
    if m :| i < m < j && Raises(r, ev[m]) {
      k := LastClear(r, ev, m, j);
    } else {
      assert ClearedBetween(r, ev, i, j);
      k :| i < k < j && Clears(r, ev[k]);
      while exists m :: k < m < j && Clears(r, ev[m])
        invariant i < k < j && Clears(r, ev[k])
        decreases j - k
      {
        var m :| k < m < j && Clears(r, ev[m]);
        k := m;
      }
    }
  }

  /** Each fill comes after an observation of a normal page of its session, in the same call, with
      no other driver call in between. */
  lemma FillFollowsNormalPage(rs: RunState, o: Oracle, cfg: Config, calls: seq<Call>, clock: int, j: nat)
    requires Reached(rs, o, cfg, calls, clock)
    requires j < |rs.world.events| && rs.world.events[j].Filled?
    ensures var ev := rs.world.events;
      exists k :: 0 <= k < j && Normally(ev[k], ev[j].id) && forall m | k < m < j :: !DriverCall(ev[m]) && !ev[m].Begin?
  {
    var ev := rs.world.events;
    var rule := UnconfirmedFill(ev[j].id);
    ReachedKept(rs, o, cfg, calls, clock, rule);
    ReachedInv(rs, o, cfg, calls, clock);
    var k := LastClear(rule, ev, 0, j);
    forall m | k < m < j ensures !DriverCall(ev[m]) && !ev[m].Begin? {
      assert !Raises(rule, ev[m]) && !Clears(rule, ev[m]);
    }
  }

  /** After a driver error, an observation that is not of a normal page, or a click, the rest of
      that call only captures the screen and reads the URL. */
  lemma {:induction false} TroubleEndsTheCall(
      rs: RunState, o: Oracle, cfg: Config, calls: seq<Call>, clock: int, i: nat, j: nat)
    requires Reached(rs, o, cfg, calls, clock)
    requires i < j < |rs.world.events| && Trouble(rs.world.events[i])
    requires forall k | i < k < j :: !rs.world.events[k].Begin?
    ensures !Touches(rs.world.events[j])
  {
    var ev := rs.world.events;
    ReachedKept(rs, o, cfg, calls, clock, AfterTrouble);
    NotGuardedYet(AfterTrouble, ev, i, j);
  }

  /** A session is navigated at most once, and never by Resume or Submit. */
  lemma NavigatesOnceInStart(rs: RunState, o: Oracle, cfg: Config, calls: seq<Call>, clock: int, j: nat)
    requires Reached(rs, o, cfg, calls, clock)
    requires j < |rs.world.events| && rs.world.events[j].Navigated?
    ensures var ev := rs.world.events;
      forall i | 0 <= i < |ev| && ev[i].Navigated? && ev[i].id == ev[j].id :: i == j
    ensures var ev := rs.world.events;
      forall b | 0 <= b < j && ev[b].Begin? && (forall m | b < m < j :: !ev[m].Begin?) :: ev[b].call.Start?
  {
    var ev := rs.world.events;
    var rule := Renavigate(ev[j].id);
    ReachedKept(rs, o, cfg, calls, clock, rule);
    ReachedKept(rs, o, cfg, calls, clock, NavigationOutsideStart);
    forall i | 0 <= i < |ev| && ev[i].Navigated? && ev[i].id == ev[j].id ensures i == j {
      if i < j {
        NotGuardedYet(rule, ev, i, j);
      } else if j < i {
        NotGuardedYet(rule, ev, j, i);
      }
    }
    forall b | 0 <= b < j && ev[b].Begin? && (forall m | b < m < j :: !ev[m].Begin?) ensures ev[b].call.Start? {
      if !ev[b].call.Start? {
        NotGuardedYet(NavigationOutsideStart, ev, b, j);
      }
    }
  }

  /** Every click happens in a Submit of that session whose gate passed, after the clock was read
      in that call and the session found unexpired, and it is not found expired afterwards. */
  lemma ClickIsGatedAndInTime(rs: RunState, o: Oracle, cfg: Config, calls: seq<Call>, clock: int, j: nat)
    requires Reached(rs, o, cfg, calls, clock)
    requires j < |rs.world.events| && rs.world.events[j].Clicked?
    ensures var ev := rs.world.events;
      exists b, t :: 0 <= b < t < j && GatedSubmitOf(ev[b], ev[j].session.id)
        && ev[t].ClockRead? && !ev[j].session.IsExpired(ev[t].time)
        && (forall m | t < m < j && ev[m].ClockRead? :: !ev[j].session.IsExpired(ev[m].time))
        && forall m | b < m < j :: !ev[m].Begin?
  {
    var ev := rs.world.events;
    var s := ev[j].session;
    ReachedInv(rs, o, cfg, calls, clock);
    ReachedKept(rs, o, cfg, calls, clock, OverdueClick(s));
    ReachedKept(rs, o, cfg, calls, clock, UngatedClick(s.id));
    var t := LastClear(OverdueClick(s), ev, 0, j);
    var b := LastBegin(ev, t);
    forall m | b < m < j
      ensures !ev[m].Begin? && (t < m && ev[m].ClockRead? ==> !s.IsExpired(ev[m].time))
    {
      assert m > t ==> !Raises(OverdueClick(s), ev[m]);
    }
    if !GatedSubmitOf(ev[b], s.id) {
      NotGuardedYet(UngatedClick(s.id), ev, b, j);
    }
  }

  lemma {:induction false} LastBegin(ev: seq<Event>, t: nat) returns (b: nat)
    requires 0 < t <= |ev| && ev[0].Begin?
    ensures b < t && ev[b].Begin? && forall m | b < m < t :: !ev[m].Begin?
    decreases t
  {
    b := t - 1;
    if !ev[b].Begin? {
      b := LastBegin(ev, t - 1);
    }
  }

  /** Every calendar day holds at most the configured number of stored sessions, by StartedAt. */
  lemma DailySessionsCapped(rs: RunState, o: Oracle, cfg: Config, calls: seq<Call>, clock: int, day: int)
    requires Reached(rs, o, cfg, calls, clock)
    ensures |set id | id in rs.world.sessions && DayOf(rs.world.sessions[id].startedAt) == day|
         <= if cfg.sessionsPerDay < 0 then 0 else cfg.sessionsPerDay
  {
    ReachedInv(rs, o, cfg, calls, clock);
    var times := rs.world.StartTimes();
    assert CountOnDay(times, day) <= if cfg.sessionsPerDay < 0 then 0 else cfg.sessionsPerDay;
    assert (set id | id in rs.world.sessions && DayOf(rs.world.sessions[id].startedAt) == day)
        == set id | id in times && DayOf(times[id]) == day;
  }

  /** A session stored as COMPLETED, FAILED or EXPIRED is never stored differently again. */
  lemma {:induction false} TerminalIsFinal(
      rs: RunState, o: Oracle, cfg: Config, calls: seq<Call>, clock: int, more: seq<Call>, id: nat)
    requires Reached(rs, o, cfg, calls, clock) && DisciplinedRun(rs, o, cfg, more)
    requires id in rs.world.sessions && Terminal(rs.world.sessions[id].state)
    ensures var later := Run(rs, o, cfg, more).world.sessions;
      id in later && later[id] == rs.world.sessions[id]
  {
    ReachedInv(rs, o, cfg, calls, clock);
    RunKeeps(rs, o, cfg, more);
  }

  /** The history ends with a click that saw the success signal, then the completed session stored. */
  predicate EndsSubmitted(ev: seq<Event>) {
    && |ev| >= 2 && ev[|ev| - 2].Clicked? && ev[|ev| - 2].seen == Some(Submitted)
    && ev[|ev| - 1] == SavedSession(ev[|ev| - 2].session.(state := Completed), true)
  }

  lemma IssueTokenEnds(w: World, o: Oracle, cfg: Config, s: Session)
    ensures var (w2, ret) := IssueToken(w, o, cfg, s); ret.outcome != SubmittedOk && !EndsSubmitted(w2.events)
  {
    var (w2, ret) := IssueToken(w, o, cfg, s);
    assert !w2.events[|w2.events| - 1].SavedSession?;
  }

  lemma PauseEnds(w: World, o: Oracle, cfg: Config, s: Session, reason: Reason)
    ensures var (w2, ret) := PauseForHuman(w, o, cfg, s, reason);
      ret.outcome != SubmittedOk && !EndsSubmitted(w2.events)
  {
    var (w1, ref) := Capture(w, o, s.id);
    var w2 := w1.Log(ReadUrl(s.id));
    var paused := PausedSession(s, w1.Answer(o).text, ref, reason);
    IssueTokenEnds(PutSession(w2, o, paused), o, cfg, paused);
  }

  lemma JudgeEnds(w: World, o: Oracle, cfg: Config, s: Session)
    ensures var (w2, ret) := ClickAndJudge(w, o, cfg, s); ret.outcome == SubmittedOk <==> EndsSubmitted(w2.events)
  {
    var seen := w.Answer(o);
    var w1 := w.Log(Clicked(s, Seen(seen)));
    if seen.fails {
      PauseEnds(w1, o, cfg, s, SubmissionUncertain(seen.text));
    } else {
      match seen.page
      case Submitted =>
      case Normal => PauseEnds(w1, o, cfg, s, SubmissionUnconfirmed);
      case Captcha => PauseEnds(w1, o, cfg, s, CaptchaAfterSubmission);
      case page => PauseEnds(w1, o, cfg, s, UnexpectedAfterSubmission(page));
    }
  }

  /** Submit reports success exactly when its history ends with a click that saw the success signal
      and the completed session stored; no other answer of the driver is ever taken for success. */
  lemma {:induction false} SubmittedIff(w: World, o: Oracle, cfg: Config, call: Call)
    requires call.Submit?
    ensures var (w2, ret) := Do(w, o, cfg, call);
      ret.outcome == SubmittedOk <==> EndsSubmitted(w2.events)
  {
    var w1 := w.Log(Begin(call));
    var w2 := Tick(w1, o);
    var running := call.session.(state := Running);
    JudgeEnds(PutSession(w2, o, running), o, cfg, running);
  }

  // Why a result may lead to one click only

  /** Every page is normal except after a click; the one fault is the save that follows the first click. */
  function SlipAnswer(k: nat): Reply {
    Reply(k == 19, if k == 18 || k == 23 then Submitted else Normal, "", 0)
  }

  const SLIP_CONFIG := Config(1, 30, 1800, false)

  function SlipStart(): (World, Return) {
    Do(EmptyWorld(0), SlipAnswer, SLIP_CONFIG, Start(StartInput("app", "board", "url", [])))
  }

  lemma SlipAdmit(w: World, input: StartInput)
    requires |w.events| == 3 && w.clock == 0 && w.nextId == 1 && input == StartInput("app", "board", "url", [])
    ensures var (w2, ret) := Admit(w, SlipAnswer, SLIP_CONFIG, input);
      && ret.outcome == ReadyForReview && |w2.events| == 15 && w2.clock == 0
      && ret.session.id in w2.sessions && w2.sessions[ret.session.id] == ret.session
      && ret.session.state == Running && ret.session.expiresAt == 1800
  {
    var w1 := Tick(w, SlipAnswer);
    var s := NewSession(w1, SLIP_CONFIG, input);
    assert s.expiresAt == 1800;
    var w2 := w1.(nextId := 2);
    assert Admit(w, SlipAnswer, SLIP_CONFIG, input) == LaunchAndGo(w2, SlipAnswer, SLIP_CONFIG, s, input);
    var running := s.(state := Running);
    var w3 := PutSession(w2.Log(Launched(1, true)), SlipAnswer, running);
    assert |w3.events| == 6;
    SlipFill(w3, running);
  }

  lemma SlipStartIsReady()
    ensures var (w, ret) := SlipStart();
      && ret.outcome == ReadyForReview && |w.events| == 15 && w.clock == 0
      && ret.session.id in w.sessions && w.sessions[ret.session.id] == ret.session
      && ret.session.state == Running && ret.session.expiresAt == 1800
  {
    var input := StartInput("app", "board", "url", []);
    var w := EmptyWorld(0).Log(Begin(Start(input)));
    var w1 := Tick(w, SlipAnswer);
    var since := StartOfDay(w1.clock);
    var w2 := w1.Log(CountedSessions(since, true));
    assert w2.StartTimes() == map[];
    CountSinceBound(w2.StartTimes(), since);
    SlipAdmit(w2, input);
    assert StartCall(w, SlipAnswer, SLIP_CONFIG, input) == Admit(w2, SlipAnswer, SLIP_CONFIG, input);
  }

  lemma SlipFill(w: World, s: Session)
    requires |w.events| == 6 && w.clock == 0 && s.expiresAt == 1800 && s.state == Running
    ensures var (w2, ret) := NavigateAndFill(w, SlipAnswer, SLIP_CONFIG, s, "url", []);
      && ret.outcome == ReadyForReview && |w2.events| == 15 && w2.clock == 0
      && ret.session.id == s.id && s.id in w2.sessions && w2.sessions[s.id] == ret.session
      && ret.session.state == Running && ret.session.expiresAt == 1800
  {
    var there := s.(currentUrl := "url");
    var w1 := Tick(w, SlipAnswer).Log(Navigated(s.id, "url", Some(Normal)))
      .Log(Filled(s.id, [], true)).Log(Detected(s.id, Some(Normal)));
    assert |w1.events| == 10;
    var (w2, ready) := WriteCheckpoint(w1, SlipAnswer, there);
    assert |w2.events| == 14 && ready.Some?;
  }

  /** Submit at event 15 or 20: the click is its fourth event and leaves the stored session as it
      was handed in, unless the completion could be saved. */
  lemma SlipSubmit(w: World, s: Session)
    requires (|w.events| == 15 || |w.events| == 20) && w.clock == 0
    requires s.id in w.sessions && w.sessions[s.id] == s && s.state == Running && s.expiresAt == 1800
    ensures var (w2, ret) := Do(w, SlipAnswer, SLIP_CONFIG, Submit(s, true, "go"));
            var n := |w.events|;
            && |w2.events| == n + 5 && w2.events[..n] == w.events && w2.clock == 0
            && w2.events[n + 3] == Clicked(s, Some(Submitted))
            && (forall k | n <= k < n + 5 :: !w2.events[k].RevokedToken?)
            && (n == 15 ==> s.id in w2.sessions && w2.sessions[s.id] == s)
  {
    var n := |w.events|;
    var w1 := Tick(w.Log(Begin(Submit(s, true, "go"))), SlipAnswer);
    assert s.(state := Running) == s;
    var w2 := PutSession(w1, SlipAnswer, s);
    var w3 := w2.Log(Clicked(s, Some(Submitted)));
    assert |w3.events| == n + 4 && w3.events[n + 3] == Clicked(s, Some(Submitted));
    var w4 := PutSession(w3, SlipAnswer, s.(state := Completed));
    assert w4.events[..n] == w.events;
  }

  /** Without the third clause of the discipline: the completion of a confirmed submission fails to
      save, the stored session is still the one of the ready_for_review result, and a second Submit
      with it clicks again with no token redeemed in between. */
  lemma SameResultTwiceResubmits()
    ensures var (w1, ret) := SlipStart();
            var call := Submit(ret.session, true, "go");
            var w2 := Do(w1, SlipAnswer, SLIP_CONFIG, call).0;
            var w3 := Do(w2, SlipAnswer, SLIP_CONFIG, call).0;
            && ret.outcome == ReadyForReview
            && ret.session.id in w2.sessions && w2.sessions[ret.session.id] == ret.session
            && |w3.events| == 25
            && w3.events[18] == Clicked(ret.session, Some(Submitted))
            && w3.events[23] == Clicked(ret.session, Some(Submitted))
            && forall k | 18 < k < 23 :: !w3.events[k].RevokedToken?
  {
    SlipStartIsReady();
    var (w1, ret) := SlipStart();
    SlipSubmit(w1, ret.session);
    var w2 := Do(w1, SlipAnswer, SLIP_CONFIG, Submit(ret.session, true, "go")).0;
    SlipSubmit(w2, ret.session);
    SlipChain(w1.events, w2.events, Do(w2, SlipAnswer, SLIP_CONFIG, Submit(ret.session, true, "go")).0.events);
  }

  lemma SlipChain(a: seq<Event>, b: seq<Event>, c: seq<Event>)
    requires |a| == 15 && |b| == 20 && |c| == 25 && c[..20] == b
    requires forall k | 15 <= k < 20 :: !b[k].RevokedToken?
    requires forall k | 20 <= k < 25 :: !c[k].RevokedToken?
    ensures c[18] == b[18] && forall k | 18 < k < 23 :: !c[k].RevokedToken?
  {
    assert forall k | 0 <= k < 20 :: c[k] == b[k];
  }
}
