/** Which paused sessions can still leave HUMAN_REQUIRED: those with a token that is neither revoked nor
    expired (internal/browser/runner.go:247-282, internal/browser/recovery.go:62-80). */
module BrowserResumable {
  import opened BrowserSession
  import opened BrowserProtocol
  import opened BrowserSafety
  import opened BrowserRuns
  import opened BrowserTheorems
  import opened BrowserRecovery
  import opened BrowserStranding
  import opened Wrappers

  /** A token of the session that Redeem would still take at the present time. */
  predicate Usable(w: World, token: nat, id: nat) {
    w.Live(token) && w.tokens[token].sessionId == id && w.clock <= w.tokens[token].expiresAt
  }

  ghost predicate HasUsableToken(w: World, id: nat) {
    exists t :: Usable(w, t, id)
  }

  /** Some further disciplined calls, met by some answers, leave the session stored differently. */
  ghost predicate CanMove(rs: RunState, cfg: Config, id: nat)
    requires id in rs.world.sessions
  {
    exists o: Oracle, more: seq<Call> ::
      DisciplinedRun(rs, o, cfg, more) && Moved(rs.world, Run(rs, o, cfg, more).world, id)
  }

  predicate Moved(w: World, w2: World, id: nat)
    requires id in w.sessions
  {
    id !in w2.sessions || w2.sessions[id] != w.sessions[id]
  }

  /** Some further disciplined calls, met by some answers, take the session out of HUMAN_REQUIRED. */
  ghost predicate CanLeave(rs: RunState, cfg: Config, id: nat) {
    exists o: Oracle, more: seq<Call> ::
      DisciplinedRun(rs, o, cfg, more) && Left(Run(rs, o, cfg, more).world, id)
  }

  predicate Left(w2: World, id: nat) {
    id in w2.sessions && w2.sessions[id].state != HumanReq
  }

  // Without a usable token

  ghost predicate Lost(w: World, id: nat) {
    Waiting(w, id) && !HasUsableToken(w, id)
  }

  lemma LostElsewhere(w: World, w2: World, ret: Return, id: nat, x: nat)
    requires Effect(w, w2, ret, id) && x != id && Lost(w, x)
    ensures Lost(w2, x) && w2.sessions[x] == w.sessions[x]
  {
    forall t ensures !Usable(w2, t, x) {
      assert !Usable(w, t, x);
    }
  }

  /** Nothing is stored and no token changes, and the clock does not go back. */
  lemma LostUntouched(w: World, w2: World, id: nat)
    requires w2.sessions == w.sessions && w2.tokens == w.tokens && w.clock <= w2.clock && Lost(w, id)
    ensures Lost(w2, id) && w2.sessions[id] == w.sessions[id]
  {
    forall t ensures !Usable(w2, t, id) {
      assert !Usable(w, t, id);
    }
  }

  /** A token that is revoked or expired is refused, whatever answers. */
  lemma UnusableRefused(w: World, o: Oracle, cfg: Config, token: nat, fields: seq<FieldValue>)
    requires !Usable(w, token, TokenSession(w, token))
    ensures var w2 := Do(w, o, cfg, Resume(token, fields)).0;
      w2.sessions == w.sessions && w2.tokens == w.tokens && w.clock <= w2.clock
  {
  }

  lemma LostStep(rs: RunState, o: Oracle, cfg: Config, call: Call, id: nat)
    requires RunInv(rs, cfg) && Disciplined(rs, call) && Lost(rs.world, id)
    ensures var w2 := Step(rs, o, cfg, call).world; Lost(w2, id) && w2.sessions[id] == rs.world.sessions[id]
  {
    var w := rs.world;
    var (w2, ret) := Do(w, o, cfg, call);
    if id != SessionOf(w, call) {
      DoEffect(rs, o, cfg, call);
      LostElsewhere(w, w2, ret, SessionOf(w, call), id);
    } else {
      assert call.Resume?;
      assert !Usable(w, call.token, id);
      UnusableRefused(w, o, cfg, call.token, call.fields);
      LostUntouched(w, w2, id);
    }
  }

  /** A waiting session without a usable token is stored as it is for good. */
  lemma {:induction false} LostForGood(rs: RunState, o: Oracle, cfg: Config, more: seq<Call>, id: nat)
    requires RunInv(rs, cfg) && DisciplinedRun(rs, o, cfg, more) && Lost(rs.world, id)
    ensures var w2 := Run(rs, o, cfg, more).world; Lost(w2, id) && w2.sessions[id] == rs.world.sessions[id]
    decreases |more|
  {
    if more != [] {
      LostStep(rs, o, cfg, more[0], id);
      StepKeeps(rs, o, cfg, more[0]);
      LostForGood(Step(rs, o, cfg, more[0]), o, cfg, more[1..], id);
    }
  }

  // With a usable token

  /** Nothing fails, every page is normal and no time passes. */
  function SmoothAnswer(k: nat): Reply {
    Reply(false, Normal, "", 0)
  }

  lemma ExpiredLeaves(w: World, cfg: Config, token: nat, id: nat)
    requires Sound(w) && Usable(w, token, id) && w.sessions[id].IsExpired(w.clock)
    ensures Left(Do(w, SmoothAnswer, cfg, Resume(token, [])).0, id)
  {
    var s := w.sessions[id];
    var w1 := Tick(w.Log(Begin(Resume(token, []))), SmoothAnswer);
    var w2 := Revoke(w1.Log(LookedUpToken(token, true)), SmoothAnswer, token);
    var w3 := w2.Log(LoadedSession(id, true));
    assert Redeem(w1, SmoothAnswer, token, w1.clock) == (w2, None);
    var gone := s.(state := Expired);
    assert ContinueSession(w3, SmoothAnswer, cfg, s, []).0 == PutSession(Tick(w3, SmoothAnswer), SmoothAnswer, gone);
  }

  lemma UnexpiredLeaves(w: World, cfg: Config, token: nat, id: nat)
    requires Sound(w) && Usable(w, token, id) && !w.sessions[id].IsExpired(w.clock)
    ensures Left(Do(w, SmoothAnswer, cfg, Resume(token, [])).0, id)
  {
    LiveTokenResumes(w, SmoothAnswer, cfg, token, []);
    ReadyIsCheckpointed(w, SmoothAnswer, cfg, Resume(token, []));
  }

  lemma ResumeLeaves(w: World, cfg: Config, token: nat, id: nat)
    requires Sound(w) && Usable(w, token, id)
    ensures Left(Do(w, SmoothAnswer, cfg, Resume(token, [])).0, id)
  {
    if w.sessions[id].IsExpired(w.clock) {
      ExpiredLeaves(w, cfg, token, id);
    } else {
      UnexpiredLeaves(w, cfg, token, id);
    }
  }

  lemma OneCall(rs: RunState, o: Oracle, cfg: Config, call: Call)
    requires !call.Submit?
    ensures DisciplinedRun(rs, o, cfg, [call]) && Run(rs, o, cfg, [call]).world == Do(rs.world, o, cfg, call).0
  {
    var next := Step(rs, o, cfg, call);
    assert [call][1..] == [];
    assert DisciplinedRun(next, o, cfg, []) && Run(next, o, cfg, []) == next;
  }

  lemma LeftByRun(rs: RunState, o: Oracle, cfg: Config, more: seq<Call>, w2: World, id: nat)
    requires Waiting(rs.world, id) && DisciplinedRun(rs, o, cfg, more)
    requires Run(rs, o, cfg, more).world == w2 && Left(w2, id)
    ensures CanLeave(rs, cfg, id) && CanMove(rs, cfg, id)
  {
    assert Moved(rs.world, Run(rs, o, cfg, more).world, id);
  }

  lemma UsableLeaves(rs: RunState, cfg: Config, token: nat, id: nat)
    requires Sound(rs.world) && Usable(rs.world, token, id)
    ensures CanLeave(rs, cfg, id) && CanMove(rs, cfg, id)
  {
    var call := Resume(token, []);
    OneCall(rs, SmoothAnswer, cfg, call);
    ResumeLeaves(rs.world, cfg, token, id);
    LeftByRun(rs, SmoothAnswer, cfg, [call], Do(rs.world, SmoothAnswer, cfg, call).0, id);
  }

  lemma LostCannotMove(rs: RunState, cfg: Config, id: nat)
    requires RunInv(rs, cfg) && Lost(rs.world, id)
    ensures !CanMove(rs, cfg, id) && !CanLeave(rs, cfg, id)
  {
    forall o: Oracle, more: seq<Call> | DisciplinedRun(rs, o, cfg, more)
      ensures !Moved(rs.world, Run(rs, o, cfg, more).world, id) && !Left(Run(rs, o, cfg, more).world, id)
    {
      LostForGood(rs, o, cfg, more, id);
    }
  }

  /** From any reached state, some further disciplined calls can take a session out of HUMAN_REQUIRED,
      or so much as store it differently, exactly when it has a token neither revoked nor expired. */
  lemma ResumableIff(rs: RunState, o: Oracle, cfg: Config, calls: seq<Call>, clock: int, id: nat)
    requires Reached(rs, o, cfg, calls, clock) && Waiting(rs.world, id)
    ensures CanLeave(rs, cfg, id) <==> HasUsableToken(rs.world, id)
    ensures CanMove(rs, cfg, id) <==> HasUsableToken(rs.world, id)
  {
    ReachedInv(rs, o, cfg, calls, clock);
    if HasUsableToken(rs.world, id) {
      var t :| Usable(rs.world, t, id);
      UsableLeaves(rs, cfg, t, id);
    } else {
      LostCannotMove(rs, cfg, id);
    }
  }

  // A run without a fault that loses a session

  /** The first page is a CAPTCHA, nothing ever fails, and the human comes a second too late. */
  function LateAnswer(k: nat): Reply {
    Reply(false, if k == 7 then Captcha else Normal, "", if k == 16 then 1801 else 0)
  }

  lemma LateResume(w: World)
    requires |w.events| == 15 && w.clock == 0 && Waiting(w, 1)
    requires w.tokens == map[1 := TokenEntry(1, 1800, false)]
    ensures var (w2, ret) := Do(w, LateAnswer, SLIP_CONFIG, Resume(1, []));
      ret == Refuse(InvalidToken) && Lost(w2, 1) && HasToken(w2, 1)
  {
    var w1 := Tick(w.Log(Begin(Resume(1, []))), LateAnswer);
    assert w1.clock == 1801;
    var w2 := w1.Log(LookedUpToken(1, true));
    assert Do(w, LateAnswer, SLIP_CONFIG, Resume(1, [])) == (w2, Refuse(InvalidToken));
    assert w2.Live(1);
    assert forall t :: !Usable(w2, t, 1);
  }

  /** A disciplined run in which nothing fails leaves a session HUMAN_REQUIRED for good: Start pauses on
      a CAPTCHA, and its only token, never revoked, has expired when the human comes back. */
  lemma LateRunLoses()
    ensures forall k :: !LateAnswer(k).fails
    ensures DisciplinedRun(Initially(0), LateAnswer, SLIP_CONFIG, STALL_CALLS)
    ensures var w := Run(Initially(0), LateAnswer, SLIP_CONFIG, STALL_CALLS).world; Lost(w, 1) && HasToken(w, 1)
    ensures !CanMove(Run(Initially(0), LateAnswer, SLIP_CONFIG, STALL_CALLS), SLIP_CONFIG, 1)
  {
    var rs := Initially(0);
    var call, again := Start(STALL_INPUT), Resume(1, []);
    StallStart(LateAnswer);
    var rs1 := Step(rs, LateAnswer, SLIP_CONFIG, call);
    LateResume(rs1.world);
    TwoCalls(rs, LateAnswer, SLIP_CONFIG, call, again);
    ResumableIff(Run(rs, LateAnswer, SLIP_CONFIG, STALL_CALLS), LateAnswer, SLIP_CONFIG, STALL_CALLS, 0, 1);
  }
}
