/** The browser runner's records, its world, and every outside call it can make.
    A call's answer comes from an oracle, so a statement about all oracles is a statement about
    every driver, every store fault and every nondecreasing clock. */
module BrowserSession {
  import opened Wrappers

  datatype PageState =
    | Normal | Captcha | LoginWall | Unknown | Submitted | NavigateErr
    | Unlisted(name: string)

  /** `Blank` is the state of the zero Session. */
  datatype SessionState =
    | Blank | Queued | Starting | Running | HumanReq | Resumed | Completed | Failed | Expired

  /** Why a session stopped; the program formats these as text. */
  datatype Reason =
    | NoReason
    | LaunchError(text: string)
    | NavigationFailed(text: string)
    | NavigationError
    | FillFailed(text: string)
    | DetectionFailed(text: string)
    | ResumeDetectionFailed(text: string)
    | CaptchaDetected
    | UnrecognizedPage(page: PageState)
    | UnhandledPage(page: PageState)
    | StillNotResumable(page: PageState)
    | SubmissionUncertain(text: string)
    | SubmissionUnconfirmed
    | CaptchaAfterSubmission
    | UnexpectedAfterSubmission(page: PageState)

  /** Time 0 is the zero time, which IsExpired reads as "no expiry". Id 0 is the empty id. */
  datatype Session = Session(
    id: nat,
    applicationId: string,
    platform: string,
    currentUrl: string,
    state: SessionState,
    startedAt: int,
    lastCheckpointAt: int,
    screenshotRef: string,
    expiresAt: int,
    humanRequired: bool,
    failureReason: Reason)
  {
    predicate IsExpired(now: int) {
      expiresAt != 0 && now > expiresAt
    }
  }

  const ZERO_SESSION := Session(0, "", "", "", Blank, 0, 0, "", 0, false, NoReason)

  datatype Checkpoint = Checkpoint(
    id: nat, sessionId: nat, step: string, currentUrl: string, screenshotRef: string, createdAt: int)

  datatype TokenEntry = TokenEntry(sessionId: nat, expiresAt: int, revoked: bool)

  datatype FieldValue = FieldValue(selector: string, value: string)

  datatype Config = Config(
    sessionsPerDay: int,
    maxSessionMinutes: int,
    recoveryTTL: int,
    hasNotifier: bool)

  datatype StartInput = StartInput(
    applicationId: string, platform: string, startUrl: string, fields: seq<FieldValue>)

  /** What a caller asks of the runner. */
  datatype Call =
    | Start(input: StartInput)
    | Resume(token: nat, fields: seq<FieldValue>)
    | Submit(session: Session, gatePassed: bool, selector: string)

  datatype Outcome = NoOutcome | ReadyForReview | HumanRequired | SubmittedOk | FailedOutcome | ExpiredOutcome

  datatype Error =
    | CountError | DailyLimit | LaunchFailure | SaveError | CheckpointError
    | RandomError | SaveTokenError | NotifyError
    | LookupError | InvalidToken | RevokeError | LoadError | GateRefused

  datatype Return = Return(session: Session, outcome: Outcome, error: Maybe<Error>)

  function Refuse(e: Error): Return {
    Return(ZERO_SESSION, NoOutcome, Some(e))
  }

  /** One line of the history of everything the runner did or asked, in order. */
  datatype Event =
    | Begin(call: Call)
    | ClockRead(time: int)
    | CountedSessions(since: int, ok: bool)
    | Launched(id: nat, ok: bool)
    | Navigated(id: nat, url: string, seen: Maybe<PageState>)
    | Filled(id: nat, fields: seq<FieldValue>, ok: bool)
    | Detected(id: nat, seen: Maybe<PageState>)
    | Clicked(session: Session, seen: Maybe<PageState>)
    | TookScreenshot(id: nat, ok: bool)
    | ReadUrl(id: nat)
    | SavedScreenshot(id: nat, ok: bool)
    | SavedSession(session: Session, ok: bool)
    | LoadedSession(id: nat, ok: bool)
    | SavedCheckpoint(checkpoint: Checkpoint, ok: bool)
    | DrewToken(id: nat, ok: bool)
    | SavedToken(token: nat, id: nat, ok: bool)
    | LookedUpToken(token: nat, ok: bool)
    | RevokedToken(token: nat, id: nat, ok: bool)
    | Notified(id: nat, ok: bool)

  /** The answer to one outside call. A failing store call has no effect. */
  datatype Reply = Reply(fails: bool, page: PageState, text: string, wait: nat)

  type Oracle = nat -> Reply

  /** Session store, token store, checkpoint list, clock, id source and the history so far.
      Ids and tokens are drawn fresh; a token stands for its collision-free hash. */
  datatype World = World(
    clock: int,
    nextId: nat,
    nextToken: nat,
    sessions: map<nat, Session>,
    tokens: map<nat, TokenEntry>,
    checkpoints: seq<Checkpoint>,
    events: seq<Event>)
  {
    /** The answer the next outside call will get. */
    function Answer(o: Oracle): Reply {
      o(|events|)
    }

    function Log(e: Event): World {
      this.(events := events + [e])
    }

    function StartTimes(): map<nat, int> {
      map id | id in sessions :: sessions[id].startedAt
    }

    predicate Live(token: nat) {
      token in tokens && !tokens[token].revoked
    }
  }

  function EmptyWorld(clock: int): World {
    World(clock, 1, 1, map[], map[], [], [])
  }

  // Outside calls. Each consumes one answer and leaves one event.

  function Tick(w: World, o: Oracle): World {
    var now := w.clock + w.Answer(o).wait;
    w.(clock := now).Log(ClockRead(now))
  }

  function Seen(r: Reply): Maybe<PageState> {
    if r.fails then None else Some(r.page)
  }

  function PutSession(w: World, o: Oracle, s: Session): World {
    if w.Answer(o).fails
    then w.Log(SavedSession(s, false))
    else w.(sessions := w.sessions[s.id := s]).Log(SavedSession(s, true))
  }

  function PutCheckpoint(w: World, o: Oracle, c: Checkpoint): World {
    if w.Answer(o).fails
    then w.Log(SavedCheckpoint(c, false))
    else w.(checkpoints := w.checkpoints + [c]).Log(SavedCheckpoint(c, true))
  }

  function DrawToken(w: World, o: Oracle, id: nat): World {
    if w.Answer(o).fails
    then w.Log(DrewToken(id, false))
    else w.(nextToken := w.nextToken + 1).Log(DrewToken(id, true))
  }

  function PutToken(w: World, o: Oracle, token: nat, id: nat, expiresAt: int): World {
    if w.Answer(o).fails
    then w.Log(SavedToken(token, id, false))
    else w.(tokens := w.tokens[token := TokenEntry(id, expiresAt, false)]).Log(SavedToken(token, id, true))
  }

  /** Found, unrevoked and unexpired at `now`. */
  predicate Redeemable(w: World, token: nat, now: int) {
    w.Live(token) && !(now > w.tokens[token].expiresAt)
  }

  function Revoke(w: World, o: Oracle, token: nat): World
    requires token in w.tokens
  {
    var entry := w.tokens[token];
    if w.Answer(o).fails
    then w.Log(RevokedToken(token, entry.sessionId, false))
    else w.(tokens := w.tokens[token := entry.(revoked := true)]).Log(RevokedToken(token, entry.sessionId, true))
  }

  /** A missing session reads as the zero Session. */
  function Stored(w: World, id: nat): Session {
    if id in w.sessions then w.sessions[id] else ZERO_SESSION
  }
}
