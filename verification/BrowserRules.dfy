/** Ordering rules over the runner's history, each of one shape: after an event that RAISES the
    rule, an event it GUARDS may come only once some event in between CLEARS it. */
module BrowserRules {
  import opened BrowserSession
  import opened Wrappers

  datatype Rule =
    | Resubmit(id: nat)          // a second click on a session needs a token redeemed for it in between
    | Renavigate(id: nat)        // a session is navigated at most once
    | TokenReuse(token: nat)     // a token is redeemed at most once
    | AfterTrouble               // after trouble the call touches the page no more
    | UnconfirmedFill(id: nat)   // a fill directly follows an observation of a normal page
    | UngatedClick(id: nat)      // a click happens only in a Submit of that session whose gate passed
    | OverdueClick(s: Session)   // a click's session was found unexpired earlier in the same call
    | NavigationOutsideStart     // only Start navigates

  predicate Normally(e: Event, id: nat) {
    || (e.Navigated? && e.id == id && e.seen == Some(Normal))
    || (e.Detected? && e.id == id && e.seen == Some(Normal))
  }

  predicate DriverCall(e: Event) {
    e.Launched? || e.Navigated? || e.Filled? || e.Detected? || e.Clicked? || e.TookScreenshot? || e.ReadUrl?
  }

  /** Driver calls other than the two that only look: Screenshot and CurrentURL. */
  predicate Touches(e: Event) {
    DriverCall(e) && !e.TookScreenshot? && !e.ReadUrl?
  }

  /** A driver error, an observation that is not of a normal page, or any click. */
  predicate Trouble(e: Event) {
    match e
    case Launched(_, ok) => !ok
    case Filled(_, _, ok) => !ok
    case Navigated(_, _, seen) => seen != Some(Normal)
    case Detected(_, seen) => seen != Some(Normal)
    case Clicked(_, _) => true
    case _ => false
  }

  predicate GatedSubmitOf(e: Event, id: nat) {
    e.Begin? && e.call.Submit? && e.call.gatePassed && e.call.session.id == id
  }

  predicate Raises(r: Rule, e: Event) {
    match r
    case Resubmit(id) => e.Clicked? && e.session.id == id
    case Renavigate(id) => e.Navigated? && e.id == id
    case TokenReuse(token) => e.RevokedToken? && e.token == token && e.ok
    case AfterTrouble => Trouble(e)
    case UnconfirmedFill(id) => e.Begin? || (DriverCall(e) && !Normally(e, id))
    case UngatedClick(id) => e.Begin? && !GatedSubmitOf(e, id)
    case OverdueClick(s) => e.Begin? || (e.ClockRead? && s.IsExpired(e.time))
    case NavigationOutsideStart => e.Begin? && !e.call.Start?
  }

  predicate Guards(r: Rule, e: Event) {
    match r
    case Resubmit(id) => e.Clicked? && e.session.id == id
    case Renavigate(id) => e.Navigated? && e.id == id
    case TokenReuse(token) => e.RevokedToken? && e.token == token && e.ok
    case AfterTrouble => Touches(e)
    case UnconfirmedFill(id) => e.Filled? && e.id == id
    case UngatedClick(id) => e.Clicked? && e.session.id == id
    case OverdueClick(s) => e.Clicked? && e.session == s
    case NavigationOutsideStart => e.Navigated?
  }

  predicate Clears(r: Rule, e: Event) {
    match r
    case Resubmit(id) => e.RevokedToken? && e.id == id && e.ok
    case Renavigate(_) => false
    case TokenReuse(_) => false
    case AfterTrouble => e.Begin?
    case UnconfirmedFill(id) => Normally(e, id)
    case UngatedClick(id) => GatedSubmitOf(e, id)
    case OverdueClick(s) => e.ClockRead? && !s.IsExpired(e.time)
    case NavigationOutsideStart => e.Begin? && e.call.Start?
  }

  ghost predicate ClearedBetween(r: Rule, ev: seq<Event>, i: int, j: int)
    requires 0 <= i <= j <= |ev|
  {
    exists k :: i < k < j && Clears(r, ev[k])
  }

  /** The rule holds of the whole history. */
  ghost predicate Kept(r: Rule, ev: seq<Event>) {
    forall i, j | 0 <= i < j < |ev| && Raises(r, ev[i]) && Guards(r, ev[j]) :: ClearedBetween(r, ev, i, j)
  }

  ghost predicate Obeyed(ev: seq<Event>) {
    forall r: Rule :: Kept(r, ev)
  }

  /** The rule is raised and not cleared since. */
  predicate Open(r: Rule, ev: seq<Event>) {
    |ev| > 0 &&
    var last := ev[|ev| - 1];
    Raises(r, last) || (!Clears(r, last) && Open(r, ev[..|ev| - 1]))
  }

  lemma OpenAppend(r: Rule, ev: seq<Event>, e: Event)
    ensures Open(r, ev + [e]) == (Raises(r, e) || (!Clears(r, e) && Open(r, ev)))
  {
    assert (ev + [e])[..|ev|] == ev;
  }

  lemma {:induction false} OpenIfRaisedLast(r: Rule, ev: seq<Event>, i: nat)
    requires i < |ev| && Raises(r, ev[i]) && !ClearedBetween(r, ev, i, |ev|)
    ensures Open(r, ev)
    decreases |ev|
  {
    var n := |ev| - 1;
    if i < n {
      assert !Clears(r, ev[n]);
      var front := ev[..n];
      forall k | i < k < n ensures !Clears(r, front[k]) {
        assert front[k] == ev[k];
      }
      OpenIfRaisedLast(r, front, i);
    }
  }

  /** A history that keeps every rule may be extended by any event whose guarding rules are not open. */
  lemma ObeyedAppend(ev: seq<Event>, e: Event)
    requires Obeyed(ev)
    requires forall r: Rule | Guards(r, e) :: !Open(r, ev)
    ensures Obeyed(ev + [e])
  {
    var longer := ev + [e];
    forall r: Rule ensures Kept(r, longer) {
      assert Kept(r, ev);
      forall i, j | 0 <= i < j < |longer| && Raises(r, longer[i]) && Guards(r, longer[j])
        ensures ClearedBetween(r, longer, i, j)
      {
        if j < |ev| {
          assert ClearedBetween(r, ev, i, j);
          var k :| i < k < j && Clears(r, ev[k]);
          assert Clears(r, longer[k]);
        } else if !ClearedBetween(r, ev, i, |ev|) {
          OpenIfRaisedLast(r, ev, i);
        } else {
          var k :| i < k < |ev| && Clears(r, ev[k]);
          assert Clears(r, longer[k]);
        }
      }
    }
  }

  /** The rules whose standing outlives a call. */
  predicate Lasting(r: Rule) {
    r.Resubmit? || r.Renavigate? || r.TokenReuse?
  }

  /** Events no rule guards and no lasting rule reacts to. */
  predicate Idle(e: Event) {
    && !Touches(e)
    && (e.RevokedToken? ==> !e.ok)
  }

  /** ev2 extends ev by idle events only. */
  predicate Idled(ev: seq<Event>, ev2: seq<Event>) {
    |ev| <= |ev2| && ev == ev2[..|ev|] && forall k | |ev| <= k < |ev2| :: Idle(ev2[k])
  }

  /** Idle events keep every rule and leave every lasting rule as it stood. */
  lemma {:induction false} IdleKeeps(ev: seq<Event>, ev2: seq<Event>)
    requires Idled(ev, ev2)
    ensures Obeyed(ev) ==> Obeyed(ev2)
    ensures forall r: Rule | Lasting(r) :: Open(r, ev2) == Open(r, ev)
    decreases |ev2|
  {
    if |ev2| == |ev| {
      assert ev2 == ev;
    } else {
      var n := |ev2| - 1;
      var front := ev2[..n];
      assert front + [ev2[n]] == ev2;
      assert Idled(ev, front);
      IdleKeeps(ev, front);
      forall r: Rule | Lasting(r) ensures Open(r, ev2) == Open(r, ev) {
        OpenAppend(r, front, ev2[n]);
      }
      if Obeyed(ev) {
        ObeyedAppend(front, ev2[n]);
      }
    }
  }
}
