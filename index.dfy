/**
 * The session gate, src/pages/Index.tsx: one session check on mount and any
 * number of auth-state events decide between the loading skeleton, the
 * dashboard and the sign-in view.
 */
module IndexPage {
  import opened Wrappers

  /** The page the gate renders. */
  datatype View = Skeleton | DashboardView | AuthView

  /**
   * What can reach the gate: the answer to `getSession` (an error, or whether
   * a session is present), or an `onAuthStateChange` notification (whether
   * the event carries a session).
   */
  datatype GateEvent = SessionChecked(result: Result<bool, string>) | AuthStateChanged(hasSession: bool)

  /** The gate's two state fields; `session` is `null` until something sets it. */
  datatype Gate = Gate(loading: bool, session: Option<bool>)

  const Initial := Gate(true, None)

  /** After loading, `session` is a boolean. */
  predicate Settled(g: Gate)
  {
    !g.loading ==> g.session.Some?
  }

  /** The session an event reports: a failed check counts as no session. */
  function Presence(e: GateEvent): (present: bool)
    ensures e.SessionChecked? && e.result.Failure? ==> !present
  {
    match e
    case SessionChecked(r) => r.Success? && r.value
    case AuthStateChanged(b) => b
  }

  /** One step of the gate: both kinds of event set `session`; only the check clears `loading`. */
  function Apply(g: Gate, e: GateEvent): (r: Gate)
    ensures r.session == Some(Presence(e))
    ensures r.loading == (g.loading && e.AuthStateChanged?)
    ensures Settled(g) ==> Settled(r)
  {
    match e
    case SessionChecked(_) => Gate(false, Some(Presence(e)))
    case AuthStateChanged(_) => g.(session := Some(Presence(e)))
  }

  /** The events in arrival order. */
  function Replay(g: Gate, es: seq<GateEvent>): (r: Gate)
    decreases |es|
    ensures !g.loading ==> !r.loading
    ensures es == [] ==> r == g
  {
    if es == [] then g else Replay(Apply(g, es[0]), es[1..])
  }

  /** `loading ? skeleton : session ? dashboard : auth view` (a `null` session is falsy). */
  function ViewOf(g: Gate): (v: View)
    ensures v == Skeleton <==> g.loading
    ensures v == DashboardView <==> !g.loading && g.session == Some(true)
  {
    if g.loading then Skeleton
    else if g.session == Some(true) then DashboardView
    else AuthView
  }

  /** Whether the events include the answer to the session check. */
  predicate Checked(es: seq<GateEvent>)
  {
    exists i :: 0 <= i < |es| && es[i].SessionChecked?
  }

  /**
   * After a non-empty run of events, `session` is what the last event
   * reported, and `loading` is cleared exactly when the run holds a check.
   */
  lemma {:induction false} ReplayLast(g: Gate, es: seq<GateEvent>)
    requires es != []
    decreases |es|
    ensures Replay(g, es).session == Some(Presence(es[|es| - 1]))
    ensures Replay(g, es).loading == (g.loading && !Checked(es))
  {
    if |es| > 1 {
      ReplayLast(Apply(g, es[0]), es[1..]);
      assert es[1..][|es| - 2] == es[|es| - 1];
      assert Checked(es) <==> es[0].SessionChecked? || Checked(es[1..]) by {
        if Checked(es) {
          var i :| 0 <= i < |es| && es[i].SessionChecked?;
          if i > 0 {
            assert es[1..][i - 1].SessionChecked?;
          }
        }
        if Checked(es[1..]) {
          var i :| 0 <= i < |es| - 1 && es[1..][i].SessionChecked?;
          assert es[i + 1].SessionChecked?;
        }
      }
    } else {
      assert Checked(es) <==> es[0].SessionChecked?;
    }
  }

  /** Every reachable state is settled: once loading is over, `session` is never `null` again. */
  lemma {:induction false} ReplaySettled(g: Gate, es: seq<GateEvent>)
    requires Settled(g)
    decreases |es|
    ensures Settled(Replay(g, es))
  {
    if es != [] {
      ReplaySettled(Apply(g, es[0]), es[1..]);
    }
  }

  /**
   * From the initial state, the skeleton shows until the check answers;
   * after it, the dashboard shows exactly when the latest event reported a
   * session, and a failed check is the same as "no session".
   */
  lemma InitialView(es: seq<GateEvent>)
    ensures !Checked(es) ==> ViewOf(Replay(Initial, es)) == Skeleton
    ensures Checked(es) ==>
      (ViewOf(Replay(Initial, es)) == DashboardView <==> Presence(es[|es| - 1]))
    ensures Checked(es) ==> ViewOf(Replay(Initial, es)) != Skeleton
  {
    if es != [] {
      ReplayLast(Initial, es);
    }
  }

  class Index {
    var loading: bool
    var session: Option<bool>

    function State(): Gate
      reads this
    {
      Gate(loading, session)
    }

    constructor ()
      ensures loading && session == None
      ensures State() == Initial
    {
      loading, session := true, None;
    }

    /** `checkSession`: set `session` from the answer (false on error), then clear `loading` in `finally`. */
    method CheckSession(result: Result<bool, string>)
      modifies this
      ensures session == Some(result.Success? && result.value) && !loading
      ensures State() == Apply(old(State()), SessionChecked(result))
    {
      if result.Failure? {
        session := Some(false);
      } else {
        session := Some(result.value);
      }
      loading := false;
    }

    /** The auth listener: `session` follows the event whatever `loading` is. */
    method OnAuthStateChange(hasSession: bool)
      modifies this
      ensures session == Some(hasSession) && loading == old(loading)
      ensures State() == Apply(old(State()), AuthStateChanged(hasSession))
    {
      session := Some(hasSession);
    }

    function View(): (v: View)
      reads this
      ensures v == Skeleton <==> loading
      ensures v == DashboardView <==> !loading && session == Some(true)
    {
      ViewOf(State())
    }
  }
}
