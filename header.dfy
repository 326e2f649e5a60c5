/**
 * The page header, src/components/layout/Header.tsx: a greeting chosen by the
 * hour of the day, shown with the username, and the sign-out button.
 */
module Layout {
  import opened Wrappers

  datatype Greeting = Morning | Afternoon | Evening

  function GreetingText(g: Greeting): (t: string)
    ensures "Good " <= t
  {
    match g
    case Morning => "Good morning"
    case Afternoon => "Good afternoon"
    case Evening => "Good evening"
  }

  /** The order of the greetings through the day. */
  function Rank(g: Greeting): nat
  {
    match g
    case Morning => 0
    case Afternoon => 1
    case Evening => 2
  }

  /** The greeting for an hour: before noon, from noon until 18:00, from 18:00 on. */
  function GreetingFor(hour: int): (g: Greeting)
    ensures g == Morning <==> hour < 12
    ensures g == Afternoon <==> 12 <= hour < 18
    ensures g == Evening <==> 18 <= hour
  {
    if hour < 12 then Morning
    else if hour < 18 then Afternoon
    else Evening
  }

  /** A later hour never gets an earlier greeting. */
  lemma GreetingMonotone(h1: int, h2: int)
    requires h1 <= h2
    ensures Rank(GreetingFor(h1)) <= Rank(GreetingFor(h2))
  {
  }

  /**
   * Over the hours `getHours` returns, the greetings split 0..23 into the
   * blocks 0..11, 12..17 and 18..23, each of them non-empty.
   */
  lemma GreetingPartition(h: int)
    requires 0 <= h < 24
    ensures Rank(GreetingFor(h)) == if h < 12 then 0 else if h < 18 then 1 else 2
    ensures GreetingFor(0) == GreetingFor(11) == Morning
    ensures GreetingFor(12) == GreetingFor(17) == Afternoon
    ensures GreetingFor(18) == GreetingFor(23) == Evening
  {
  }

  /** The toast `handleLogout` shows. */
  datatype Notice = SignedOut | SignOutFailed(message: string)

  class Header {
    var username: string
    var greeting: string

    constructor (username: string)
      ensures this.username == username && greeting == ""
    {
      this.username := username;
      greeting := "";
    }

    /** A new `username` prop re-renders the header; the greeting set on mount stays. */
    method SetUsername(name: string)
      modifies this`username
      ensures username == name && greeting == old(greeting)
    {
      username := name;
    }

    /** The mount effect: store the greeting for the current hour. */
    method OnMount(hour: int)
      modifies this`greeting
      ensures greeting == GreetingText(GreetingFor(hour))
    {
      if hour < 12 {
        greeting := "Good morning";
      } else if hour < 18 {
        greeting := "Good afternoon";
      } else {
        greeting := "Good evening";
      }
    }

    /** The greeting line, `{greeting}, {username}`, rendered only for a non-empty username. */
    function GreetingLine(): (line: Option<(string, string)>)
      reads this
      ensures line.Some? <==> username != ""
      ensures line.Some? ==> line.value == (greeting, username)
    {
      if username != "" then Some((greeting, username)) else None
    }

    /** The sign-out button is rendered only for a non-empty username. */
    predicate ShowsLogout()
      reads this
      ensures ShowsLogout() ==> |username| > 0
    {
      username != ""
    }

    /** `handleLogout`: exactly one toast, the error one when sign-out reports an error. */
    method HandleLogout(signOutError: Option<string>) returns (notice: Notice)
      ensures notice.SignOutFailed? <==> signOutError.Some?
      ensures signOutError.Some? ==> notice.message == signOutError.value
    {
      if signOutError.Some? {
        notice := SignOutFailed(signOutError.value);
      } else {
        notice := SignedOut;
      }
    }
  }

  /** Both controls of the header appear together, and only for a signed-in user's name. */
  lemma ControlsFollowUsername(h: Header)
    ensures h.GreetingLine().Some? == h.ShowsLogout() == (h.username != "")
  {
  }
}
