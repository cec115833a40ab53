/** The landing page greets the signed-in user by name. */
module Home {
  import Topbar

  /** `Welcome {formatUsername}`. */
  function Greeting(username: string): (text: string)
    ensures |text| == 8 + |username| && text[..8] == "Welcome "
    ensures text[8..] == Topbar.FormatUsername(username)
  {
    "Welcome " + Topbar.FormatUsername(username)
  }

  /** Signed out, the greeting names nobody. */
  lemma SignedOutGreeting()
    ensures Greeting("") == "Welcome "
  {
  }
}
