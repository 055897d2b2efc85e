/** The rule both platform adapters apply to find which colour the
    requested user played (src/platforms/chesscom.py and
    src/platforms/lichess.py). */
module PlatformRules {
  import opened Common
  import opened Text

  /** Case-insensitive match of the username against the white player's
      name first, then the black player's; neither is a ValueError. */
  function ResolveColour(whiteName: string, blackName: string, username: string): (r: Result<Colour>)
    ensures r == Ok(White) <==> EqualsIgnoreCase(whiteName, username)
    ensures r == Ok(Black) <==> !EqualsIgnoreCase(whiteName, username) && EqualsIgnoreCase(blackName, username)
    ensures r.Err? <==> !EqualsIgnoreCase(whiteName, username) && !EqualsIgnoreCase(blackName, username)
    ensures r.Err? ==> r.error == UsernameNotFound
  {
    if Lower(whiteName) == Lower(username) then Ok(White)
    else if Lower(blackName) == Lower(username) then Ok(Black)
    else Err(UsernameNotFound)
  }

  /** Only the letters' case of the requested username matters. */
  lemma ResolveColourIgnoresCase(whiteName: string, blackName: string, username: string)
    ensures ResolveColour(whiteName, blackName, Lower(username)) == ResolveColour(whiteName, blackName, username)
  {
    LowerIdempotent(username);
  }
}
