/** Values shared by every component: optional values, results with the
    error kinds the Python code raises, and the two colours. */
module Common {

  datatype Option<+T> = None | Some(value: T)
  {
    /** `d.get(key, default)` once the key's presence is decoded as an Option. */
    function GetOr(default: T): T
    {
      if Some? then value else default
    }
  }

  /** Every exception the modelled code raises, by cause.  The Python
      exception class is given in each comment. */
  datatype Error =
    | UnknownSpeed(speed: string)         // ValueError in Player._get_speed_dict
    | GameNotFound(id: string)            // KeyError in Player.get_game_on_id
    | MissingKey(key: string)             // KeyError on dict[key]
    | InvalidPgn                          // ValueError: no header separator in a PGN
    | NotANumber(text: string)            // ValueError from int() or float()
    | UsernameNotFound                    // ValueError: user plays neither colour
    | ConflictingSelector                 // ValueError: game count together with a time range
    | LengthMismatch                      // AssertionError / ValueError: columns of different lengths
    | NoPlatform(name: string)            // ValueError: no wrapper with that name
    | ConstructorFailed(reason: string)   // whatever a platform constructor raises
    | NoSuchAttribute(name: string)       // AttributeError: the object has no such method
    | UnexpectedArgument(name: string)    // TypeError: a call passes a keyword the callee does not take

  datatype Result<+T> = Ok(value: T) | Err(error: Error)

  datatype Colour = White | Black

  function Opposite(c: Colour): (r: Colour)
    ensures r != c
  {
    match c
    case White => Black
    case Black => White
  }

  /** Python truthiness of an optional integer argument such as
      `number_of_games`: None and 0 are false. */
  predicate TruthyInt(n: Option<int>)
  {
    n.Some? && n.value != 0
  }
}
