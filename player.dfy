/** The player of common_objects/player.py: six speed categories, each a
    dictionary from game id to game.  A Python dict remembers insertion
    order and an assignment to an existing key keeps that key's place, so
    a category is modelled as a sequence of games with distinct ids. */
module PlayerModel {
  import opened Common
  import opened GameModel

  // ---------------------------------------------------------------------
  // One category: an insertion-ordered dictionary keyed by game id

  predicate UniqueIds(d: seq<Game>)
  {
    forall i, j :: 0 <= i < j < |d| ==> d[i].id != d[j].id
  }

  function Ids(d: seq<Game>): (r: seq<string>)
    ensures |r| == |d|
    ensures forall i :: 0 <= i < |d| ==> r[i] == d[i].id
  {
    if d == [] then [] else [d[0].id] + Ids(d[1..])
  }

  /** The position of key `id`, if present. */
  function IndexOf(d: seq<Game>, id: string): (r: Option<nat>)
    ensures r.Some? ==> r.value < |d| && d[r.value].id == id
    ensures r.Some? ==> forall j :: 0 <= j < r.value ==> d[j].id != id
    ensures r.None? ==> forall j :: 0 <= j < |d| ==> d[j].id != id
  {
    if d == [] then None
    else if d[0].id == id then Some(0)
    else match IndexOf(d[1..], id)
      case None => None
      case Some(k) => Some(k + 1)
  }

  /** `id in d` and `d[id]`. */
  function Get(d: seq<Game>, id: string): Option<Game>
  {
    match IndexOf(d, id)
    case Some(k) => Some(d[k])
    case None => None
  }

  /** `d[g.id] = g`: an existing key keeps its place, a new key goes last. */
  function Put(d: seq<Game>, g: Game): (r: seq<Game>)
    ensures |d| <= |r| <= |d| + 1
  {
    match IndexOf(d, g.id)
    case Some(k) => d[k := g]
    case None => d + [g]
  }

  /** After `d[g.id] = g` the key maps to g, every other key to what it
      mapped to before, the key order is kept with a new key appended,
      and keys stay distinct. */
  lemma PutSemantics(d: seq<Game>, g: Game)
    ensures Get(Put(d, g), g.id) == Some(g)
    ensures forall id :: id != g.id ==> Get(Put(d, g), id) == Get(d, id)
    ensures Ids(Put(d, g)) == if Get(d, g.id).Some? then Ids(d) else Ids(d) + [g.id]
    ensures UniqueIds(d) ==> UniqueIds(Put(d, g))
  {
    match IndexOf(d, g.id)
    case Some(k) =>
      var r := d[k := g];
      assert IndexOf(r, g.id) == Some(k) by { IndexOfUpdate(d, k, g, g.id); }
      forall id | id != g.id ensures Get(r, id) == Get(d, id) {
        IndexOfUpdate(d, k, g, id);
      }
    case None =>
      var r := d + [g];
      assert IndexOf(r, g.id) == Some(|d|) by { IndexOfAppend(d, g, g.id); }
      forall id | id != g.id ensures Get(r, id) == Get(d, id) {
        IndexOfAppend(d, g, id);
      }
  }

  lemma {:induction false} IndexOfUpdate(d: seq<Game>, k: nat, g: Game, id: string)
    requires k < |d| && d[k].id == g.id
    ensures IndexOf(d[k := g], id) == IndexOf(d, id)
  {
    if d != [] && d[0].id != id {
      if k > 0 {
        assert d[k := g][1..] == d[1..][k - 1 := g];
        IndexOfUpdate(d[1..], k - 1, g, id);
      } else {
        assert d[k := g][1..] == d[1..];
      }
    }
  }

  lemma {:induction false} IndexOfAppend(d: seq<Game>, g: Game, id: string)
    ensures IndexOf(d + [g], id) ==
      if IndexOf(d, id).Some? then IndexOf(d, id) else if g.id == id then Some(|d|) else None
  {
    if d != [] && d[0].id != id {
      assert (d + [g])[1..] == d[1..] + [g];
      IndexOfAppend(d[1..], g, id);
    }
  }

  // ---------------------------------------------------------------------
  // The six categories

  /** The category attribute names, in the order `get_game_on_id` searches them. */
  const CategoryNames: seq<string> :=
    ["ultraBullet", "bullet", "blitz", "rapid", "classical", "correspondence"]

  /** The speeds `_get_speed_dict` accepts; "ultraBullet" is not one of them. */
  const FilingSpeeds: set<string> := {"bullet", "blitz", "rapid", "classical", "correspondence"}

  /** The position of a category name in `CategoryNames`. */
  function CategoryIndex(name: string): (r: Option<nat>)
    ensures r.Some? ==> r.value < 6 && CategoryNames[r.value] == name
    ensures r.None? ==> name !in CategoryNames
    ensures name in FilingSpeeds <==> r.Some? && r.value > 0
  {
    if name == "ultraBullet" then Some(0)
    else if name == "bullet" then Some(1)
    else if name == "blitz" then Some(2)
    else if name == "rapid" then Some(3)
    else if name == "classical" then Some(4)
    else if name == "correspondence" then Some(5)
    else None
  }

  datatype Categories = Categories(
    ultraBullet: seq<Game>,
    bullet: seq<Game>,
    blitz: seq<Game>,
    rapid: seq<Game>,
    classical: seq<Game>,
    correspondence: seq<Game>)
  {
    /** `getattr(self, CategoryNames[k])`. */
    function At(k: nat): seq<Game>
      requires k < 6
    {
      match k
      case 0 => ultraBullet
      case 1 => bullet
      case 2 => blitz
      case 3 => rapid
      case 4 => classical
      case _ => correspondence
    }

    /** The same categories with category k replaced by d. */
    function With(k: nat, d: seq<Game>): (r: Categories)
      requires k < 6
      ensures r.At(k) == d
      ensures forall j :: 0 <= j < 6 && j != k ==> r.At(j) == At(j)
    {
      match k
      case 0 => this.(ultraBullet := d)
      case 1 => this.(bullet := d)
      case 2 => this.(blitz := d)
      case 3 => this.(rapid := d)
      case 4 => this.(classical := d)
      case _ => this.(correspondence := d)
    }

    /** `_get_speed_dict(speed)`. */
    function SpeedDict(speed: string): (r: Result<seq<Game>>)
      ensures r.Ok? <==> speed in FilingSpeeds
      ensures r.Ok? ==> r.value == At(CategoryIndex(speed).value)
      ensures r.Err? ==> r.error == UnknownSpeed(speed)
    {
      if speed in FilingSpeeds then Ok(At(CategoryIndex(speed).value)) else Err(UnknownSpeed(speed))
    }

    /** `add_game(g)`: file g under its own speed, keyed by its id. */
    function AddGame(g: Game): (r: Result<Categories>)
      ensures r.Err? <==> g.speed !in FilingSpeeds
      ensures r.Err? ==> r.error == UnknownSpeed(g.speed)
      ensures r.Ok? ==> var k := CategoryIndex(g.speed).value;
        && r.value.At(k) == Put(At(k), g)
        && forall j :: 0 <= j < 6 && j != k ==> r.value.At(j) == At(j)
    {
      if g.speed in FilingSpeeds then
        var k := CategoryIndex(g.speed).value;
        Ok(With(k, Put(At(k), g)))
      else Err(UnknownSpeed(g.speed))
    }

    /** The first category, from category `from` on, that holds `id`. */
    function FirstCategoryWith(id: string, from: nat): (r: Option<nat>)
      requires from <= 6
      ensures r.Some? ==> from <= r.value < 6 && Get(At(r.value), id).Some?
      ensures r.Some? ==> forall j :: from <= j < r.value ==> Get(At(j), id).None?
      ensures r.None? ==> forall j :: from <= j < 6 ==> Get(At(j), id).None?
      decreases 6 - from
    {
      if from == 6 then None
      else if Get(At(from), id).Some? then Some(from)
      else FirstCategoryWith(id, from + 1)
    }

    /** `get_game_on_id(id)`. */
    function Lookup(id: string): Result<Game>
    {
      match FirstCategoryWith(id, 0)
      case Some(k) => Ok(Get(At(k), id).value)
      case None => Err(GameNotFound(id))
    }

    /** Every game sits in the category named by its own speed, and no id
        occurs twice within a category. */
    ghost predicate WellFiled()
    {
      forall k :: 0 <= k < 6 ==>
        && UniqueIds(At(k))
        && forall i :: 0 <= i < |At(k)| ==> At(k)[i].speed == CategoryNames[k]
    }
  }

  function Empty(): (r: Categories)
    ensures forall k :: 0 <= k < 6 ==> r.At(k) == []
  {
    Categories([], [], [], [], [], [])
  }

  /** The outcome of `add_games`: the categories afterwards and the error
      that stopped it, if any. */
  datatype AddAllOutcome = AddAllOutcome(state: Categories, error: Option<Error>)

  /** `add_games(gs)`: add in list order; the first failure propagates and
      leaves the games before it added. */
  function AddAll(s: Categories, gs: seq<Game>): AddAllOutcome
    decreases |gs|
  {
    if gs == [] then AddAllOutcome(s, None)
    else match s.AddGame(gs[0])
      case Err(e) => AddAllOutcome(s, Some(e))
      case Ok(s') => AddAll(s', gs[1..])
  }

  // ---------------------------------------------------------------------
  // Properties

  lemma EmptyWellFiled()
    ensures Empty().WellFiled()
  {
  }

  lemma PutKeepsSpeed(d: seq<Game>, g: Game, speed: string)
    requires forall i :: 0 <= i < |d| ==> d[i].speed == speed
    requires g.speed == speed
    ensures forall i :: 0 <= i < |Put(d, g)| ==> Put(d, g)[i].speed == speed
  {
  }

  /** Filing a game keeps every game under its own speed. */
  lemma AddGameWellFiled(s: Categories, g: Game)
    requires s.WellFiled()
    requires s.AddGame(g).Ok?
    ensures s.AddGame(g).value.WellFiled()
  {
    var k := CategoryIndex(g.speed).value;
    var t := s.AddGame(g).value;
    PutKeepsSpeed(s.At(k), g, g.speed);
    PutSemantics(s.At(k), g);
    forall j | 0 <= j < 6
      ensures UniqueIds(t.At(j))
      ensures forall i :: 0 <= i < |t.At(j)| ==> t.At(j)[i].speed == CategoryNames[j]
    {
      if j == k {
        assert t.At(j) == Put(s.At(k), g);
      }
    }
  }

  /** After a successful `add_game(g)`, `get_game_on_id(g.id)` succeeds,
      and it returns g itself unless an earlier category already holds a
      game with that id. */
  lemma AddGameThenLookup(s: Categories, g: Game)
    requires s.AddGame(g).Ok?
    ensures s.AddGame(g).value.Lookup(g.id).Ok?
    ensures (forall j :: 0 <= j < CategoryIndex(g.speed).value ==> Get(s.At(j), g.id).None?)
      ==> s.AddGame(g).value.Lookup(g.id) == Ok(g)
  {
    var k := CategoryIndex(g.speed).value;
    var t := s.AddGame(g).value;
    PutSemantics(s.At(k), g);
    assert Get(t.At(k), g.id) == Some(g);
    var f := t.FirstCategoryWith(g.id, 0);
    assert f.Some? && f.value <= k;
    if forall j :: 0 <= j < k ==> Get(s.At(j), g.id).None? {
      assert f.value == k;
    }
  }

  /** Adding a list whose speeds are all filing speeds raises nothing, and
      adding a longer list goes on from where that one ended. */
  lemma {:induction false} AddAllPrefix(s: Categories, gs: seq<Game>, i: nat)
    requires i <= |gs|
    requires forall j :: 0 <= j < i ==> gs[j].speed in FilingSpeeds
    ensures AddAll(s, gs[..i]).error == None
    ensures AddAll(s, gs) == AddAll(AddAll(s, gs[..i]).state, gs[i..])
    decreases i
  {
    if i == 0 {
      assert gs[..0] == [];
      assert gs[0..] == gs;
    } else {
      var r := s.AddGame(gs[0]);
      assert r.Ok?;
      var tail := gs[1..];
      assert gs[..i][0] == gs[0];
      assert gs[..i][1..] == tail[..i - 1];
      assert tail[i - 1..] == gs[i..];
      assert AddAll(s, gs) == AddAll(r.value, tail);
      assert AddAll(s, gs[..i]) == AddAll(r.value, tail[..i - 1]);
      AddAllPrefix(r.value, tail, i - 1);
    }
  }

  /** `add_games` stops at the first game whose speed is not a filing
      speed: the games before it stay added and the error names its speed. */
  lemma AddAllStopsAtFirstFailure(s: Categories, gs: seq<Game>, i: nat)
    requires i < |gs|
    requires forall j :: 0 <= j < i ==> gs[j].speed in FilingSpeeds
    requires gs[i].speed !in FilingSpeeds
    ensures AddAll(s, gs) == AddAllOutcome(AddAll(s, gs[..i]).state, Some(UnknownSpeed(gs[i].speed)))
  {
    AddAllPrefix(s, gs, i);
  }

  /** Without an unknown speed, `add_games` raises nothing. */
  lemma AddAllSucceeds(s: Categories, gs: seq<Game>)
    requires forall j :: 0 <= j < |gs| ==> gs[j].speed in FilingSpeeds
    ensures AddAll(s, gs).error == None
  {
    AddAllPrefix(s, gs, |gs|);
    assert gs[..|gs|] == gs;
  }

  /** Nothing stops one id from being filed under two speeds: the same id
      with two different speeds lands in two categories. */
  lemma IdMayRepeatAcrossSpeeds(g1: Game, g2: Game)
    requires g1.id == g2.id && g1.speed == "blitz" && g2.speed == "rapid"
    ensures Empty().AddGame(g1).Ok?
    ensures Empty().AddGame(g1).value.AddGame(g2).Ok?
    ensures var t := Empty().AddGame(g1).value.AddGame(g2).value;
      Get(t.blitz, g1.id) == Some(g1) && Get(t.rapid, g1.id) == Some(g2)
  {
    var t1 := Empty().AddGame(g1).value;
    var t := t1.AddGame(g2).value;
    assert t1.At(2) == Put([], g1);
    assert t.At(3) == Put(t1.At(3), g2);
    PutSemantics([], g1);
    PutSemantics(t1.At(3), g2);
    assert t.At(2) == t1.At(2);
  }

  // ---------------------------------------------------------------------
  // The mutable player

  class Player {
    const username: string
    var ultraBullet: seq<Game>
    var bullet: seq<Game>
    var blitz: seq<Game>
    var rapid: seq<Game>
    var classical: seq<Game>
    var correspondence: seq<Game>

    /** The six dictionaries as one value. */
    function State(): Categories
      reads this
    {
      Categories(ultraBullet, bullet, blitz, rapid, classical, correspondence)
    }

    /** `Player(username)`: all six categories start empty. */
    constructor (username: string)
      ensures this.username == username
      ensures State() == Empty()
    {
      this.username := username;
      ultraBullet, bullet, blitz, rapid, classical, correspondence := [], [], [], [], [], [];
    }

    /** Replace the dictionary of category k. */
    method SetCategory(k: nat, d: seq<Game>)
      requires k < 6
      modifies this
      ensures State() == old(State()).With(k, d)
    {
      match k
      case 0 => ultraBullet := d;
      case 1 => bullet := d;
      case 2 => blitz := d;
      case 3 => rapid := d;
      case 4 => classical := d;
      case _ => correspondence := d;
    }

    /** `add_game(g)`; the error is the ValueError it raises for an
        unknown speed, in which case nothing changes. */
    method AddGame(g: Game) returns (err: Option<Error>)
      modifies this
      ensures old(State()).AddGame(g).Ok? ==> err.None? && State() == old(State()).AddGame(g).value
      ensures old(State()).AddGame(g).Err? ==> err == Some(UnknownSpeed(g.speed)) && State() == old(State())
    {
      var dict := State().SpeedDict(g.speed);
      if dict.Err? {
        return Some(dict.error);
      }
      var k := CategoryIndex(g.speed).value;
      SetCategory(k, Put(dict.value, g));
      err := None;
    }

    /** `add_games(gs)`: add in order, stop at the first failure. */
    method AddGames(gs: seq<Game>) returns (err: Option<Error>)
      modifies this
      ensures State() == AddAll(old(State()), gs).state
      ensures err == AddAll(old(State()), gs).error
    {
      var i := 0;
      while i < |gs|
        invariant 0 <= i <= |gs|
        invariant AddAll(old(State()), gs) == AddAll(State(), gs[i..])
      {
        assert gs[i..][1..] == gs[i + 1..];
        var e := AddGame(gs[i]);
        if e.Some? {
          return e;
        }
        i := i + 1;
      }
      err := None;
    }

    /** `get_game_on_id(id)`: search the categories in order and return
        the entry of the first one holding the id. */
    method GetGameOnId(id: string) returns (r: Result<Game>)
      ensures r == State().Lookup(id)
      ensures r.Ok? ==> r.value.id == id
    {
      var k := 0;
      while k < 6
        invariant 0 <= k <= 6
        invariant State().FirstCategoryWith(id, 0) == State().FirstCategoryWith(id, k)
      {
        var dict := State().At(k);
        var found := IndexOf(dict, id);
        if found.Some? {
          return Ok(dict[found.value]);
        }
        k := k + 1;
      }
      r := Err(GameNotFound(id));
    }

    /** `get_games_on_speed(speed)`: the games of that category in
        insertion order, or the unknown-speed error. */
    method GetGamesOnSpeed(speed: string) returns (r: Result<seq<Game>>)
      ensures r.Ok? <==> speed in FilingSpeeds
      ensures r.Ok? ==> r.value == State().At(CategoryIndex(speed).value)
      ensures r.Err? ==> r.error == UnknownSpeed(speed)
    {
      r := State().SpeedDict(speed);
    }
  }
}
