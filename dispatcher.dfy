/** The dispatcher of ml/dispatcher_app.py: building the platform
    wrappers from the configuration, finding a wrapper by name, and
    handing an analysis request to it.  Loading a class from its dotted
    path and running its constructor are one function parameter, and a
    wrapper's own fetching is another. */
module Dispatcher {
  import opened Common

  /** A decoded configuration value. */
  datatype Json = Null | Bool(b: bool) | Int(i: int) | Str(s: string) | List(items: seq<Json>)

  /** Python truthiness of a configuration value. */
  predicate Truthy(v: Json)
  {
    match v
    case Null => false
    case Bool(b) => b
    case Int(i) => i != 0
    case Str(s) => s != ""
    case List(items) => items != []
  }

  /** One platform's configuration: a dict from keys to values. */
  type Config = map<string, Json>

  /** The application configuration; `platforms` may be absent. */
  datatype AppConfig = AppConfig(platforms: Option<seq<Config>>)

  /** A constructed platform wrapper, known by its name. */
  datatype Wrapper = Wrapper(name: string, config: Config)

  /** `platform_cfg.get("enabled", False)` taken as a condition. */
  predicate Enabled(c: Config)
  {
    "enabled" in c && Truthy(c["enabled"])
  }

  /** Loading the class named by a config's "class" value and calling it
      with the config: a missing key fails first. */
  function BuildOne(c: Config, construct: (Json, Config) -> Result<Wrapper>): (r: Result<Wrapper>)
    ensures "class" !in c ==> r == Err(MissingKey("class"))
    ensures "class" in c ==> r == construct(c["class"], c)
  {
    if "class" !in c then Err(MissingKey("class")) else construct(c["class"], c)
  }

  /** The wrappers of the enabled configs, in order; the first failure
      among them is the result. */
  function Build(cfgs: seq<Config>, construct: (Json, Config) -> Result<Wrapper>): Result<seq<Wrapper>>
  {
    if cfgs == [] then Ok([])
    else
      var c := cfgs[|cfgs| - 1];
      match Build(cfgs[..|cfgs| - 1], construct)
      case Err(e) => Err(e)
      case Ok(ws) =>
        if !Enabled(c) then Ok(ws)
        else match BuildOne(c, construct)
          case Err(e) => Err(e)
          case Ok(w) => Ok(ws + [w])
  }

  /** The enabled configs, in order. */
  function EnabledConfigs(cfgs: seq<Config>): (en: seq<Config>)
    ensures |en| <= |cfgs|
    ensures forall i :: 0 <= i < |en| ==> Enabled(en[i]) && en[i] in cfgs
    ensures forall c :: c in cfgs && Enabled(c) ==> c in en
  {
    if cfgs == [] then []
    else
      var init := EnabledConfigs(cfgs[..|cfgs| - 1]);
      assert forall c :: c in cfgs ==> c in cfgs[..|cfgs| - 1] || c == cfgs[|cfgs| - 1];
      if Enabled(cfgs[|cfgs| - 1]) then init + [cfgs[|cfgs| - 1]] else init
  }

  /** The enabled configs of a list are those of all but its last,
      followed by the last when it is enabled. */
  lemma EnabledConfigsSnoc(cfgs: seq<Config>)
    requires cfgs != []
    ensures var init := EnabledConfigs(cfgs[..|cfgs| - 1]);
      EnabledConfigs(cfgs) == if Enabled(cfgs[|cfgs| - 1]) then init + [cfgs[|cfgs| - 1]] else init
  {
  }

  /** All of the given configs build. */
  predicate AllBuild(en: seq<Config>, construct: (Json, Config) -> Result<Wrapper>)
  {
    forall i :: 0 <= i < |en| ==> BuildOne(en[i], construct).Ok?
  }

  /** The wrappers are those of the given configs, one each, in order. */
  predicate BuiltFrom(ws: seq<Wrapper>, en: seq<Config>, construct: (Json, Config) -> Result<Wrapper>)
    requires AllBuild(en, construct)
  {
    |ws| == |en| && forall i :: 0 <= i < |en| ==> ws[i] == BuildOne(en[i], construct).value
  }

  /** Build succeeds exactly when every enabled config builds. */
  lemma {:induction false} BuildSucceeds(cfgs: seq<Config>, construct: (Json, Config) -> Result<Wrapper>)
    ensures Build(cfgs, construct).Ok? <==> AllBuild(EnabledConfigs(cfgs), construct)
    decreases |cfgs|
  {
    if cfgs != [] {
      var init := cfgs[..|cfgs| - 1];
      var c := cfgs[|cfgs| - 1];
      var en := EnabledConfigs(init);
      BuildSucceeds(init, construct);
      EnabledConfigsSnoc(cfgs);
      if Enabled(c) {
        var en' := en + [c];
        assert forall i :: 0 <= i < |en| ==> en'[i] == en[i];
        assert en'[|en|] == c;
        if !AllBuild(en, construct) {
          var i :| 0 <= i < |en| && BuildOne(en[i], construct).Err?;
          assert BuildOne(en'[i], construct).Err?;
        }
      }
    }
  }

  /** A successful build yields one wrapper per enabled config, each built
      from that config. */
  lemma {:induction false} BuildYields(cfgs: seq<Config>, construct: (Json, Config) -> Result<Wrapper>)
    requires Build(cfgs, construct).Ok?
    ensures AllBuild(EnabledConfigs(cfgs), construct)
    ensures BuiltFrom(Build(cfgs, construct).value, EnabledConfigs(cfgs), construct)
    decreases |cfgs|
  {
    BuildSucceeds(cfgs, construct);
    if cfgs != [] {
      var init := cfgs[..|cfgs| - 1];
      var c := cfgs[|cfgs| - 1];
      var en := EnabledConfigs(init);
      BuildYields(init, construct);
      EnabledConfigsSnoc(cfgs);
      if Enabled(c) {
        var en' := en + [c];
        assert forall i :: 0 <= i < |en| ==> en'[i] == en[i];
        assert en'[|en|] == c;
        var ws := Build(init, construct).value + [BuildOne(c, construct).value];
        assert Build(cfgs, construct) == Ok(ws);
      }
    }
  }

  /** A failure is the failure of the earliest enabled config that does
      not build. */
  lemma {:induction false} BuildFailsAtFirst(cfgs: seq<Config>, construct: (Json, Config) -> Result<Wrapper>, k: nat)
    requires var en := EnabledConfigs(cfgs);
      k < |en| && BuildOne(en[k], construct).Err?
      && forall i :: 0 <= i < k ==> BuildOne(en[i], construct).Ok?
    ensures Build(cfgs, construct) == Err(BuildOne(EnabledConfigs(cfgs)[k], construct).error)
    decreases |cfgs|
  {
    var init := cfgs[..|cfgs| - 1];
    var en := EnabledConfigs(init);
    EnabledConfigsSnoc(cfgs);
    var all := EnabledConfigs(cfgs);
    assert forall i :: 0 <= i < |en| ==> all[i] == en[i];
    if k < |en| {
      BuildFailsAtFirst(init, construct, k);
    } else {
      BuildSucceeds(init, construct);
      assert AllBuild(en, construct);
    }
  }

  /** Disabled configs, including those without an "enabled" key, are
      never loaded: dropping them changes nothing. */
  lemma {:induction false} DisabledIgnored(cfgs: seq<Config>, construct: (Json, Config) -> Result<Wrapper>)
    ensures Build(cfgs, construct) == Build(EnabledConfigs(cfgs), construct)
    decreases |cfgs|
  {
    if cfgs != [] {
      var init := cfgs[..|cfgs| - 1];
      var c := cfgs[|cfgs| - 1];
      DisabledIgnored(init, construct);
      EnabledConfigsSnoc(cfgs);
      var en := EnabledConfigs(init);
      if Enabled(c) {
        var en' := en + [c];
        assert en'[..|en|] == en && en'[|en|] == c;
        assert Build(en', construct) == match Build(en, construct)
          case Err(e) => Err(e)
          case Ok(ws) => (match BuildOne(c, construct) case Err(e) => Err(e) case Ok(w) => Ok(ws + [w]));
      }
    }
  }

  /** The dispatcher: its wrappers, in configuration order. */
  datatype App = App(platforms: seq<Wrapper>)

  /** `DispatcherApp.start(config)`. */
  method Start(config: AppConfig, construct: (Json, Config) -> Result<Wrapper>) returns (r: Result<App>)
    ensures r.Ok? <==> Build(config.platforms.GetOr([]), construct).Ok?
    ensures r.Ok? ==> r.value.platforms == Build(config.platforms.GetOr([]), construct).value
    ensures r.Err? ==> r.error == Build(config.platforms.GetOr([]), construct).error
  {
    var platformsConfig := config.platforms.GetOr([]);
    var platforms: seq<Wrapper> := [];
    for i := 0 to |platformsConfig|
      invariant Build(platformsConfig[..i], construct) == Ok(platforms)
    {
      var platformCfg := platformsConfig[i];
      assert platformsConfig[..i + 1][..i] == platformsConfig[..i];
      if !Enabled(platformCfg) {
        continue;
      }
      if "class" !in platformCfg {
        assert Build(platformsConfig[..i + 1], construct) == Err(MissingKey("class"));
        BuildErrSticks(platformsConfig, i + 1, construct);
        return Err(MissingKey("class"));
      }
      var built := construct(platformCfg["class"], platformCfg);
      if built.Err? {
        BuildErrSticks(platformsConfig, i + 1, construct);
        return Err(built.error);
      }
      platforms := platforms + [built.value];
    }
    assert platformsConfig[..|platformsConfig|] == platformsConfig;
    r := Ok(App(platforms));
  }

  /** Once a prefix fails, the whole list fails the same way. */
  lemma {:induction false} BuildErrSticks(cfgs: seq<Config>, n: nat, construct: (Json, Config) -> Result<Wrapper>)
    requires n <= |cfgs| && Build(cfgs[..n], construct).Err?
    ensures Build(cfgs, construct) == Build(cfgs[..n], construct)
    decreases |cfgs| - n
  {
    if n < |cfgs| {
      assert cfgs[..n + 1][..n] == cfgs[..n];
      BuildErrSticks(cfgs, n + 1, construct);
    } else {
      assert cfgs[..n] == cfgs;
    }
  }

  /** `_find_platform_wrapper`: the first wrapper with that name. */
  function FindPlatformWrapper(platforms: seq<Wrapper>, platformName: string): (r: Result<Wrapper>)
    ensures r.Err? <==> forall i :: 0 <= i < |platforms| ==> platforms[i].name != platformName
    ensures r.Err? ==> r.error == NoPlatform(platformName)
    ensures r.Ok? ==> exists i :: (0 <= i < |platforms| && platforms[i] == r.value
      && r.value.name == platformName
      && forall j :: 0 <= j < i ==> platforms[j].name != platformName)
  {
    if platforms == [] then Err(NoPlatform(platformName))
    else if platforms[0].name == platformName then Ok(platforms[0])
    else
      var r := FindPlatformWrapper(platforms[1..], platformName);
      assert forall i :: 1 <= i < |platforms| ==> platforms[i] == platforms[1..][i - 1];
      if r.Ok? then
        var k :| 0 <= k < |platforms[1..]| && platforms[1..][k] == r.value
          && r.value.name == platformName
          && forall j :: 0 <= j < k ==> platforms[1..][j].name != platformName;
        assert platforms[k + 1] == r.value;
        r
      else r
  }

  /** The selection of games for one analysis. */
  datatype Query = Query(start: Option<int>, end: Option<int>, numberOfGames: Option<int>)

  /** The methods the platform wrappers have for fetching a player:
      `get_games_by_username` on both the chess.com and the Lichess
      wrapper. */
  const FetchMethods: set<string> := {"get_games_by_username"}

  /** Calling the named fetching method of a wrapper: a name it does not
      have raises AttributeError. */
  function CallFetch<P>(w: Wrapper, method_: string, username: string, q: Query,
                        getGames: (Wrapper, string, Query) -> Result<P>): (r: Result<P>)
    ensures method_ !in FetchMethods ==> r == Err(NoSuchAttribute(method_))
    ensures method_ in FetchMethods ==> r == getGames(w, username, q)
  {
    if method_ in FetchMethods then getGames(w, username, q) else Err(NoSuchAttribute(method_))
  }

  /** `analyse` as written: it asks the wrapper for
      `get_player_by_username`. */
  function AnalyseAsWritten<P>(app: App, username: string, platformName: string, q: Query,
                               getGames: (Wrapper, string, Query) -> Result<P>): Result<P>
  {
    match FindPlatformWrapper(app.platforms, platformName)
    case Err(e) => Err(e)
    case Ok(w) => CallFetch(w, "get_player_by_username", username, q, getGames)
  }

  /** As written, every analysis fails: without the platform as a
      ValueError, with it as an AttributeError. */
  lemma AnalyseAsWrittenAlwaysFails<P>(app: App, username: string, platformName: string, q: Query,
                                       getGames: (Wrapper, string, Query) -> Result<P>)
    ensures var r := AnalyseAsWritten(app, username, platformName, q, getGames);
      r.Err? && r.error in {NoPlatform(platformName), NoSuchAttribute("get_player_by_username")}
  {
    assert "get_player_by_username" !in FetchMethods;
  }

  /** `analyse` calling the method the wrappers have.  The player is
      returned where the source prints it. */
  function Analyse<P>(app: App, username: string, platformName: string, q: Query,
                      getGames: (Wrapper, string, Query) -> Result<P>): (r: Result<P>)
    ensures FindPlatformWrapper(app.platforms, platformName).Err? ==> r == Err(NoPlatform(platformName))
    ensures FindPlatformWrapper(app.platforms, platformName).Ok? ==>
      r == getGames(FindPlatformWrapper(app.platforms, platformName).value, username, q)
  {
    match FindPlatformWrapper(app.platforms, platformName)
    case Err(e) => Err(e)
    case Ok(w) => CallFetch(w, "get_games_by_username", username, q, getGames)
  }

  /** The platform is resolved before anything is fetched: with no
      wrapper of that name, the fetching function is never consulted. */
  lemma AnalyseResolvesFirst<P>(app: App, username: string, platformName: string, q: Query,
                                g1: (Wrapper, string, Query) -> Result<P>,
                                g2: (Wrapper, string, Query) -> Result<P>)
    requires forall i :: 0 <= i < |app.platforms| ==> app.platforms[i].name != platformName
    ensures Analyse(app, username, platformName, q, g1) == Analyse(app, username, platformName, q, g2)
  {
  }

  /** Only the chosen wrapper is asked: wrappers of other names do not
      change the outcome. */
  lemma AnalyseAsksOnlyTheChosen<P>(app: App, other: Wrapper, username: string, platformName: string, q: Query,
                                    getGames: (Wrapper, string, Query) -> Result<P>)
    requires other.name != platformName
    ensures Analyse(App(app.platforms + [other]), username, platformName, q, getGames)
         == Analyse(app, username, platformName, q, getGames)
  {
    var ps := app.platforms + [other];
    var r := FindPlatformWrapper(ps, platformName);
    if r.Ok? {
      var k :| 0 <= k < |ps| && ps[k] == r.value && r.value.name == platformName
        && forall j :: 0 <= j < k ==> ps[j].name != platformName;
      assert k < |app.platforms|;
      assert forall j :: 0 <= j < |app.platforms| ==> ps[j] == app.platforms[j];
      FirstNameWins(app.platforms, k, platformName);
    } else {
      assert forall j :: 0 <= j < |app.platforms| ==> ps[j] == app.platforms[j];
    }
  }

  /** The wrapper chosen is the first of that name, whatever follows it. */
  lemma FirstNameWins(platforms: seq<Wrapper>, i: nat, platformName: string)
    requires i < |platforms| && platforms[i].name == platformName
    requires forall k :: 0 <= k < i ==> platforms[k].name != platformName
    ensures FindPlatformWrapper(platforms, platformName) == Ok(platforms[i])
  {
    var r := FindPlatformWrapper(platforms, platformName);
    var k :| 0 <= k < |platforms| && platforms[k] == r.value && r.value.name == platformName
      && forall m :: 0 <= m < k ==> platforms[m].name != platformName;
    assert k == i;
  }
}
