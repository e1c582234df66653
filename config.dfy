/**
 * The agent's configuration, derived once from the process environment:
 * loop duration, scenario and user names, language, storage and log
 * locations, browser command-line options and the optional proxy.
 */
module Configuration {
  import opened Wrappers
  import opened Values
  import opened Numbers

  /** The process environment, as `os.getenv` sees it. */
  type Environ = map<string, string>

  /** The fixed browser options every run starts with, in order. */
  const BrowserOptions: seq<string> := [
    "--headless=new",
    "--incognito",
    "--disable-notifications",
    "--disable-infobars",
    "--disable-popup-blocking",
    "--disable-gpu",
    "--log-level=3",
    "--disable-search-engine-choice-screen",
    "--no-default-browser-check",
    "--allow-running-insecure-content",
    "--no-service-autorun",
    "--no-first-run",
    "--enable-features=protocolMonitor"
  ]

  const WindowOptions: seq<string> := ["--window-position=0,0", "--window-size=500,860"]

  const ProxyOptionPrefix: string := "--proxy-server="

  /** `os.getenv(name, default)`. */
  function GetEnv(env: Environ, name: string, default: string): (r: string)
    ensures name in env ==> r == env[name]
    ensures name !in env ==> r == default
  {
    if name in env then env[name] else default
  }

  /**
   * `int(os.getenv(name, str(default)))`: the variable read as an int, the
   * default when it is unset, ValueError when it is set to something that
   * is not an int.
   */
  function GetEnvAsInt(env: Environ, name: string, default: int): (r: Result<int, Exception>)
    ensures name !in env ==> r == Ok(default)
    ensures name in env && ParseInt(env[name]).Some? ==> r == Ok(ParseInt(env[name]).value)
    ensures name in env && ParseInt(env[name]).None? ==> r == Err(ValueError)
  {
    ParseIntOfString(default);
    match ParseInt(GetEnv(env, name, IntToString(default)))
    case Some(n) => Ok(n)
    case None => Err(ValueError)
  }

  /**
   * `os.path.join(a, b)` on POSIX: an absolute `b` replaces `a`; otherwise
   * `b` is appended, with a '/' in between unless `a` is empty or already
   * ends in one.
   */
  function PathJoin(a: string, b: string): (r: string)
    ensures |b| > 0 && b[0] == '/' ==> r == b
    ensures (|b| == 0 || b[0] != '/') && (a == "" || a[|a| - 1] == '/') ==> r == a + b
    ensures (|b| == 0 || b[0] != '/') && a != "" && a[|a| - 1] != '/' ==> r == a + "/" + b
    ensures b <= r || a <= r
  {
    if |b| > 0 && b[0] == '/' then b
    else if a == "" || a[|a| - 1] == '/' then a + b
    else a + "/" + b
  }

  /** The storage directory: STORAGE_PATH, or scenario/user when it is unset. */
  function SetupStoragePath(env: Environ, scenarioName: string, userName: string): (r: string)
    ensures "STORAGE_PATH" in env ==> r == env["STORAGE_PATH"]
    ensures "STORAGE_PATH" !in env ==> r == PathJoin(scenarioName, userName)
  {
    GetEnv(env, "STORAGE_PATH", PathJoin(scenarioName, userName))
  }

  /** The window placement options followed by the fixed browser options; no proxy option among them. */
  function SetupBrowserOptions(): (r: seq<string>)
    ensures |r| == |WindowOptions| + |BrowserOptions|
    ensures r[..|WindowOptions|] == WindowOptions && r[|WindowOptions|..] == BrowserOptions
    ensures forall i :: 0 <= i < |r| ==> !(ProxyOptionPrefix <= r[i])
  {
    var r := WindowOptions + BrowserOptions;
    // Every option differs from the proxy option in its third character.
    assert forall i :: 0 <= i < |r| ==> |r[i]| > 2 && r[i][2] != ProxyOptionPrefix[2];
    r
  }

  /** PROXY_SERVER when it is set to a non-empty string; unset and empty both mean no proxy. */
  function ProxyServer(env: Environ): (r: Option<string>)
    ensures r.Some? <==> "PROXY_SERVER" in env && env["PROXY_SERVER"] != ""
    ensures r.Some? ==> r.value == env["PROXY_SERVER"]
  {
    if "PROXY_SERVER" in env && env["PROXY_SERVER"] != "" then Some(env["PROXY_SERVER"]) else None
  }

  /** `os.getenv(name, None)`. */
  function Lookup(env: Environ, name: string): (r: Option<string>)
    ensures r.Some? <==> name in env
    ensures r.Some? ==> r.value == env[name]
  {
    if name in env then Some(env[name]) else None
  }

  /** With none of the variables set, every setting takes its default. */
  lemma DefaultEnvironment(env: Environ)
    requires "LOOP_DURATION" !in env && "SCENARIO_NAME" !in env && "USER_NAME" !in env && "LANGUAGE" !in env
    requires "STORAGE_PATH" !in env && "PROXY_SERVER" !in env
    ensures GetEnvAsInt(env, "LOOP_DURATION", 100) == Ok(100)
    ensures GetEnv(env, "SCENARIO_NAME", "default_scenario") == "default_scenario"
    ensures GetEnv(env, "USER_NAME", "default_user") == "default_user"
    ensures GetEnv(env, "LANGUAGE", "en-US") == "en-US"
    ensures SetupStoragePath(env, "default_scenario", "default_user") == "default_scenario/default_user"
    ensures ProxyServer(env) == None
  {
    assert PathJoin("default_scenario", "default_user") == "default_scenario" + "/" + "default_user";
  }

  /** Each variable set overrides its default; LOOP_DURATION is read as an int. */
  lemma OverridingEnvironment(env: Environ)
    requires env == map[
      "LOOP_DURATION" := "120", "SCENARIO_NAME" := "test_scenario", "USER_NAME" := "test_user",
      "LANGUAGE" := "fr-FR", "STORAGE_PATH" := "/tmp/test_storage", "LOG_FILE" := "/tmp/test_storage/test.log",
      "PROXY_SERVER" := "http://proxy.server:8080"]
    ensures GetEnvAsInt(env, "LOOP_DURATION", 100) == Ok(120)
    ensures GetEnv(env, "SCENARIO_NAME", "default_scenario") == "test_scenario"
    ensures GetEnv(env, "USER_NAME", "default_user") == "test_user"
    ensures GetEnv(env, "LANGUAGE", "en-US") == "fr-FR"
    ensures SetupStoragePath(env, "test_scenario", "test_user") == "/tmp/test_storage"
    ensures ProxyServer(env) == Some("http://proxy.server:8080")
  {
    ParseIntOfString(120);
    assert IntToString(120) == "120";
  }

  /**
   * The configuration built from the environment of the agent's
   * configuration tests: every setting, the log file and the proxy option
   * come from the variables, and `to_dict` reports the same values.
   */
  method ConfigForTestEnvironment(now: real) returns (c: Config)
    ensures c.loopDuration == 120 && c.scenarioName == "test_scenario" && c.userName == "test_user"
    ensures c.lang == "fr-FR" && c.storagePath == "/tmp/test_storage"
    ensures c.logFile == LogFileFromEnv("/tmp/test_storage/test.log")
    ensures ProxyOptionPrefix + "http://proxy.server:8080" in c.browserOptions
    ensures var d := c.ToDict();
      d["loop_duration"] == IntSetting(120) && d["scenario_name"] == TextSetting("test_scenario") &&
      d["user_name"] == TextSetting("test_user") && d["lang"] == TextSetting("fr-FR") &&
      d["storage_path"] == TextSetting("/tmp/test_storage") &&
      d["log_file"] == LogSetting(LogFileFromEnv("/tmp/test_storage/test.log")) &&
      ProxyOptionPrefix + "http://proxy.server:8080" in d["browser_options"].options
  {
    var env: Environ := map[
      "LOOP_DURATION" := "120", "SCENARIO_NAME" := "test_scenario", "USER_NAME" := "test_user",
      "LANGUAGE" := "fr-FR", "STORAGE_PATH" := "/tmp/test_storage", "LOG_FILE" := "/tmp/test_storage/test.log",
      "PROXY_SERVER" := "http://proxy.server:8080"];
    OverridingEnvironment(env);
    var option := ProxyOptionPrefix + "http://proxy.server:8080";
    c := new Config(env, now);
    assert c.browserOptions == SetupBrowserOptions() + [option];
    assert c.browserOptions[|c.browserOptions| - 1] == option;
  }

  /**
   * The configuration built with none of its variables set, as in the
   * agent's default-value test: every setting takes its default, the log
   * file is named in the storage directory, and no proxy option is added.
   */
  method ConfigForDefaultEnvironment(now: real) returns (c: Config)
    ensures c.loopDuration == 100 && c.scenarioName == "default_scenario" && c.userName == "default_user"
    ensures c.lang == "en-US" && c.storagePath == "default_scenario/default_user"
    ensures c.logFile == TimestampedLog(c.storagePath, now)
    ensures c.proxy == NoProxy && forall i :: 0 <= i < |c.browserOptions| ==> !(ProxyOptionPrefix <= c.browserOptions[i])
  {
    var env: Environ := map[];
    DefaultEnvironment(env);
    c := new Config(env, now);
  }

  /** Where the log goes: LOG_FILE, or a file in the storage directory named after the start time. */
  datatype LogFile = LogFileFromEnv(path: string) | TimestampedLog(directory: string, createdAt: real)

  /** `False` when no proxy is configured, otherwise its server and credentials. */
  datatype Proxy = NoProxy | Proxy(server: string, username: Option<string>, password: Option<string>)

  /** A value in the dictionary `to_dict` returns. */
  datatype Setting =
    | IntSetting(i: int)
    | TextSetting(s: string)
    | OptionsSetting(options: seq<string>)
    | LogSetting(log: LogFile)
    | ProxySetting(proxy: Proxy)

  class Config {
    var loopDuration: int
    var scenarioName: string
    var userName: string
    var lang: string
    var storagePath: string
    var logFile: LogFile
    var browserOptions: seq<string>
    var proxy: Proxy

    /**
     * `Config()`: every setting from its environment variable or its
     * default, in the source's order; `now` is the clock reading the default
     * log file name embeds. The source raises ValueError when LOOP_DURATION
     * is not an int and then no configuration exists: that case is
     * `GetEnvAsInt`'s error result.
     */
    constructor (env: Environ, now: real)
      requires GetEnvAsInt(env, "LOOP_DURATION", 100).Ok?
      ensures loopDuration == GetEnvAsInt(env, "LOOP_DURATION", 100).value
      ensures "LOOP_DURATION" !in env ==> loopDuration == 100
      ensures scenarioName == GetEnv(env, "SCENARIO_NAME", "default_scenario")
      ensures userName == GetEnv(env, "USER_NAME", "default_user")
      ensures lang == GetEnv(env, "LANGUAGE", "en-US")
      ensures storagePath == SetupStoragePath(env, scenarioName, userName)
      ensures logFile == if "LOG_FILE" in env then LogFileFromEnv(env["LOG_FILE"]) else TimestampedLog(storagePath, now)
      ensures ProxyServer(env).None? ==>
        browserOptions == SetupBrowserOptions() && proxy == NoProxy &&
        forall i :: 0 <= i < |browserOptions| ==> !(ProxyOptionPrefix <= browserOptions[i])
      ensures ProxyServer(env).Some? ==>
        browserOptions == SetupBrowserOptions() + [ProxyOptionPrefix + ProxyServer(env).value] &&
        proxy == Proxy(ProxyServer(env).value, Lookup(env, "PROXY_USERNAME"), Lookup(env, "PROXY_PASSWORD"))
    {
      loopDuration := GetEnvAsInt(env, "LOOP_DURATION", 100).value;
      var scenario := GetEnv(env, "SCENARIO_NAME", "default_scenario");
      var user := GetEnv(env, "USER_NAME", "default_user");
      scenarioName := scenario;
      userName := user;
      lang := GetEnv(env, "LANGUAGE", "en-US");
      var storage := SetupStoragePath(env, scenario, user);
      storagePath := storage;
      logFile := if "LOG_FILE" in env then LogFileFromEnv(env["LOG_FILE"]) else TimestampedLog(storage, now);
      browserOptions := SetupBrowserOptions();
      proxy := NoProxy;
      new;
      SetupProxy(env);
    }

    /**
     * `_setup_proxy`: with a proxy server configured, appends its option
     * to the browser options and records server and credentials; otherwise
     * changes nothing.
     */
    method SetupProxy(env: Environ)
      modifies this`browserOptions, this`proxy
      ensures ProxyServer(env).None? ==> browserOptions == old(browserOptions) && proxy == old(proxy)
      ensures ProxyServer(env).Some? ==>
        browserOptions == old(browserOptions) + [ProxyOptionPrefix + ProxyServer(env).value] &&
        proxy == Proxy(ProxyServer(env).value, Lookup(env, "PROXY_USERNAME"), Lookup(env, "PROXY_PASSWORD"))
    {
      var server := ProxyServer(env);
      if server.Some? {
        browserOptions := browserOptions + [ProxyOptionPrefix + server.value];
        var username := Lookup(env, "PROXY_USERNAME");
        var password := Lookup(env, "PROXY_PASSWORD");
        proxy := Proxy(server.value, username, password);
      }
    }

    /** `to_dict`: exactly the eight settings, each with the attribute's value. */
    function ToDict(): (d: map<string, Setting>)
      reads this
      ensures d.Keys == {"loop_duration", "scenario_name", "user_name", "browser_options", "lang", "storage_path", "log_file", "proxy"}
      ensures d["loop_duration"] == IntSetting(loopDuration)
      ensures d["scenario_name"] == TextSetting(scenarioName) && d["user_name"] == TextSetting(userName)
      ensures d["browser_options"] == OptionsSetting(browserOptions) && d["lang"] == TextSetting(lang)
      ensures d["storage_path"] == TextSetting(storagePath) && d["log_file"] == LogSetting(logFile)
      ensures d["proxy"] == ProxySetting(proxy)
    {
      map[
        "loop_duration" := IntSetting(loopDuration),
        "scenario_name" := TextSetting(scenarioName),
        "user_name" := TextSetting(userName),
        "browser_options" := OptionsSetting(browserOptions),
        "lang" := TextSetting(lang),
        "storage_path" := TextSetting(storagePath),
        "log_file" := LogSetting(logFile),
        "proxy" := ProxySetting(proxy)
      ]
    }
  }
}
