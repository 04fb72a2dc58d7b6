/** The MCP server manager of `engine/mcp_manager.py`: which configured tool
    servers are launched, with which command line and environment, and the
    session table and status rows that follow. Connecting over stdio is an
    input: the set of server names whose start succeeds. */
module McpManager {
  import opened Common

  /** One entry of `config['servers']`; absent keys take the defaults of the
      `cfg.get` calls (not enabled, no auto start, no args, no env). */
  datatype ServerConfig = ServerConfig(
    enabled: bool, autoStart: bool, command: Option<string>, args: seq<string>, env: map<string, string>)

  /** `config['servers']` as its items, in dictionary order. */
  datatype ServerEntry = ServerEntry(name: string, cfg: ServerConfig)

  /** The parts of `StdioServerParameters` a launch is made of. */
  datatype Launch = Launch(name: string, command: Option<string>, args: seq<string>, env: map<string, string>)

  /** One row of `get_status`. */
  datatype StatusRow = StatusRow(name: string, status: string, detail: string)

  function Filter<T>(xs: seq<T>, keep: T -> bool): (r: seq<T>)
    ensures |r| <= |xs|
    ensures forall i :: 0 <= i < |r| ==> r[i] in xs && keep(r[i])
    ensures forall i :: 0 <= i < |xs| && keep(xs[i]) ==> xs[i] in r
  {
    if xs == [] then []
    else (if keep(xs[0]) then [xs[0]] else []) + Filter(xs[1..], keep)
  }

  /** Filtering keeps the order: the filter of a concatenation is the
      concatenation of the filters. */
  lemma {:induction false} FilterConcat<T>(a: seq<T>, b: seq<T>, keep: T -> bool)
    ensures Filter(a + b, keep) == Filter(a, keep) + Filter(b, keep)
  {
    if a == [] {
      assert a + b == b;
    } else {
      assert (a + b)[0] == a[0];
      assert (a + b)[1..] == a[1..] + b;
      FilterConcat(a[1..], b, keep);
    }
  }

  lemma FilterOne<T>(x: T, keep: T -> bool)
    ensures Filter([x], keep) == if keep(x) then [x] else []
  {
    assert [x][1..] == [];
  }

  /** One more element read: the filter grows by that element when it is kept. */
  lemma FilterSnoc<T>(xs: seq<T>, i: nat, keep: T -> bool)
    requires i < |xs|
    ensures Filter(xs[..i + 1], keep) == Filter(xs[..i], keep) + (if keep(xs[i]) then [xs[i]] else [])
  {
    assert xs[..i + 1] == xs[..i] + [xs[i]];
    FilterConcat(xs[..i], [xs[i]], keep);
    FilterOne(xs[i], keep);
  }

  predicate AutoStarts(e: ServerEntry) { e.cfg.enabled && e.cfg.autoStart }

  predicate IsEnabled(e: ServerEntry) { e.cfg.enabled }

  /** The servers `start_all` starts: enabled and marked for auto start. */
  function AutoStartServers(servers: seq<ServerEntry>): seq<ServerEntry> {
    Filter(servers, AutoStarts)
  }

  /** The servers `get_status` reports: the enabled ones. */
  function EnabledServers(servers: seq<ServerEntry>): seq<ServerEntry> {
    Filter(servers, IsEnabled)
  }

  /** The launch `start_server` prepares: `"python"` becomes the running
      interpreter, and the server's own env entries override the inherited
      environment. */
  function LaunchFor(e: ServerEntry, interpreter: string, inherited: map<string, string>): (l: Launch)
    ensures l.name == e.name && l.args == e.cfg.args
    ensures l.command == if e.cfg.command == Some("python") then Some(interpreter) else e.cfg.command
    ensures l.env.Keys == inherited.Keys + e.cfg.env.Keys
    ensures forall k :: k in e.cfg.env ==> l.env[k] == e.cfg.env[k]
    ensures forall k :: k in inherited && k !in e.cfg.env ==> l.env[k] == inherited[k]
  {
    var command := if e.cfg.command == Some("python") then Some(interpreter) else e.cfg.command;
    Launch(e.name, command, e.cfg.args, inherited + e.cfg.env)
  }

  /** The launches of a list of servers, one each, in order. */
  function LaunchesFor(entries: seq<ServerEntry>, interpreter: string, inherited: map<string, string>): seq<Launch> {
    MapAll(entries, e => LaunchFor(e, interpreter, inherited))
  }

  /** The session table after a series of launches, each kept under its name
      when it connects and dropped when it does not. */
  function SessionsAfter(sessions: map<string, Launch>, launches: seq<Launch>, connects: set<string>): map<string, Launch>
  {
    if launches == [] then sessions
    else
      var before := SessionsAfter(sessions, launches[..|launches| - 1], connects);
      var last := launches[|launches| - 1];
      if last.name in connects then before[last.name := last] else before
  }

  function NameSet(launches: seq<Launch>): set<string> {
    set l | l in launches :: l.name
  }

  predicate DistinctNames(launches: seq<Launch>) {
    forall i, j :: 0 <= i < j < |launches| ==> launches[i].name != launches[j].name
  }

  /** The launches that connected are exactly the names added to the table. */
  lemma {:induction false} SessionsAfterKeys(sessions: map<string, Launch>, launches: seq<Launch>, connects: set<string>)
    ensures SessionsAfter(sessions, launches, connects).Keys == sessions.Keys + NameSet(launches) * connects
  {
    if launches != [] {
      var init := launches[..|launches| - 1];
      SessionsAfterKeys(sessions, init, connects);
      assert launches == init + [launches[|launches| - 1]];
      assert NameSet(launches) == NameSet(init) + {launches[|launches| - 1].name};
    }
  }

  /** A table entry no launch names is left as it was. */
  lemma {:induction false} SessionsAfterKeeps(sessions: map<string, Launch>, launches: seq<Launch>, connects: set<string>, n: string)
    requires n in sessions
    requires forall i :: 0 <= i < |launches| ==> launches[i].name != n
    ensures n in SessionsAfter(sessions, launches, connects)
    ensures SessionsAfter(sessions, launches, connects)[n] == sessions[n]
  {
    if launches != [] {
      SessionsAfterKeeps(sessions, launches[..|launches| - 1], connects, n);
    }
  }

  /** With distinct names, each launch that connected is what its name holds. */
  lemma {:induction false} SessionsAfterHolds(sessions: map<string, Launch>, launches: seq<Launch>, connects: set<string>, i: nat)
    requires DistinctNames(launches)
    requires i < |launches| && launches[i].name in connects
    ensures launches[i].name in SessionsAfter(sessions, launches, connects)
    ensures SessionsAfter(sessions, launches, connects)[launches[i].name] == launches[i]
    decreases |launches|
  {
    var init := launches[..|launches| - 1];
    if i < |init| {
      assert DistinctNames(init) by {
        forall j, k | 0 <= j < k < |init|
          ensures init[j].name != init[k].name
        {
          assert init[j] == launches[j] && init[k] == launches[k];
        }
      }
      assert init[i] == launches[i];
      SessionsAfterHolds(sessions, init, connects, i);
    }
  }

  lemma SessionsAfterSnoc(sessions: map<string, Launch>, launches: seq<Launch>, l: Launch, connects: set<string>)
    ensures SessionsAfter(sessions, launches + [l], connects)
            == if l.name in connects then SessionsAfter(sessions, launches, connects)[l.name := l]
               else SessionsAfter(sessions, launches, connects)
  {
    assert (launches + [l])[..|launches|] == launches;
  }

  /** Dictionary keys are unique. */
  predicate DistinctServers(servers: seq<ServerEntry>) {
    forall i, j :: 0 <= i < j < |servers| ==> servers[i].name != servers[j].name
  }

  /** A filter of distinct-named servers is distinct-named. */
  lemma {:induction false} FilterKeepsDistinct(servers: seq<ServerEntry>, keep: ServerEntry -> bool)
    requires DistinctServers(servers)
    ensures DistinctServers(Filter(servers, keep))
  {
    if servers != [] {
      var rest := servers[1..];
      assert DistinctServers(rest) by {
        forall i, j | 0 <= i < j < |rest|
          ensures rest[i].name != rest[j].name
        {
          assert rest[i] == servers[i + 1] && rest[j] == servers[j + 1];
        }
      }
      FilterKeepsDistinct(rest, keep);
      var f := Filter(rest, keep);
      forall x | x in f
        ensures x.name != servers[0].name
      {
        var i :| 0 <= i < |rest| && rest[i] == x;
        assert servers[i + 1] == x;
      }
    }
  }

  /** The launches of distinct servers have distinct names. */
  lemma LaunchNamesDistinct(entries: seq<ServerEntry>, launches: seq<Launch>, interpreter: string, inherited: map<string, string>)
    requires DistinctServers(entries)
    requires launches == LaunchesFor(entries, interpreter, inherited)
    ensures DistinctNames(launches)
  {
    forall i, j | 0 <= i < j < |launches|
      ensures launches[i].name != launches[j].name
    {
      assert launches[i].name == entries[i].name && launches[j].name == entries[j].name;
    }
  }

  /** `str.capitalize()` on ASCII letters: the first letter upper case, the
      rest lower case. */
  function Capitalize(s: string): (r: string)
    ensures |r| == |s|
    ensures |s| > 0 ==> r[0] == UpperChar(s[0]) && r[1..] == Lower(s[1..])
  {
    if s == [] then [] else [UpperChar(s[0])] + Lower(s[1..])
  }

  /** The status row of one configured server. */
  function RowFor(e: ServerEntry, sessions: map<string, Launch>): (row: StatusRow)
    ensures row.name == Capitalize(e.name)
    ensures row.status == "ok" <==> e.name in sessions
    ensures row.status == "error" <==> e.name !in sessions
    ensures row.detail == (if e.name in sessions then "Connected" else "Disconnected")
  {
    var connected := e.name in sessions;
    StatusRow(Capitalize(e.name), if connected then "ok" else "error", if connected then "Connected" else "Disconnected")
  }

  /** The launches `start_all` makes while it walks `config` in order: one
      per enabled auto-start server. */
  function StartedLaunches(config: seq<ServerEntry>, interpreter: string, inherited: map<string, string>): seq<Launch> {
    if config == [] then []
    else
      var e := config[|config| - 1];
      StartedLaunches(config[..|config| - 1], interpreter, inherited)
        + (if e.cfg.enabled && e.cfg.autoStart then [LaunchFor(e, interpreter, inherited)] else [])
  }

  lemma StartedLaunchesSnoc(config: seq<ServerEntry>, i: nat, interpreter: string, inherited: map<string, string>)
    requires i < |config|
    ensures StartedLaunches(config[..i + 1], interpreter, inherited)
            == StartedLaunches(config[..i], interpreter, inherited)
               + (if AutoStarts(config[i]) then [LaunchFor(config[i], interpreter, inherited)] else [])
  {
    assert config[..i + 1][..i] == config[..i];
  }

  /** The walk launches exactly the auto-start servers, in configuration order. */
  lemma {:induction false} StartedLaunchesSpec(config: seq<ServerEntry>, interpreter: string, inherited: map<string, string>)
    ensures StartedLaunches(config, interpreter, inherited) == LaunchesFor(AutoStartServers(config), interpreter, inherited)
  {
    if config != [] {
      var init := config[..|config| - 1];
      var e := config[|config| - 1];
      StartedLaunchesSpec(init, interpreter, inherited);
      assert config == init + [e];
      FilterConcat(init, [e], AutoStarts);
      FilterOne(e, AutoStarts);
      if AutoStarts(e) {
        MapAllSnoc(AutoStartServers(init), e, e => LaunchFor(e, interpreter, inherited));
      } else {
        assert AutoStartServers(config) == AutoStartServers(init) + [];
        assert AutoStartServers(init) + [] == AutoStartServers(init);
      }
    }
  }

  class Manager {
    /** `self.config['servers']`; empty until a configuration is loaded. */
    var servers: seq<ServerEntry>
    /** `self.sessions`: server name to the launch its session came from. */
    var sessions: map<string, Launch>

    constructor()
      ensures servers == [] && sessions == map[]
    {
      servers := [];
      sessions := map[];
    }

    /** `load_config`: `loaded` is the parsed file; `None` when it is missing
        or unreadable, which keeps the configuration as it was. */
    method LoadConfig(loaded: Option<seq<ServerEntry>>)
      modifies this
      ensures servers == if loaded.Some? then loaded.value else old(servers)
      ensures sessions == old(sessions)
    {
      if loaded.Some? {
        servers := loaded.value;
      }
    }

    /** `start_server`: `connects` says whether the stdio session opened and
        initialised. */
    method StartServer(e: ServerEntry, interpreter: string, inherited: map<string, string>, connects: bool)
      returns (launch: Launch)
      modifies this
      ensures launch == LaunchFor(e, interpreter, inherited)
      ensures sessions == if connects then old(sessions)[e.name := launch] else old(sessions)
      ensures servers == old(servers)
    {
      var command := e.cfg.command;
      var env := inherited + e.cfg.env;
      if command == Some("python") {
        command := Some(interpreter);
      }
      launch := Launch(e.name, command, e.cfg.args, env);
      if connects {
        sessions := sessions[e.name := launch];
      }
    }

    /** `start_all`: loads the configuration, then launches every enabled
        auto-start server in configuration order; `connects` names the
        servers whose session opens. */
    method StartAll(loaded: Option<seq<ServerEntry>>, interpreter: string, inherited: map<string, string>, connects: set<string>)
      returns (launches: seq<Launch>)
      modifies this
      ensures servers == if loaded.Some? then loaded.value else old(servers)
      ensures launches == LaunchesFor(AutoStartServers(servers), interpreter, inherited)
      ensures sessions == SessionsAfter(old(sessions), launches, connects)
    {
      LoadConfig(loaded);
      launches := StartEach(servers, interpreter, inherited, connects);
      StartedLaunchesSpec(servers, interpreter, inherited);
    }

    /** The loop of `start_all` over the loaded servers `config`. */
    method StartEach(config: seq<ServerEntry>, interpreter: string, inherited: map<string, string>, connects: set<string>)
      returns (launches: seq<Launch>)
      modifies this
      ensures launches == StartedLaunches(config, interpreter, inherited)
      ensures sessions == SessionsAfter(old(sessions), launches, connects)
      ensures servers == old(servers)
    {
      ghost var start := sessions;
      launches := [];
      var i := 0;
      while i < |config|
        invariant 0 <= i <= |config| && servers == old(servers)
        invariant launches == StartedLaunches(config[..i], interpreter, inherited)
        invariant sessions == SessionsAfter(start, launches, connects)
      {
        var e := config[i];
        StartedLaunchesSnoc(config, i, interpreter, inherited);
        if e.cfg.enabled && e.cfg.autoStart {
          var launch := StartServer(e, interpreter, inherited, e.name in connects);
          SessionsAfterSnoc(start, launches, launch, connects);
          launches := launches + [launch];
        }
        i := i + 1;
      }
      assert config[..i] == config;
    }

    /** `stop_all`: closing the sessions empties the table; `closeFails` is
        an exception from closing, which is logged and leaves the table. */
    method StopAll(closeFails: bool)
      modifies this
      ensures sessions == if closeFails then old(sessions) else map[]
      ensures servers == old(servers)
    {
      if !closeFails {
        sessions := map[];
      }
    }

    /** `get_session`. */
    function GetSession(name: string): (s: Option<Launch>)
      reads this
      ensures s.Some? <==> name in sessions
      ensures s.Some? ==> s.value == sessions[name]
    {
      if name in sessions then Some(sessions[name]) else None
    }

    /** `get_status`: one row per enabled server, in configuration order,
        stopped ones included. */
    method GetStatus() returns (rows: seq<StatusRow>)
      ensures |rows| == |EnabledServers(servers)|
      ensures forall i :: 0 <= i < |rows| ==> rows[i] == RowFor(EnabledServers(servers)[i], sessions)
    {
      var config := servers;
      var table := sessions;
      rows := [];
      var i := 0;
      while i < |config|
        invariant 0 <= i <= |config|
        invariant rows == MapAll(EnabledServers(config[..i]), e => RowFor(e, table))
      {
        var e := config[i];
        FilterSnoc(config, i, IsEnabled);
        if e.cfg.enabled {
          var connected := e.name in table;
          MapAllSnoc(EnabledServers(config[..i]), e, e => RowFor(e, table));
          rows := rows + [StatusRow(Capitalize(e.name), if connected then "ok" else "error",
                                    if connected then "Connected" else "Disconnected")];
        } else {
          assert EnabledServers(config[..i + 1]) == EnabledServers(config[..i]) + [];
          assert EnabledServers(config[..i]) + [] == EnabledServers(config[..i]);
        }
        i := i + 1;
      }
      assert config[..i] == config;
    }
  }

  /** The server behind a launch name is the auto-start server it was made from. */
  lemma LaunchedIsAutoStart(servers: seq<ServerEntry>, e: ServerEntry, i: nat)
    requires DistinctServers(servers) && e in servers
    requires i < |AutoStartServers(servers)| && AutoStartServers(servers)[i].name == e.name
    ensures AutoStarts(e)
  {
    var x := AutoStartServers(servers)[i];
    var j :| 0 <= j < |servers| && servers[j] == e;
    var k :| 0 <= k < |servers| && servers[k] == x;
    assert j == k;
  }

  /** A server of the configuration is among the launches exactly when it
      is an auto-start server. */
  lemma LaunchedIffAutoStart(servers: seq<ServerEntry>, launches: seq<Launch>, interpreter: string,
                             inherited: map<string, string>, e: ServerEntry)
    requires DistinctServers(servers) && e in servers
    requires launches == LaunchesFor(AutoStartServers(servers), interpreter, inherited)
    ensures e.name in NameSet(launches) <==> AutoStarts(e)
  {
    var a := AutoStartServers(servers);
    if AutoStarts(e) {
      assert e in a;
      var i :| 0 <= i < |a| && a[i] == e;
      assert launches[i] in launches;
    }
    if e.name in NameSet(launches) {
      var l :| l in launches && l.name == e.name;
      var i :| 0 <= i < |launches| && launches[i] == l;
      LaunchedIsAutoStart(servers, e, i);
    }
  }

  /** After `start_all`, a configured server has a session exactly when it is
      an enabled auto-start server that connected, or it had one before. */
  lemma StartAllSessionKeys(prior: map<string, Launch>, servers: seq<ServerEntry>, launches: seq<Launch>,
                            interpreter: string, inherited: map<string, string>, connects: set<string>, e: ServerEntry)
    requires DistinctServers(servers) && e in servers
    requires launches == LaunchesFor(AutoStartServers(servers), interpreter, inherited)
    ensures e.name in SessionsAfter(prior, launches, connects) <==> e.name in prior || (e.name in connects && AutoStarts(e))
  {
    SessionsAfterKeys(prior, launches, connects);
    LaunchedIffAutoStart(servers, launches, interpreter, inherited, e);
  }

  /** An auto-start server that connected holds its own launch; any other
      server keeps the session it had. */
  lemma StartAllSessionValues(prior: map<string, Launch>, servers: seq<ServerEntry>, launches: seq<Launch>,
                              interpreter: string, inherited: map<string, string>, connects: set<string>, e: ServerEntry)
    requires DistinctServers(servers) && e in servers
    requires launches == LaunchesFor(AutoStartServers(servers), interpreter, inherited)
    ensures AutoStarts(e) && e.name in connects ==>
              e.name in SessionsAfter(prior, launches, connects)
              && SessionsAfter(prior, launches, connects)[e.name] == LaunchFor(e, interpreter, inherited)
    ensures !AutoStarts(e) && e.name in prior ==>
              e.name in SessionsAfter(prior, launches, connects)
              && SessionsAfter(prior, launches, connects)[e.name] == prior[e.name]
  {
    var a := AutoStartServers(servers);
    FilterKeepsDistinct(servers, AutoStarts);
    LaunchNamesDistinct(a, launches, interpreter, inherited);
    if AutoStarts(e) && e.name in connects {
      assert e in a;
      var i :| 0 <= i < |a| && a[i] == e;
      SessionsAfterHolds(prior, launches, connects, i);
    }
    if !AutoStarts(e) && e.name in prior {
      forall i | 0 <= i < |launches|
        ensures launches[i].name != e.name
      {
        assert launches[i] in launches;
        LaunchedIffAutoStart(servers, launches, interpreter, inherited, e);
      }
      SessionsAfterKeeps(prior, launches, connects, e.name);
    }
  }
}
