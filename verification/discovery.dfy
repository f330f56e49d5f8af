/** The two discovery phases: which links become servers, which become logs,
    and where each server's log list lives. */
module Discovery {
  import opened Results
  import opened Seqs
  import opened Api
  import opened Domain

  const ServersPath: string := "/management/wls/latest/servers"

  /** The server-list endpoint for a `host:port` string. */
  function ServersUrl(host: string): string {
    "http://" + host + ServersPath
  }

  /** Every link of the server list except the one back to its parent. */
  predicate IsServerLink(l: Link) {
    l.rel != "parent"
  }

  function ServerOf(l: Link): WLSServer {
    NewServer(l.title, l.uri)
  }

  /** The servers the loop over the server list appends, in link order. */
  function ServersFromLinks(links: seq<Link>): (servers: seq<WLSServer>)
    ensures servers == Map(ServerOf, Filter(IsServerLink, links))
  {
    if links == [] then []
    else
      var rest := ServersFromLinks(links[1..]);
      assert links == [links[0]] + links[1..];
      FilterMapCons(IsServerLink, ServerOf, links[0], links[1..]);
      if IsServerLink(links[0]) then [ServerOf(links[0])] + rest else rest
  }

  /** `getServers`: one fetch of the server list, then one fresh server per
      kept link appended to the domain. */
  function GetServers(fetch: Fetch, d: WLSDomain, host: string): (r: Result<WLSDomain, Fault>)
    ensures r.Ok? <==> fetch(ServersUrl(host)).Ok?
    ensures r.Err? ==> r.error == fetch(ServersUrl(host)).error
    ensures r.Ok? ==> r.value.serverList == d.serverList + ServersFromLinks(fetch(ServersUrl(host)).value.links)
  {
    var resp :- fetch(ServersUrl(host));
    Ok(AddServers(d, ServersFromLinks(resp.links)))
  }

  function AddServers(d: WLSDomain, servers: seq<WLSServer>): (r: WLSDomain)
    ensures r.serverList == d.serverList + servers
    decreases servers
  {
    if servers == [] then d
    else
      assert d.serverList + servers == (d.serverList + [servers[0]]) + servers[1..];
      AddServers(AddServer(d, servers[0]), servers[1..])
  }

  /** Python's `str.startswith`. */
  predicate StartsWith(s: string, prefix: string) {
    |prefix| <= |s| && s[..|prefix|] == prefix
  }

  /** Titles of logs that are never collected. */
  predicate IsExcludedLogTitle(title: string) {
    StartsWith(title, "JMSMessageLog") || StartsWith(title, "HTTPAccessLog")
  }

  /** A link of the log list that names a log worth reading. */
  predicate IsKeptLogLink(l: Link) {
    l.rel == "items.name" && !IsExcludedLogTitle(l.title)
  }

  function LogOf(l: Link): WLLog {
    NewLog(l.title, l.uri)
  }

  /** The logs the loop over the log list appends, in link order. */
  function LogsFromLinks(links: seq<Link>): (logs: seq<WLLog>)
    ensures logs == Map(LogOf, Filter(IsKeptLogLink, links))
  {
    if links == [] then []
    else
      var rest := LogsFromLinks(links[1..]);
      assert links == [links[0]] + links[1..];
      FilterMapCons(IsKeptLogLink, LogOf, links[0], links[1..]);
      if IsKeptLogLink(links[0]) then [LogOf(links[0])] + rest else rest
  }

  /** The URI the `for` loop over the links leaves behind: that of the last
      link with rel "logs", if any. */
  function LastLogsLink(links: seq<Link>): (u: Option<string>)
    ensures u.None? <==> forall i :: 0 <= i < |links| ==> links[i].rel != "logs"
    ensures u.Some? ==> exists i :: 0 <= i < |links| && links[i].rel == "logs" && links[i].uri == u.value
                                    && forall j :: i < j < |links| ==> links[j].rel != "logs"
  {
    if links == [] then None
    else if links[|links| - 1].rel == "logs" then Some(links[|links| - 1].uri)
    else LastLogsLink(links[..|links| - 1])
  }

  /** `getLogListUrl`: fetch the server's detail, record its state, record its
      health only when running, and return the log-list URL. The URL lookup
      fails for a server of any state that has no "logs" link. */
  function GetLogListUrl(fetch: Fetch, s: WLSServer): (r: Result<(WLSServer, string), Fault>)
    ensures r.Ok? <==>
      && fetch(s.serverUrl).Ok?
      && fetch(s.serverUrl).value.item.Some?
      && (fetch(s.serverUrl).value.item.value.state == Running ==> fetch(s.serverUrl).value.item.value.health.Some?)
      && LastLogsLink(fetch(s.serverUrl).value.links).Some?
    ensures r.Ok? ==>
      var item := fetch(s.serverUrl).value.item.value;
      && r.value.0 == s.(state := item.state,
                         health := if item.state == Running then item.health.value else s.health)
      && r.value.1 == LastLogsLink(fetch(s.serverUrl).value.links).value
  {
    var resp :- fetch(s.serverUrl);
    if resp.item.None? then Err(MissingField(s.serverUrl, "item"))
    else
      var s1 := SetState(s, resp.item.value.state);
      if s1.state == Running && resp.item.value.health.None? then Err(MissingField(s.serverUrl, "health"))
      else
        var s2 := if s1.state == Running then SetHealth(s1, resp.item.value.health.value) else s1;
        match LastLogsLink(resp.links)
        case None => Err(NoLogsLink(s.serverUrl))
        case Some(u) => Ok((s2, u))
  }

  /** `getServerLogUrl`: fetch the log list and append one log per kept link. */
  function GetServerLogUrl(fetch: Fetch, s: WLSServer, logListUrl: string): (r: Result<WLSServer, Fault>)
    ensures r.Ok? <==> fetch(logListUrl).Ok?
    ensures r.Ok? ==> r.value == s.(logList := s.logList + LogsFromLinks(fetch(logListUrl).value.links))
  {
    var resp :- fetch(logListUrl);
    Ok(AddLogs(s, LogsFromLinks(resp.links)))
  }

  function AddLogs(s: WLSServer, logs: seq<WLLog>): (r: WLSServer)
    ensures r == s.(logList := s.logList + logs)
    decreases logs
  {
    if logs == [] then
      assert s.logList + logs == s.logList;
      s
    else
      assert s.logList + logs == (s.logList + [logs[0]]) + logs[1..];
      AddLogs(AddLog(s, logs[0]), logs[1..])
  }

  /** Every discovered server is fresh. */
  lemma {:induction false} ServersFromLinksFresh(links: seq<Link>)
    ensures forall s :: s in ServersFromLinks(links) ==> IsFresh(s)
  {
    var servers := ServersFromLinks(links);
    forall s | s in servers
      ensures IsFresh(s)
    {
      var i :| 0 <= i < |servers| && servers[i] == s;
      MapIndex(ServerOf, Filter(IsServerLink, links), i);
    }
  }

  /** Every collected log starts empty, with nothing counted. */
  lemma {:induction false} LogsFromLinksFresh(links: seq<Link>)
    ensures forall l :: l in LogsFromLinks(links) ==> l.logEntryList == [] && l.counter == 0
  {
    var logs := LogsFromLinks(links);
    forall l | l in logs
      ensures l.logEntryList == [] && l.counter == 0
    {
      var i :| 0 <= i < |logs| && logs[i] == l;
      MapIndex(LogOf, Filter(IsKeptLogLink, links), i);
    }
  }

  /** No collected log has an excluded title. */
  lemma {:induction false} LogsFromLinksKept(links: seq<Link>)
    ensures forall l :: l in LogsFromLinks(links) ==> !IsExcludedLogTitle(l.name)
  {
    var logs := LogsFromLinks(links);
    forall l | l in logs
      ensures !IsExcludedLogTitle(l.name)
    {
      var f := Filter(IsKeptLogLink, links);
      var i :| 0 <= i < |logs| && logs[i] == l;
      MapIndex(LogOf, f, i);
      FilterMembership(IsKeptLogLink, links, f[i]);
    }
  }

  /** The fetch loop's `log.name != "HTTPAccessLog"` test never fails for a
      collected log: that name starts with an excluded prefix. */
  lemma {:induction false} AccessLogGuardAlwaysHolds(links: seq<Link>)
    ensures forall l :: l in LogsFromLinks(links) ==> l.name != "HTTPAccessLog"
  {
    LogsFromLinksKept(links);
    assert IsExcludedLogTitle("HTTPAccessLog") by {
      assert "HTTPAccessLog"[..|"HTTPAccessLog"|] == "HTTPAccessLog";
    }
  }
}
