/** A worked run: a domain with one running server, whose only collected log
    holds two Error items and one Info item, and one stopped server. */
module Scenario {
  import opened Results
  import opened Seqs
  import opened Api
  import opened Domain
  import opened Discovery
  import opened Search
  import opened Report

  const Host: string := "admin:7001"

  function ScenarioFetch(url: string): Result<Response, Fault> {
    if url == ServersUrl(Host) then
      Ok(Response([Link("parent", "domain", "/d"), Link("items.name", "ms1", "/s1"), Link("items.name", "ms2", "/s2")], None, []))
    else if url == "/s1" then
      Ok(Response([Link("logs", "logs", "/s1/logs")], Some(ServerItem("running", Some("ok"))), []))
    else if url == "/s2" then
      Ok(Response([Link("logs", "logs", "/s2/logs")], Some(ServerItem("shutdown", None)), []))
    else if url == "/s1/logs" then
      Ok(Response([Link("items.name", "ms1", "/s1/logs/ms1"), Link("items.name", "HTTPAccessLog", "/s1/logs/access")], None, []))
    else if url == "/s1/logs/ms1" then
      Ok(Response([], None, [Item("Error", "t1", "first"), Item("Info", "t2", "noise"), Item("Error", "t3", "second")]))
    else
      Err(RequestFailed(url))
  }

  function NoTime(url: string): nat {
    0
  }

  lemma ScenarioServers()
    ensures ScenarioFetch(ServersUrl(Host)).Ok?
    ensures ServersFromLinks(ScenarioFetch(ServersUrl(Host)).value.links) == [NewServer("ms1", "/s1"), NewServer("ms2", "/s2")]
  {
    var links := ScenarioFetch(ServersUrl(Host)).value.links;
    assert links[1..][1..][1..] == [];
    assert ServersFromLinks(links[1..][1..]) == [NewServer("ms2", "/s2")];
  }

  /** The stopped server: its state is recorded and nothing else happens. */
  lemma ScenarioStoppedServer()
    ensures ProcessServer(ScenarioFetch, NoTime, NewServer("ms2", "/s2"))
         == Ok(NewServer("ms2", "/s2").(state := "shutdown"))
  {
    var s := NewServer("ms2", "/s2");
    assert LastLogsLink(ScenarioFetch("/s2").value.links) == Some("/s2/logs");
    assert GetLogListUrl(ScenarioFetch, s) == Ok((s.(state := "shutdown"), "/s2/logs"));
  }

  /** The running server's log list: the access log is not collected. */
  lemma ScenarioLogs()
    ensures ScenarioFetch("/s1/logs").Ok?
    ensures LogsFromLinks(ScenarioFetch("/s1/logs").value.links) == [NewLog("ms1", "/s1/logs/ms1")]
  {
    var links := ScenarioFetch("/s1/logs").value.links;
    assert IsExcludedLogTitle("HTTPAccessLog") by {
      assert "HTTPAccessLog"[..|"HTTPAccessLog"|] == "HTTPAccessLog";
    }
    assert !IsExcludedLogTitle("ms1");
    assert links[1..][1..] == [];
    assert LogsFromLinks(links[1..]) == [];
  }

  /** The log's items: two of the three are Error items. */
  lemma ScenarioEntries()
    ensures ScenarioFetch("/s1/logs/ms1").Ok?
    ensures |ErrorEntries(ScenarioFetch("/s1/logs/ms1").value.items)| == 2
  {
    var items := ScenarioFetch("/s1/logs/ms1").value.items;
    assert items[1..][1..][1..] == [];
    assert Filter(IsErrorItem, items[1..][1..]) == [items[2]];
    assert Filter(IsErrorItem, items[1..]) == [items[2]];
    assert Filter(IsErrorItem, items) == [items[0], items[2]];
  }

  /** The running server: one log read, two errors counted on log and server. */
  lemma ScenarioRunningServer()
    ensures ProcessServer(ScenarioFetch, NoTime, NewServer("ms1", "/s1")).Ok?
    ensures var r := ProcessServer(ScenarioFetch, NoTime, NewServer("ms1", "/s1")).value;
      && r.state == "running" && r.health == "ok" && r.errorCount == 2
      && |r.logList| == 1 && r.logList[0].counter == 2 && |r.logList[0].logEntryList| == 2
  {
    var s := NewServer("ms1", "/s1");
    assert LastLogsLink(ScenarioFetch("/s1").value.links) == Some("/s1/logs");
    var s1 := s.(state := "running", health := "ok");
    assert GetLogListUrl(ScenarioFetch, s) == Ok((s1, "/s1/logs"));
    ScenarioLogs();
    var s2 := s1.(logList := [NewLog("ms1", "/s1/logs/ms1")]);
    assert s1.logList + [NewLog("ms1", "/s1/logs/ms1")] == s2.logList;
    assert GetServerLogUrl(ScenarioFetch, s1, "/s1/logs") == Ok(s2);
    ScenarioEntries();
    var rl := ReadLog(ScenarioFetch, NoTime, s2, 0);
    assert rl.Ok?;
    assert rl.value.errorCount == 2;
    assert ReadServerLogs(ScenarioFetch, NoTime, s2, 0) == ReadServerLogs(ScenarioFetch, NoTime, rl.value, 1);
  }

  /** The details section of two servers, the first with one log holding
      errors and the second with none. */
  lemma ScenarioDetails(servers: seq<WLSServer>)
    requires |servers| == 2
    requires servers[0].errorCount == 2 && servers[1].errorCount == 0
    requires |servers[0].logList| == 1 && servers[0].logList[0].counter == 2
    requires |servers[0].logList[0].logEntryList| == 2
    ensures |Details(servers)| == 1
    ensures Details(servers)[0].serverName == servers[0].name
    ensures |Details(servers)[0].logs| == 1
    ensures |Details(servers)[0].logs[0].blocks| == 2
  {
    assert servers[1..][1..] == [];
    assert Details(servers[1..]) == [];
    var logs := servers[0].logList;
    assert logs[1..] == [];
    assert LogSections(servers[0].name, logs) == [SectionOf(servers[0].name, logs[0])];
  }

  /** The whole run: error counts 2 and 0, and a details section with the
      running server only, its one log and two entry blocks. */
  lemma ScenarioOutcome()
    ensures Run(ScenarioFetch, NoTime, Host).Ok?
    ensures var servers := Run(ScenarioFetch, NoTime, Host).value.serverList;
      && |servers| == 2
      && servers[0].name == "ms1" && servers[1].name == "ms2"
      && servers[0].errorCount == 2 && servers[1].errorCount == 0
      && |Details(servers)| == 1
      && Details(servers)[0].serverName == "ms1"
      && |Details(servers)[0].logs| == 1
      && |Details(servers)[0].logs[0].blocks| == 2
  {
    ScenarioServers();
    ScenarioStoppedServer();
    ScenarioRunningServer();
    var found := [NewServer("ms1", "/s1"), NewServer("ms2", "/s2")];
    var g := GetServers(ScenarioFetch, WLSDomain([]), Host);
    assert g.value.serverList == found;
    assert Run(ScenarioFetch, NoTime, Host) == SearchServerLogs(ScenarioFetch, NoTime, g.value);
    var servers := Run(ScenarioFetch, NoTime, Host).value.serverList;
    ScenarioDetails(servers);
  }
}
