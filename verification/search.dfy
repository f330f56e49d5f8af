/** `searchServerLogs` and the run it completes: for every server, resolve its
    log list, collect its logs, read each log and keep its error entries. Any
    fault ends the whole run. */
module Search {
  import opened Results
  import opened Seqs
  import opened Api
  import opened Domain
  import opened Discovery
  import opened TimeFormat

  predicate IsErrorItem(it: Item) {
    it.severity == "Error"
  }

  function ToEntry(it: Item): LogEntry {
    LogEntry(it.severity, it.timeStamp, it.message)
  }

  /** Reference definition: the entries a log response contributes. */
  function ErrorEntries(items: seq<Item>): seq<LogEntry> {
    Map(ToEntry, Filter(IsErrorItem, items))
  }

  lemma ErrorEntriesAreErrors(items: seq<Item>)
    ensures forall e :: e in ErrorEntries(items) ==> e.severity == "Error"
  {
    var f := Filter(IsErrorItem, items);
    forall e | e in ErrorEntries(items)
      ensures e.severity == "Error"
    {
      var i :| 0 <= i < |f| && ErrorEntries(items)[i] == e;
      MapIndex(ToEntry, f, i);
      FilterMembership(IsErrorItem, items, f[i]);
    }
  }

  /** The inner loop over a log response's items: an Error item is appended to
      the log and counted on the server; any other item changes nothing. Every
      append is paired with one increment of the server's error count. */
  function RecordItems(s: WLSServer, l: WLLog, items: seq<Item>): (r: (WLSServer, WLLog))
    ensures r.0 == s.(errorCount := r.0.errorCount)
    ensures r.1 == l.(logEntryList := r.1.logEntryList, counter := r.1.counter)
    ensures r.0.errorCount - s.errorCount == r.1.counter - l.counter == |r.1.logEntryList| - |l.logEntryList|
    decreases items
  {
    if items == [] then (s, l)
    else if IsErrorItem(items[0]) then
      RecordItems(IncrementError(s), AddLogEntry(l, ToEntry(items[0])), items[1..])
    else
      RecordItems(s, l, items[1..])
  }

  /** The item loop appends exactly the response's Error items, in order. */
  lemma {:induction false} RecordItemsAppendsErrors(s: WLSServer, l: WLLog, items: seq<Item>)
    ensures RecordItems(s, l, items).1.logEntryList == l.logEntryList + ErrorEntries(items)
    decreases items
  {
    if items == [] {
      assert l.logEntryList + ErrorEntries(items) == l.logEntryList;
    } else {
      var x, rest := items[0], items[1..];
      ErrorEntriesCons(items);
      if IsErrorItem(x) {
        var e, l' := ToEntry(x), AddLogEntry(l, ToEntry(x));
        assert RecordItems(s, l, items) == RecordItems(IncrementError(s), l', rest);
        assert ErrorEntries(items) == [e] + ErrorEntries(rest);
        assert l'.logEntryList == l.logEntryList + [e];
        RecordItemsAppendsErrors(IncrementError(s), l', rest);
        ConcatAssoc(l.logEntryList, [e], ErrorEntries(rest));
      } else {
        assert RecordItems(s, l, items) == RecordItems(s, l, rest);
        assert ErrorEntries(items) == ErrorEntries(rest);
        RecordItemsAppendsErrors(s, l, rest);
      }
    }
  }

  /** One step of the item loop over the reference definition. */
  lemma ErrorEntriesCons(items: seq<Item>)
    requires items != []
    ensures ErrorEntries(items)
         == (if IsErrorItem(items[0]) then [ToEntry(items[0])] else []) + ErrorEntries(items[1..])
  {
    assert items == [items[0]] + items[1..];
    FilterMapCons(IsErrorItem, ToEntry, items[0], items[1..]);
  }

  /** The fetch loop reads a log unless it is the HTTP access log or the
      server is not running. */
  predicate ShouldRead(s: WLSServer, l: WLLog) {
    l.name != "HTTPAccessLog" && s.state == Running
  }

  /** Reference definition: `after` is `before` once its URL has been fetched,
      its Error items appended and its duration recorded. */
  ghost predicate LogRead(fetch: Fetch, elapsed: Elapsed, before: WLLog, after: WLLog) {
    && fetch(before.logUrl).Ok?
    && var added := ErrorEntries(fetch(before.logUrl).value.items);
       after == before.(logEntryList := before.logEntryList + added,
                        counter := before.counter + |added|,
                        duration := FormatTimeOutput(elapsed(before.logUrl)))
  }

  /** Reads one log of `s` and stores it back in place. */
  function ReadLog(fetch: Fetch, elapsed: Elapsed, s: WLSServer, j: nat): (r: Result<WLSServer, Fault>)
    requires j < |s.logList|
    ensures r.Ok? <==> fetch(s.logList[j].logUrl).Ok?
    ensures r.Ok? ==> r.value == s.(errorCount := r.value.errorCount, logList := r.value.logList)
    ensures r.Ok? ==> |r.value.logList| == |s.logList| && r.value.logList == s.logList[j := r.value.logList[j]]
    ensures r.Ok? ==> LogRead(fetch, elapsed, s.logList[j], r.value.logList[j])
    ensures r.Ok? ==> r.value.errorCount + SumCounters(s.logList) == s.errorCount + SumCounters(r.value.logList)
  {
    var l := s.logList[j];
    var resp :- fetch(l.logUrl);
    var p := RecordItems(s, l, resp.items);
    RecordItemsAppendsErrors(s, l, resp.items);
    var l' := SetDuration(p.1, FormatTimeOutput(elapsed(l.logUrl)));
    SumCountersUpdate(s.logList, j, l');
    Ok(p.0.(logList := p.0.logList[j := l']))
  }

  /** The loop over a server's logs, from position `j` on. Each entry it
      appends is matched by one increment of the server's error count. */
  function ReadServerLogs(fetch: Fetch, elapsed: Elapsed, s: WLSServer, j: nat): (r: Result<WLSServer, Fault>)
    requires j <= |s.logList|
    ensures r.Ok? ==> r.value == s.(errorCount := r.value.errorCount, logList := r.value.logList)
    ensures r.Ok? ==> |r.value.logList| == |s.logList|
    ensures r.Ok? ==> r.value.errorCount + SumCounters(s.logList) == s.errorCount + SumCounters(r.value.logList)
    decreases |s.logList| - j
  {
    if j == |s.logList| then Ok(s)
    else if ShouldRead(s, s.logList[j]) then
      match ReadLog(fetch, elapsed, s, j)
      case Err(e) => Err(e)
      case Ok(s') => ReadServerLogs(fetch, elapsed, s', j + 1)
    else
      ReadServerLogs(fetch, elapsed, s, j + 1)
  }

  /** The log loop fails exactly when a log it should read cannot be fetched. */
  lemma {:induction false} ReadServerLogsFails(fetch: Fetch, elapsed: Elapsed, s: WLSServer, j: nat)
    requires j <= |s.logList|
    ensures ReadServerLogs(fetch, elapsed, s, j).Ok?
        <==> forall k :: j <= k < |s.logList| && ShouldRead(s, s.logList[k]) ==> fetch(s.logList[k].logUrl).Ok?
    decreases |s.logList| - j
  {
    if j < |s.logList| {
      if ShouldRead(s, s.logList[j]) {
        var rl := ReadLog(fetch, elapsed, s, j);
        if rl.Ok? {
          var s' := rl.value;
          assert forall k :: 0 <= k < |s.logList| && k != j ==> s'.logList[k] == s.logList[k];
          ReadServerLogsFails(fetch, elapsed, s', j + 1);
        }
      } else {
        ReadServerLogsFails(fetch, elapsed, s, j + 1);
      }
    }
  }

  /** What the log loop leaves at position `k`: the log read if the loop had
      to read it, the log unchanged otherwise. */
  lemma {:induction false} ReadServerLogsAt(fetch: Fetch, elapsed: Elapsed, s: WLSServer, j: nat, k: nat)
    requires j <= |s.logList| && k < |s.logList|
    requires ReadServerLogs(fetch, elapsed, s, j).Ok?
    ensures var after := ReadServerLogs(fetch, elapsed, s, j).value.logList;
      if j <= k && ShouldRead(s, s.logList[k]) then LogRead(fetch, elapsed, s.logList[k], after[k])
      else after[k] == s.logList[k]
    decreases |s.logList| - j
  {
    if j < |s.logList| {
      if ShouldRead(s, s.logList[j]) {
        var s' := ReadLog(fetch, elapsed, s, j).value;
        ReadServerLogsAt(fetch, elapsed, s', j + 1, k);
      } else {
        ReadServerLogsAt(fetch, elapsed, s, j + 1, k);
      }
    }
  }

  /** After the log loop, every log it should read has been read and every
      other log is untouched. */
  lemma ReadServerLogsReads(fetch: Fetch, elapsed: Elapsed, s: WLSServer, j: nat)
    requires j <= |s.logList|
    requires ReadServerLogs(fetch, elapsed, s, j).Ok?
    ensures var after := ReadServerLogs(fetch, elapsed, s, j).value.logList;
      forall k :: 0 <= k < |s.logList| ==>
        if j <= k && ShouldRead(s, s.logList[k]) then LogRead(fetch, elapsed, s.logList[k], after[k])
        else after[k] == s.logList[k]
  {
    forall k | 0 <= k < |s.logList| {
      ReadServerLogsAt(fetch, elapsed, s, j, k);
    }
  }

  /** One iteration of the loop over servers: resolve the log-list URL, stop
      there for a server that is not running, otherwise collect and read its
      logs. */
  function ProcessServer(fetch: Fetch, elapsed: Elapsed, s: WLSServer): (r: Result<WLSServer, Fault>)
    ensures r.Ok? ==> GetLogListUrl(fetch, s).Ok?
    ensures r.Ok? ==> r.value.name == s.name && r.value.serverUrl == s.serverUrl
    ensures r.Ok? ==> && r.value.state == GetLogListUrl(fetch, s).value.0.state
                      && r.value.health == GetLogListUrl(fetch, s).value.0.health
    ensures r.Ok? && r.value.state != Running ==> r.value.logList == s.logList && r.value.errorCount == s.errorCount
    ensures GetLogListUrl(fetch, s).Ok? && GetLogListUrl(fetch, s).value.0.state != Running ==>
      r == Ok(GetLogListUrl(fetch, s).value.0)
  {
    var p :- GetLogListUrl(fetch, s);
    var s1 := p.0;
    if s1.state != Running then Ok(s1)
    else
      var s2 :- GetServerLogUrl(fetch, s1, p.1);
      ReadServerLogs(fetch, elapsed, s2, 0)
  }

  /** Reading one log keeps a consistent server consistent. */
  lemma ReadLogConsistent(fetch: Fetch, elapsed: Elapsed, s: WLSServer, j: nat)
    requires j < |s.logList| && CountsConsistent(s)
    ensures ReadLog(fetch, elapsed, s, j).Ok? ==> CountsConsistent(ReadLog(fetch, elapsed, s, j).value)
  {
    var r := ReadLog(fetch, elapsed, s, j);
    if r.Ok? {
      var logs := r.value.logList;
      forall l | l in logs
        ensures CounterMatches(l)
      {
        var k :| 0 <= k < |logs| && logs[k] == l;
        if k == j {
          var before := s.logList[j];
          assert before in s.logList;
          assert LogRead(fetch, elapsed, before, logs[j]);
          var added := ErrorEntries(fetch(before.logUrl).value.items);
          assert logs[j].logEntryList == before.logEntryList + added;
          assert logs[j].counter == before.counter + |added|;
        } else {
          assert logs[k] == s.logList[k] && s.logList[k] in s.logList;
        }
      }
    }
  }

  /** The log loop keeps a consistent server consistent. */
  lemma {:induction false} ReadServerLogsConsistent(fetch: Fetch, elapsed: Elapsed, s: WLSServer, j: nat)
    requires j <= |s.logList| && CountsConsistent(s)
    ensures ReadServerLogs(fetch, elapsed, s, j).Ok? ==> CountsConsistent(ReadServerLogs(fetch, elapsed, s, j).value)
    decreases |s.logList| - j
  {
    if j < |s.logList| {
      if ShouldRead(s, s.logList[j]) {
        var rl := ReadLog(fetch, elapsed, s, j);
        if rl.Ok? {
          ReadLogConsistent(fetch, elapsed, s, j);
          ReadServerLogsConsistent(fetch, elapsed, rl.value, j + 1);
        }
      } else {
        ReadServerLogsConsistent(fetch, elapsed, s, j + 1);
      }
    }
  }

  /** A server that is consistent before its iteration is consistent after. */
  lemma ProcessServerConsistent(fetch: Fetch, elapsed: Elapsed, s: WLSServer)
    requires CountsConsistent(s)
    ensures ProcessServer(fetch, elapsed, s).Ok? ==> CountsConsistent(ProcessServer(fetch, elapsed, s).value)
  {
    var r := ProcessServer(fetch, elapsed, s);
    if r.Ok? && GetLogListUrl(fetch, s).value.0.state == Running {
      var p := GetLogListUrl(fetch, s).value;
      var added := LogsFromLinks(fetch(p.1).value.links);
      var s2 := p.0.(logList := s.logList + added);
      ProcessRunningServerSteps(fetch, elapsed, s);
      LogsFromLinksFresh(fetch(p.1).value.links);
      FreshLogsKeepConsistent(s, p.0, added);
      ReadServerLogsConsistent(fetch, elapsed, s2, 0);
    }
  }

  /** Appending logs that have counted nothing to a server whose counts match
      those of a consistent server keeps it consistent. */
  lemma FreshLogsKeepConsistent(s: WLSServer, s1: WLSServer, added: seq<WLLog>)
    requires CountsConsistent(s) && s1.logList == s.logList && s1.errorCount == s.errorCount
    requires forall l :: l in added ==> l.logEntryList == [] && l.counter == 0
    ensures CountsConsistent(s1.(logList := s.logList + added))
  {
    SumCountersConcat(s.logList, added);
    SumCountersZero(added);
  }

  /** What a server looks like after the run has processed it. */
  predicate WellFormedServer(s: WLSServer) {
    && CountsConsistent(s)
    && (s.state != Running ==> s.logList == [] && s.health == "")
    && forall l :: l in s.logList ==>
         && !IsExcludedLogTitle(l.name)
         && forall e :: e in l.logEntryList ==> e.severity == "Error"
  }

  /** The steps of a successful iteration for a running server: the log-list
      response's logs are appended, then the log loop runs over all logs. */
  lemma ProcessRunningServerSteps(fetch: Fetch, elapsed: Elapsed, s: WLSServer)
    requires GetLogListUrl(fetch, s).Ok? && GetLogListUrl(fetch, s).value.0.state == Running
    ensures var p := GetLogListUrl(fetch, s).value;
      && (fetch(p.1).Err? ==> ProcessServer(fetch, elapsed, s) == Err(fetch(p.1).error))
      && (fetch(p.1).Ok? ==>
            ProcessServer(fetch, elapsed, s)
            == ReadServerLogs(fetch, elapsed, p.0.(logList := s.logList + LogsFromLinks(fetch(p.1).value.links)), 0))
  {
  }

  /** A freshly discovered server that is not running ends its iteration with
      its state recorded, its health still empty and no logs. */
  lemma ProcessFreshStoppedServer(fetch: Fetch, elapsed: Elapsed, s: WLSServer)
    requires IsFresh(s)
    requires ProcessServer(fetch, elapsed, s).Ok?
    requires ProcessServer(fetch, elapsed, s).value.state != Running
    ensures var r := ProcessServer(fetch, elapsed, s).value;
      && r.state == fetch(s.serverUrl).value.item.value.state
      && r.health == "" && r.logList == [] && r.errorCount == 0
  {
  }

  /** A freshly discovered running server ends its iteration with its state
      and health from its detail response and exactly the logs its log list
      names, each read once. */
  lemma ProcessFreshRunningServer(fetch: Fetch, elapsed: Elapsed, s: WLSServer)
    requires IsFresh(s)
    ensures ProcessServer(fetch, elapsed, s).Ok? && ProcessServer(fetch, elapsed, s).value.state == Running ==>
      var r := ProcessServer(fetch, elapsed, s).value;
      var item := fetch(s.serverUrl).value.item.value;
      var discovered := LogsFromLinks(fetch(GetLogListUrl(fetch, s).value.1).value.links);
      && r.state == item.state && r.health == item.health.value
      && |r.logList| == |discovered|
      && forall k :: 0 <= k < |discovered| ==> LogRead(fetch, elapsed, discovered[k], r.logList[k])
  {
    if ProcessServer(fetch, elapsed, s).Ok? && ProcessServer(fetch, elapsed, s).value.state == Running {
      var r := ProcessServer(fetch, elapsed, s).value;
      var p := GetLogListUrl(fetch, s).value;
      var links := fetch(p.1).value.links;
      var discovered := LogsFromLinks(links);
      ProcessRunningServerSteps(fetch, elapsed, s);
      var s2 := p.0.(logList := s.logList + discovered);
      assert s2.logList == discovered;
      AccessLogGuardAlwaysHolds(links);
      ReadServerLogsReads(fetch, elapsed, s2, 0);
      forall k | 0 <= k < |discovered|
        ensures LogRead(fetch, elapsed, discovered[k], r.logList[k])
      {
        assert discovered[k] in discovered;
      }
    }
  }

  /** A server whose detail says it is not running has no log fetched: its
      iteration depends on nothing but the response for its own URL. */
  lemma StoppedServerFetchesOnlyItsDetail(f1: Fetch, f2: Fetch, e1: Elapsed, e2: Elapsed, s: WLSServer)
    requires f1(s.serverUrl) == f2(s.serverUrl)
    requires f1(s.serverUrl).Ok? && f1(s.serverUrl).value.item.Some?
    requires f1(s.serverUrl).value.item.value.state != Running
    ensures ProcessServer(f1, e1, s) == ProcessServer(f2, e2, s)
  {
  }

  /** Every freshly discovered server that its iteration completes satisfies
      the model's invariants. */
  lemma ProcessFreshServerWellFormed(fetch: Fetch, elapsed: Elapsed, s: WLSServer)
    requires IsFresh(s)
    ensures ProcessServer(fetch, elapsed, s).Ok? ==> WellFormedServer(ProcessServer(fetch, elapsed, s).value)
  {
    if ProcessServer(fetch, elapsed, s).Ok? {
      ProcessServerConsistent(fetch, elapsed, s);
      if ProcessServer(fetch, elapsed, s).value.state == Running {
        ProcessFreshRunningLogs(fetch, elapsed, s);
      } else {
        ProcessFreshStoppedServer(fetch, elapsed, s);
      }
    }
  }

  /** The logs a fresh running server ends its iteration with are kept ones
      holding only Error entries. */
  lemma ProcessFreshRunningLogs(fetch: Fetch, elapsed: Elapsed, s: WLSServer)
    requires IsFresh(s)
    ensures ProcessServer(fetch, elapsed, s).Ok? && ProcessServer(fetch, elapsed, s).value.state == Running ==>
      forall l :: l in ProcessServer(fetch, elapsed, s).value.logList ==>
        && !IsExcludedLogTitle(l.name)
        && forall e :: e in l.logEntryList ==> e.severity == "Error"
  {
    if !(ProcessServer(fetch, elapsed, s).Ok? && ProcessServer(fetch, elapsed, s).value.state == Running) {
      return;
    }
    var r := ProcessServer(fetch, elapsed, s).value;
    var links := fetch(GetLogListUrl(fetch, s).value.1).value.links;
    var discovered := LogsFromLinks(links);
    ProcessFreshRunningServer(fetch, elapsed, s);
    LogsFromLinksKept(links);
    LogsFromLinksFresh(links);
    forall l | l in r.logList
      ensures !IsExcludedLogTitle(l.name)
      ensures forall e :: e in l.logEntryList ==> e.severity == "Error"
    {
      var k :| 0 <= k < |r.logList| && r.logList[k] == l;
      assert discovered[k] in discovered;
      FreshLogReadHoldsErrors(fetch, elapsed, discovered[k], l);
    }
  }

  /** Reading a log that started empty leaves only Error entries in it, under
      its old name. */
  lemma FreshLogReadHoldsErrors(fetch: Fetch, elapsed: Elapsed, before: WLLog, after: WLLog)
    requires before.logEntryList == []
    requires LogRead(fetch, elapsed, before, after)
    ensures after.name == before.name
    ensures forall e :: e in after.logEntryList ==> e.severity == "Error"
  {
    var items := fetch(before.logUrl).value.items;
    assert after.logEntryList == [] + ErrorEntries(items);
    ErrorEntriesAreErrors(items);
  }

  /** The loop over servers: every server is processed in order; the first
      fault ends the run. */
  function SearchServers(fetch: Fetch, elapsed: Elapsed, servers: seq<WLSServer>): (r: Result<seq<WLSServer>, Fault>)
    ensures r.Ok? <==> forall i :: 0 <= i < |servers| ==> ProcessServer(fetch, elapsed, servers[i]).Ok?
    ensures r.Ok? ==> |r.value| == |servers|
    ensures r.Ok? ==> forall i :: 0 <= i < |servers| ==> r.value[i] == ProcessServer(fetch, elapsed, servers[i]).value
  {
    if servers == [] then Ok([])
    else
      var first :- ProcessServer(fetch, elapsed, servers[0]);
      var rest :- SearchServers(fetch, elapsed, servers[1..]);
      Ok([first] + rest)
  }

  /** `searchServerLogs` over the whole domain. */
  function SearchServerLogs(fetch: Fetch, elapsed: Elapsed, d: WLSDomain): (r: Result<WLSDomain, Fault>)
    ensures r.Ok? <==> forall i :: 0 <= i < |d.serverList| ==> ProcessServer(fetch, elapsed, d.serverList[i]).Ok?
    ensures r.Ok? ==> |r.value.serverList| == |d.serverList|
    ensures r.Ok? ==> forall i :: 0 <= i < |d.serverList| ==>
              r.value.serverList[i] == ProcessServer(fetch, elapsed, d.serverList[i]).value
  {
    var servers :- SearchServers(fetch, elapsed, d.serverList);
    Ok(WLSDomain(servers))
  }

  /** The pipeline of one run, from an empty domain: discover the servers,
      then search their logs. It is all or nothing: a failed server-list fetch
      ends it with that fault; otherwise it completes exactly when every
      discovered server's iteration does, and then holds their results in
      discovery order. */
  function Run(fetch: Fetch, elapsed: Elapsed, host: string): (r: Result<WLSDomain, Fault>)
    ensures fetch(ServersUrl(host)).Err? ==> r == Err(fetch(ServersUrl(host)).error)
    ensures fetch(ServersUrl(host)).Ok? ==>
      var found := ServersFromLinks(fetch(ServersUrl(host)).value.links);
      && (r.Ok? <==> forall i :: 0 <= i < |found| ==> ProcessServer(fetch, elapsed, found[i]).Ok?)
      && (r.Ok? ==> && |r.value.serverList| == |found|
                    && forall i :: 0 <= i < |found| ==> r.value.serverList[i] == ProcessServer(fetch, elapsed, found[i]).value)
  {
    var d :- GetServers(fetch, WLSDomain([]), host);
    assert d.serverList == ServersFromLinks(fetch(ServersUrl(host)).value.links);
    SearchServerLogs(fetch, elapsed, d)
  }

  predicate WellFormedDomain(d: WLSDomain) {
    forall s :: s in d.serverList ==> WellFormedServer(s)
  }

  /** A completed run holds one server per server link, in link order, and
      every server satisfies the model's invariants. */
  lemma RunWellFormed(fetch: Fetch, elapsed: Elapsed, host: string)
    requires Run(fetch, elapsed, host).Ok?
    ensures var links := Filter(IsServerLink, fetch(ServersUrl(host)).value.links);
      var servers := Run(fetch, elapsed, host).value.serverList;
      && |servers| == |links|
      && (forall i :: 0 <= i < |links| ==> servers[i].name == links[i].title && servers[i].serverUrl == links[i].uri)
      && WellFormedDomain(Run(fetch, elapsed, host).value)
  {
    var servers := Run(fetch, elapsed, host).value.serverList;
    var links := Filter(IsServerLink, fetch(ServersUrl(host)).value.links);
    var found := ServersFromLinks(fetch(ServersUrl(host)).value.links);
    ServersFromLinksFresh(fetch(ServersUrl(host)).value.links);
    forall i | 0 <= i < |links|
      ensures servers[i].name == links[i].title && servers[i].serverUrl == links[i].uri
    {
      MapIndex(ServerOf, links, i);
    }
    forall s | s in servers
      ensures WellFormedServer(s)
    {
      var i :| 0 <= i < |servers| && servers[i] == s;
      assert found[i] in found;
      ProcessFreshServerWellFormed(fetch, elapsed, found[i]);
    }
  }
}
