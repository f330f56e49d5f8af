/** The in-memory tree the pipeline builds: a domain owns servers, a server
    owns logs, a log owns the error entries read from it. Every operation is a
    functional update of one record. */
module Domain {

  /** One recorded entry: severity, server-supplied timestamp, message text. */
  datatype LogEntry = LogEntry(severity: string, when: string, message: string)

  /** A log stream of a server, the entries kept from it and how many. */
  datatype WLLog = WLLog(name: string, logUrl: string, logEntryList: seq<LogEntry>,
                         counter: nat, duration: string)

  /** A server instance: identity, lifecycle information and its logs. */
  datatype WLSServer = WLSServer(name: string, serverUrl: string, logList: seq<WLLog>,
                                 health: string, state: string, errorCount: nat)

  /** The root aggregate: servers in discovery order. */
  datatype WLSDomain = WLSDomain(serverList: seq<WLSServer>)

  const Running: string := "running"

  /** A server as the constructor leaves it: nothing known, nothing counted. */
  predicate IsFresh(s: WLSServer) {
    s.logList == [] && s.health == "" && s.state == "" && s.errorCount == 0
  }

  /** A log's counter agrees with the entries it holds. */
  predicate CounterMatches(l: WLLog) {
    l.counter == |l.logEntryList|
  }

  /** Total of the counters of `logs`. */
  function SumCounters(logs: seq<WLLog>): nat {
    if logs == [] then 0 else logs[0].counter + SumCounters(logs[1..])
  }

  /** Every log's counter matches its entries and the server's error count is
      the sum of its logs' counters. */
  predicate CountsConsistent(s: WLSServer) {
    && s.errorCount == SumCounters(s.logList)
    && forall l :: l in s.logList ==> CounterMatches(l)
  }

  function NewServer(name: string, serverUrl: string): (s: WLSServer)
    ensures IsFresh(s) && CountsConsistent(s)
    ensures s.name == name && s.serverUrl == serverUrl
  {
    WLSServer(name, serverUrl, [], "", "", 0)
  }

  function NewLog(name: string, logUrl: string): (l: WLLog)
    ensures CounterMatches(l) && l.logEntryList == [] && l.duration == ""
    ensures l.name == name && l.logUrl == logUrl
  {
    WLLog(name, logUrl, [], 0, "")
  }

  /** `addServer`: the domain gains `s` after the servers it had. */
  function AddServer(d: WLSDomain, s: WLSServer): (r: WLSDomain)
    ensures |r.serverList| == |d.serverList| + 1
    ensures r.serverList[..|d.serverList|] == d.serverList && r.serverList[|d.serverList|] == s
  {
    WLSDomain(d.serverList + [s])
  }

  /** `addLog`: the server gains `l` after the logs it had and nothing else
      changes; adding a log that has counted nothing keeps the counts
      consistent. */
  function AddLog(s: WLSServer, l: WLLog): (r: WLSServer)
    ensures |r.logList| == |s.logList| + 1
    ensures r.logList[..|s.logList|] == s.logList && r.logList[|s.logList|] == l
    ensures r.(logList := s.logList) == s
    ensures CountsConsistent(s) && CounterMatches(l) && l.counter == 0 ==> CountsConsistent(r)
  {
    SumCountersConcat(s.logList, [l]);
    s.(logList := s.logList + [l])
  }

  /** `setHealth`: only the health changes. */
  function SetHealth(s: WLSServer, health: string): (r: WLSServer)
    ensures r.health == health && r.(health := s.health) == s
    ensures CountsConsistent(s) ==> CountsConsistent(r)
  {
    s.(health := health)
  }

  /** `setState`: only the state changes. */
  function SetState(s: WLSServer, state: string): (r: WLSServer)
    ensures r.state == state && r.(state := s.state) == s
    ensures CountsConsistent(s) ==> CountsConsistent(r)
  {
    s.(state := state)
  }

  /** `incrementError`: the error count goes up by one and nothing else
      changes. On its own it breaks the counts; see `RecordErrorConsistent`. */
  function IncrementError(s: WLSServer): (r: WLSServer)
    ensures r.errorCount == s.errorCount + 1 && r.(errorCount := s.errorCount) == s
  {
    s.(errorCount := s.errorCount + 1)
  }

  /** `addLogEntry`: the entry is appended and counted; the log's name, URL
      and duration stay as they were. */
  function AddLogEntry(l: WLLog, e: LogEntry): (r: WLLog)
    ensures r.logEntryList == l.logEntryList + [e] && r.counter == l.counter + 1
    ensures CounterMatches(l) ==> CounterMatches(r)
    ensures r.name == l.name && r.logUrl == l.logUrl && r.duration == l.duration
  {
    l.(logEntryList := l.logEntryList + [e], counter := l.counter + 1)
  }

  /** `setDuration`: only the duration changes. */
  function SetDuration(l: WLLog, duration: string): (r: WLLog)
    ensures r.duration == duration && r.(duration := l.duration) == l
    ensures CounterMatches(l) ==> CounterMatches(r)
  {
    l.(duration := duration)
  }

  /** The pairing the item loop relies on: appending an entry to one log of a
      consistent server and incrementing the server's error count leaves the
      server consistent. */
  lemma RecordErrorConsistent(s: WLSServer, j: nat, e: LogEntry)
    requires j < |s.logList| && CountsConsistent(s)
    ensures CountsConsistent(IncrementError(s).(logList := s.logList[j := AddLogEntry(s.logList[j], e)]))
  {
    var l' := AddLogEntry(s.logList[j], e);
    SumCountersUpdate(s.logList, j, l');
    forall l | l in s.logList[j := l']
      ensures CounterMatches(l)
    {
      var k :| 0 <= k < |s.logList| && s.logList[j := l'][k] == l;
      if k != j {
        assert s.logList[k] in s.logList;
      }
    }
  }

  /** Replacing one log changes the total by the difference of its counters. */
  lemma {:induction false} SumCountersUpdate(logs: seq<WLLog>, j: nat, l: WLLog)
    requires j < |logs|
    ensures SumCounters(logs[j := l]) + logs[j].counter == SumCounters(logs) + l.counter
  {
    if j > 0 {
      assert logs[j := l][1..] == logs[1..][j - 1 := l];
      SumCountersUpdate(logs[1..], j - 1, l);
    }
  }

  /** The total is positive exactly when some log has a positive counter. */
  lemma {:induction false} SumCountersPositive(logs: seq<WLLog>)
    ensures SumCounters(logs) > 0 <==> exists l :: l in logs && l.counter > 0
  {
    if logs != [] {
      SumCountersPositive(logs[1..]);
      assert forall l :: l in logs <==> l == logs[0] || l in logs[1..];
    }
  }

  /** The total over a concatenation is the sum of the totals. */
  lemma {:induction false} SumCountersConcat(a: seq<WLLog>, b: seq<WLLog>)
    ensures SumCounters(a + b) == SumCounters(a) + SumCounters(b)
  {
    if a != [] {
      assert (a + b)[0] == a[0];
      assert (a + b)[1..] == a[1..] + b;
      SumCountersConcat(a[1..], b);
    } else {
      assert a + b == b;
    }
  }

  /** Logs that have counted nothing contribute nothing to the total. */
  lemma {:induction false} SumCountersZero(logs: seq<WLLog>)
    requires forall l :: l in logs ==> l.counter == 0
    ensures SumCounters(logs) == 0
  {
    if logs != [] {
      assert logs[0] in logs;
      assert forall l :: l in logs[1..] ==> l in logs;
      SumCountersZero(logs[1..]);
    }
  }
}
