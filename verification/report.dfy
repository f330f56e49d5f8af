/** The decisions the HTML report makes about a finished domain: the class of
    each statistics row and what the details section lists. Markup and file
    output are not modelled. */
module Report {
  import opened Results
  import opened Seqs
  import opened Domain
  import opened Search

  /** The Bootstrap row classes the statistics tables use: 'warning',
      'success' and 'danger'. */
  datatype RowClass = Warning | Success | Danger

  /** Class of a server row: flagged when it has errors, otherwise green when
      running and red when not. */
  function ServerRowClass(s: WLSServer): (c: RowClass)
    ensures c == Warning <==> s.errorCount > 0
    ensures c == Success <==> s.errorCount == 0 && s.state == Running
    ensures c == Danger <==> s.errorCount == 0 && s.state != Running
  {
    if s.errorCount > 0 then Warning
    else if s.state == Running then Success
    else Danger
  }

  /** Class of a log row: flagged when it has errors, otherwise green. */
  function LogRowClass(l: WLLog): (c: RowClass)
    ensures c != Danger
    ensures c == Warning <==> l.counter > 0
  {
    if l.counter > 0 then Warning else Success
  }

  /** In a processed domain a flagged server row is always a running server,
      and a red row is a stopped server with no logs and no health. */
  lemma ServerRowClassOfWellFormed(s: WLSServer)
    requires WellFormedServer(s)
    ensures ServerRowClass(s) == Warning ==> s.state == Running && exists l :: l in s.logList && l.counter > 0
    ensures ServerRowClass(s) == Danger ==> s.logList == [] && s.health == ""
  {
    SumCountersPositive(s.logList);
  }

  /** In a processed domain a log row is flagged exactly when it holds entries. */
  lemma LogRowClassOfConsistent(l: WLLog)
    requires CounterMatches(l)
    ensures LogRowClass(l) == Warning <==> l.logEntryList != []
  {
  }

  /** One entry block of the details section: `#ordinal/total - server - log`
      and the entry's text. */
  datatype EntryBlock = EntryBlock(ordinal: nat, total: nat, serverName: string, logName: string, text: string)

  /** The sub-heading of one log and its entry blocks. */
  datatype LogSection = LogSection(logName: string, blocks: seq<EntryBlock>)

  /** The heading of one server and its log sections. */
  datatype ServerSection = ServerSection(serverName: string, logs: seq<LogSection>)

  function EntryText(e: LogEntry): string {
    e.when + " " + e.severity + " " + e.message
  }

  /** The loop over a log's entries with its running `outputCounter`. */
  function EntryBlocksFrom(serverName: string, l: WLLog, entries: seq<LogEntry>, outputCounter: nat): (bs: seq<EntryBlock>)
    ensures |bs| == |entries|
    ensures forall k :: 0 <= k < |bs| ==>
              bs[k] == EntryBlock(outputCounter + k + 1, l.counter, serverName, l.name, EntryText(entries[k]))
    decreases entries
  {
    if entries == [] then []
    else
      [EntryBlock(outputCounter + 1, l.counter, serverName, l.name, EntryText(entries[0]))]
        + EntryBlocksFrom(serverName, l, entries[1..], outputCounter + 1)
  }

  function EntryBlocks(serverName: string, l: WLLog): seq<EntryBlock> {
    EntryBlocksFrom(serverName, l, l.logEntryList, 0)
  }

  predicate HasLogErrors(l: WLLog) {
    l.counter > 0
  }

  predicate HasServerErrors(s: WLSServer) {
    s.errorCount > 0
  }

  function SectionOf(serverName: string, l: WLLog): LogSection {
    LogSection(l.name, EntryBlocks(serverName, l))
  }

  /** The logs of one server the details section lists: those with errors. */
  function LogSections(serverName: string, logs: seq<WLLog>): (r: seq<LogSection>)
    ensures r == Map((l: WLLog) => SectionOf(serverName, l), Filter(HasLogErrors, logs))
  {
    if logs == [] then []
    else
      var rest := LogSections(serverName, logs[1..]);
      assert logs == [logs[0]] + logs[1..];
      FilterMapCons(HasLogErrors, (l: WLLog) => SectionOf(serverName, l), logs[0], logs[1..]);
      if logs[0].counter > 0 then [SectionOf(serverName, logs[0])] + rest else rest
  }

  function ServerSectionOf(s: WLSServer): ServerSection {
    ServerSection(s.name, LogSections(s.name, s.logList))
  }

  /** The details section: one section per server with errors, in order. */
  function Details(servers: seq<WLSServer>): (r: seq<ServerSection>)
    ensures r == Map(ServerSectionOf, Filter(HasServerErrors, servers))
  {
    if servers == [] then []
    else
      var rest := Details(servers[1..]);
      assert servers == [servers[0]] + servers[1..];
      FilterMapCons(HasServerErrors, ServerSectionOf, servers[0], servers[1..]);
      if servers[0].errorCount > 0 then [ServerSectionOf(servers[0])] + rest else rest
  }

  /** In a consistent log the blocks are numbered 1..counter out of counter. */
  lemma EntryNumbering(serverName: string, l: WLLog)
    requires CounterMatches(l)
    ensures var bs := EntryBlocks(serverName, l);
      && |bs| == l.counter
      && forall k :: 0 <= k < |bs| ==> bs[k].ordinal == k + 1 && bs[k].total == l.counter
  {
  }

  /** For a consistent server, it gets a details heading exactly when at least
      one of its logs gets a sub-heading. */
  lemma ServerSectionNonEmpty(s: WLSServer)
    requires CountsConsistent(s)
    ensures HasServerErrors(s) <==> LogSections(s.name, s.logList) != []
  {
    SumCountersPositive(s.logList);
    if HasServerErrors(s) {
      var l :| l in s.logList && l.counter > 0;
      FilterMembership(HasLogErrors, s.logList, l);
    } else {
      FilterNone(HasLogErrors, s.logList);
    }
  }

  /** The anchor the details section declares for a server's heading. */
  function ServerAnchor(s: WLSServer): string {
    s.name
  }

  /** The anchor the details section declares for a log's sub-heading. */
  function LogAnchor(s: WLSServer, l: WLLog): string {
    s.name + l.name
  }

  /** The in-page anchor an `href` jumps to, when it is a fragment link. */
  function FragmentTarget(href: string): Option<string> {
    if |href| > 0 && href[0] == '#' then Some(href[1..]) else None
  }

  /** The link of a flagged server row as the statistics table writes it:
      the bare server name, which is a relative URL and never a fragment
      link to the server's heading. */
  function ServerRowHrefAsWritten(s: WLSServer): (h: string)
    ensures FragmentTarget(h) != Some(ServerAnchor(s))
  {
    var h := s.name;
    assert |h| > 0 ==> |h[1..]| < |h|;
    h
  }

  /** A concrete instance of the discrepancy, kept as the worked example:
      for a server named "ms1" the link as written is no fragment link at
      all. */
  lemma ServerRowHrefAsWrittenMissesAnchor()
    ensures var s := NewServer("ms1", "/s1");
      FragmentTarget(ServerRowHrefAsWritten(s)) != Some(ServerAnchor(s))
  {
    assert ServerRowHrefAsWritten(NewServer("ms1", "/s1"))[0] == 'm';
  }

  /** The flagged-server link as the log rows write theirs: a fragment that
      jumps to the server's heading. */
  function ServerRowHref(s: WLSServer): (h: string)
    ensures FragmentTarget(h) == Some(ServerAnchor(s))
  {
    var h := "#" + s.name;
    assert h[1..] == s.name;
    h
  }

  /** The link of a flagged log row: a fragment that jumps to the log's
      sub-heading in the details section. */
  function LogRowHref(s: WLSServer, l: WLLog): (h: string)
    ensures FragmentTarget(h) == Some(LogAnchor(s, l))
  {
    var h := "#" + s.name + l.name;
    assert h[1..] == s.name + l.name;
    h
  }
}
