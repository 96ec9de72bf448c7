/**
 * `SIEMTool` of tools/siem_tool.py: queries over a list of log records.
 * The tool holds the list it was built with and no query changes it, so
 * the list is an immutable value each query receives.
 */
module SiemTool {
  import opened Wrappers
  import opened PyStrings
  import opened Sequences
  import opened Counting

  /** A log record; a field the record lacks is `None`. */
  datatype Log = Log(
    eventId: Option<string>,
    timestamp: Option<string>,
    sourceIp: Option<string>,
    destinationIp: Option<string>,
    user: Option<string>,
    severity: Option<string>,
    message: Option<string>)

  /** `log.get(field, default)` */
  function Field(field: Option<string>, default: string): string {
    if field.Some? then field.value else default
  }

  // ---------------------------------------------------------------------------
  // `search_logs`

  predicate Mentions(log: Log, keyword: string) {
    Contains(Lower(Field(log.message, "")), Lower(keyword))
  }

  /** The logs whose message mentions the keyword, in log order. */
  function Matching(logs: seq<Log>, keyword: string): seq<Log> {
    Filter(logs, (log: Log) => Mentions(log, keyword))
  }

  /** `search_logs(keyword, limit)` */
  function SearchLogs(logs: seq<Log>, keyword: string, limit: int): seq<Log> {
    SliceTo(Matching(logs, keyword), limit)
  }

  /** The answer is the first `limit` of the logs whose message mentions
      the keyword, whatever its case, in log order (for a negative `limit`,
      all but the last `-limit` of them); when they fit, every such log
      comes back as often as it occurs. */
  lemma SearchLogsSpec(logs: seq<Log>, keyword: string, limit: int)
    ensures var all := Matching(logs, keyword);
            var r := SearchLogs(logs, keyword, limit);
            && r == all[..|r|]
            && (0 <= limit ==> |r| == if limit < |all| then limit else |all|)
            && (limit < 0 ==> |r| == if |all| + limit > 0 then |all| + limit else 0)
            && Subsequence(r, logs)
            && (forall i :: 0 <= i < |r| ==> Mentions(r[i], keyword))
            && (|all| <= limit ==>
                  forall log :: multiset(r)[log] == if Mentions(log, keyword) then multiset(logs)[log] else 0)
  {
    var p := (log: Log) => Mentions(log, keyword);
    var all := Filter(logs, p);
    FilterSpec(logs, p);
    var r := SearchLogs(logs, keyword, limit);
    assert r == all[..|r|];
    PrefixSubsequence(all, logs, |r|);
    if |all| <= limit {
      assert r == all;
    }
  }

  /** The keyword is matched without regard to case: keywords that agree
      once lower-cased give the same answer. */
  lemma SearchIgnoresCase(logs: seq<Log>, keyword: string, other: string, limit: int)
    ensures Lower(keyword) == Lower(other) ==> SearchLogs(logs, keyword, limit) == SearchLogs(logs, other, limit)
  {
    if Lower(keyword) == Lower(other) {
      FilterSame(logs, (log: Log) => Mentions(log, keyword), (log: Log) => Mentions(log, other));
    }
  }

  /** For instance `ERROR` and `error` find the same logs. */
  lemma SearchCaseExample(logs: seq<Log>, limit: int)
    ensures SearchLogs(logs, "ERROR", limit) == SearchLogs(logs, "error", limit)
  {
    assert Lower("ERROR") == Lower("error");
    SearchIgnoresCase(logs, "ERROR", "error", limit);
  }

  // ---------------------------------------------------------------------------
  // `get_alerts`

  predicate HasSeverity(log: Log, severity: string) {
    Upper(Field(log.severity, "")) == Upper(severity)
  }

  /** `get_alerts(severity)`: only a non-empty severity filters. */
  function GetAlerts(logs: seq<Log>, severity: Option<string>): seq<Log> {
    if severity.Some? && severity.value != "" then
      Filter(logs, (log: Log) => HasSeverity(log, severity.value))
    else logs
  }

  /** With a severity the answer is exactly the logs of that severity,
      whatever its case, in log order and as often as they occur; without
      one it is every log. */
  lemma GetAlertsSpec(logs: seq<Log>, severity: Option<string>)
    ensures Subsequence(GetAlerts(logs, severity), logs)
    ensures severity.Some? && severity.value != "" ==>
              forall log :: log in GetAlerts(logs, severity) <==> log in logs && HasSeverity(log, severity.value)
    ensures severity.Some? && severity.value != "" ==>
              forall log :: multiset(GetAlerts(logs, severity))[log] ==
                if HasSeverity(log, severity.value) then multiset(logs)[log] else 0
    ensures severity.None? || severity == Some("") ==> GetAlerts(logs, severity) == logs
  {
    if severity.Some? && severity.value != "" {
      FilterSpec(logs, (log: Log) => HasSeverity(log, severity.value));
    } else {
      SubsequenceRefl(logs);
    }
  }

  lemma {:induction false} SubsequenceRefl(s: seq<Log>)
    ensures Subsequence(s, s)
    decreases |s|
  {
    if |s| > 0 {
      SubsequenceRefl(s[1..]);
    }
  }

  // ---------------------------------------------------------------------------
  // `get_event_details`

  /** The first log with the event id, or `None`. */
  function GetEventDetails(logs: seq<Log>, eventId: string): (r: Option<Log>)
    ensures r.None? <==> forall k :: 0 <= k < |logs| ==> logs[k].eventId != Some(eventId)
    ensures r.Some? ==> exists k :: 0 <= k < |logs| && logs[k] == r.value &&
                          r.value.eventId == Some(eventId) &&
                          forall j :: 0 <= j < k ==> logs[j].eventId != Some(eventId)
  {
    if |logs| == 0 then None
    else if logs[0].eventId == Some(eventId) then Some(logs[0])
    else
      var r := GetEventDetails(logs[1..], eventId);
      assert forall k :: 1 <= k < |logs| ==> logs[k] == logs[1..][k - 1];
      if r.Some? then
        var k :| 0 <= k < |logs[1..]| && logs[1..][k] == r.value && r.value.eventId == Some(eventId) &&
                  forall j :: 0 <= j < k ==> logs[1..][j].eventId != Some(eventId);
        assert logs[k + 1] == r.value;
        r
      else r
  }

  // ---------------------------------------------------------------------------
  // `get_top_sources`

  /** The truthy `source_ip`s, in log order. */
  function Sources(logs: seq<Log>): seq<string> {
    if |logs| == 0 then []
    else
      var last := logs[|logs| - 1];
      Sources(logs[..|logs| - 1]) + (if last.sourceIp.Some? && last.sourceIp.value != "" then [last.sourceIp.value] else [])
  }

  /** The number of logs from `ip`. */
  function LogsFrom(logs: seq<Log>, ip: string): nat {
    if |logs| == 0 then 0
    else LogsFrom(logs[..|logs| - 1], ip) + (if logs[|logs| - 1].sourceIp == Some(ip) then 1 else 0)
  }

  lemma {:induction false} SourcesCount(logs: seq<Log>, ip: string)
    requires ip != ""
    ensures Occurrences(Sources(logs), ip) == LogsFrom(logs, ip)
    ensures ip in Sources(logs) <==> LogsFrom(logs, ip) > 0
    ensures "" !in Sources(logs)
    decreases |logs|
  {
    if |logs| > 0 {
      var prefix := logs[..|logs| - 1];
      SourcesCount(prefix, ip);
      var last := logs[|logs| - 1];
      var extra := if last.sourceIp.Some? && last.sourceIp.value != "" then [last.sourceIp.value] else [];
      var s := Sources(logs);
      assert s == Sources(prefix) + extra;
      if extra != [] {
        assert s[..|s| - 1] == Sources(prefix);
      } else {
        assert s == Sources(prefix);
      }
      OccursIn(s, ip);
      OccursIn(Sources(prefix), ip);
    }
  }

  lemma {:induction false} OccursIn(keys: seq<string>, k: string)
    ensures k in keys <==> Occurrences(keys, k) > 0
    decreases |keys|
  {
    if |keys| > 0 {
      OccursIn(keys[..|keys| - 1], k);
      assert keys == keys[..|keys| - 1] + [keys[|keys| - 1]];
    }
  }

  /** `get_top_sources(n)`: count the logs per truthy source, sort by count
      descending and keep the first `n` items. */
  method TopSources(logs: seq<Log>, n: int) returns (r: Counts)
    ensures r == SliceTo(SortDescending(Tally(Sources(logs))), n)
  {
    var counts: Counts := [];
    var i := 0;
    while i < |logs|
      invariant 0 <= i <= |logs|
      invariant counts == Tally(Sources(logs[..i]))
    {
      assert logs[..i + 1][..i] == logs[..i];
      var src := logs[i].sourceIp;
      if src.Some? && src.value != "" {
        assert Sources(logs[..i + 1]) == Sources(logs[..i]) + [src.value];
        TallyAppend(Sources(logs[..i]), src.value);
        counts := Bump(counts, src.value);
      } else {
        assert Sources(logs[..i + 1]) == Sources(logs[..i]);
      }
      i := i + 1;
    }
    assert logs[..i] == logs;
    r := SliceTo(SortDescending(counts), n);
  }

  /** Each item of the top sources is a truthy source with its number of
      logs. */
  lemma TopSourcesCounts(logs: seq<Log>, n: int)
    ensures var r := SliceTo(SortDescending(Tally(Sources(logs))), n);
            forall i :: 0 <= i < |r| ==> r[i].0 != "" && r[i].1 == LogsFrom(logs, r[i].0)
  {
    var all := Tally(Sources(logs));
    var sorted := SortDescending(all);
    var r := SliceTo(sorted, n);
    SortDescendingSpec(all);
    TallyItems(Sources(logs));
    SourcesCount(logs, "-");
    forall i | 0 <= i < |r| ensures r[i].0 != "" && r[i].1 == LogsFrom(logs, r[i].0) {
      assert r[i] == sorted[i];
      assert r[i] in multiset(sorted);
      assert r[i].0 in Sources(logs);
      SourcesCount(logs, r[i].0);
    }
  }

  /** The first `n` items of a counting dictionary sorted by count come by
      count descending, each key once, at most `n` of them. */
  lemma TopOrdered(all: Counts, n: int)
    requires Distinct(Names(all))
    ensures var r := SliceTo(SortDescending(all), n);
            && NonIncreasing(r)
            && Distinct(Names(r))
            && (0 <= n ==> |r| <= n)
  {
    var sorted := SortDescending(all);
    var r := SliceTo(sorted, n);
    SortDescendingSpec(all);
    SortedNames(all, sorted);
    assert Names(r) == Names(sorted)[..|r|];
  }

  /** No item left out of the first `n` has a higher count than one kept. */
  lemma TopDominates(all: Counts, n: int)
    ensures var r := SliceTo(SortDescending(all), n);
            forall i, y :: 0 <= i < |r| && y in all && y !in r ==> y.1 <= r[i].1
  {
    var sorted := SortDescending(all);
    var r := SliceTo(sorted, n);
    SortDescendingSpec(all);
    forall i, y | 0 <= i < |r| && y in all && y !in r ensures y.1 <= r[i].1 {
      assert y in multiset(sorted);
      var j :| 0 <= j < |sorted| && sorted[j] == y;
      assert r[i] == sorted[i];
    }
  }

  /** Among equal counts the first `n` items keep the order of the
      dictionary, which is the order the keys first appeared in. */
  lemma TopStable(all: Counts, n: int, c: nat)
    ensures var r := SliceTo(SortDescending(all), n);
            WithCount(all, c) == WithCount(r, c) + WithCount(SortDescending(all)[|r|..], c)
  {
    var sorted := SortDescending(all);
    var r := SliceTo(sorted, n);
    SortDescendingSpec(all);
    assert sorted == r + sorted[|r|..];
    WithCountAppend(r, sorted[|r|..], c);
  }

  /** Sorting a dictionary's items keeps its keys distinct. */
  lemma SortedNames(c: Counts, sorted: Counts)
    requires Distinct(Names(c))
    requires multiset(sorted) == multiset(c)
    ensures Distinct(Names(sorted))
  {
    forall i, j | 0 <= i < j < |sorted| ensures sorted[i].0 != sorted[j].0 {
      if sorted[i].0 == sorted[j].0 {
        assert sorted[i] in multiset(c) && sorted[j] in multiset(c);
        var a :| 0 <= a < |c| && c[a] == sorted[i];
        var b :| 0 <= b < |c| && c[b] == sorted[j];
        assert Names(c)[a] == Names(c)[b];
        if a == b {
          OccursOnce(c, a);
          OccursTwice(sorted, i, j);
        }
      }
    }
  }

  /** An item of a dictionary with distinct keys occurs in it once. */
  lemma {:induction false} OccursOnce(c: Counts, a: nat)
    requires Distinct(Names(c)) && a < |c|
    ensures multiset(c)[c[a]] == 1
    decreases |c|
  {
    var x := c[a];
    assert c == [c[0]] + c[1..];
    assert Names(c[1..]) == Names(c)[1..];
    if a == 0 {
      forall k | 0 <= k < |c[1..]| ensures c[1..][k] != x {
        assert Names(c)[k + 1] != Names(c)[0];
      }
      assert x !in c[1..];
    } else {
      assert Names(c)[0] != Names(c)[a];
      assert c[1..][a - 1] == x;
      OccursOnce(c[1..], a - 1);
    }
  }

  /** An item at two positions occurs at least twice. */
  lemma OccursTwice(s: Counts, i: nat, j: nat)
    requires i < j < |s| && s[i] == s[j]
    ensures multiset(s)[s[i]] >= 2
  {
    assert s == s[..j] + [s[j]] + s[j + 1..];
    assert s[..j][i] == s[i];
  }

  // ---------------------------------------------------------------------------
  // `get_summary`

  /** `log.get("severity", "UNKNOWN").upper()` */
  function SeverityKey(log: Log): string {
    Upper(Field(log.severity, "UNKNOWN"))
  }

  function SeverityKeys(logs: seq<Log>): (r: seq<string>)
    ensures |r| == |logs|
  {
    if |logs| == 0 then [] else SeverityKeys(logs[..|logs| - 1]) + [SeverityKey(logs[|logs| - 1])]
  }

  /** `get_summary()` */
  method Summary(logs: seq<Log>) returns (r: Counts)
    ensures r == Tally(SeverityKeys(logs))
  {
    r := [];
    var i := 0;
    while i < |logs|
      invariant 0 <= i <= |logs|
      invariant r == Tally(SeverityKeys(logs[..i]))
    {
      assert logs[..i + 1][..i] == logs[..i];
      TallyAppend(SeverityKeys(logs[..i]), SeverityKey(logs[i]));
      r := Bump(r, SeverityKey(logs[i]));
      i := i + 1;
    }
    assert logs[..i] == logs;
  }

  /** Each severity is counted once per log of that severity, each key
      comes once, and the counts add up to the number of logs; a log
      without a severity counts as `UNKNOWN`. */
  lemma SummarySpec(logs: seq<Log>)
    ensures var r := Tally(SeverityKeys(logs));
            && Total(r) == |logs|
            && Distinct(Names(r))
            && (forall k :: Lookup(r, k) == Occurrences(SeverityKeys(logs), k))
  {
    TallySpec(SeverityKeys(logs));
  }

  /** A log without a severity is counted under `UNKNOWN`. */
  lemma SummaryUnknown(logs: seq<Log>, i: nat)
    requires i < |logs| && logs[i].severity.None?
    ensures Lookup(Tally(SeverityKeys(logs)), "UNKNOWN") > 0
  {
    var keys := SeverityKeys(logs);
    TallySpec(keys);
    SeverityKeyAt(logs, i);
    UpperUnknown();
    OccursIn(keys, "UNKNOWN");
  }

  lemma UpperUnknown()
    ensures Upper("UNKNOWN") == "UNKNOWN"
  {
    var s := "UNKNOWN";
    assert forall i :: 0 <= i < |s| ==> !('a' <= s[i] <= 'z');
  }

  lemma {:induction false} SeverityKeyAt(logs: seq<Log>, i: nat)
    requires i < |logs|
    ensures SeverityKeys(logs)[i] == SeverityKey(logs[i])
    decreases |logs|
  {
    if i < |logs| - 1 {
      SeverityKeyAt(logs[..|logs| - 1], i);
    }
  }

  // ---------------------------------------------------------------------------
  // `correlate_with_ioc`

  /** `{"matches": [...], "count": len(matches)}` */
  datatype Correlation = Correlation(matches: seq<Log>, count: int)

  /** The fields searched, missing ones as `""`. */
  function Searched(log: Log): seq<string> {
    [Field(log.sourceIp, ""), Field(log.destinationIp, ""), Field(log.user, ""), Field(log.message, "")]
  }

  /** The lower-cased IOC occurs in one of the lower-cased fields. */
  predicate Correlates(log: Log, ioc: string) {
    exists k :: 0 <= k < 4 && Contains(Lower(Searched(log)[k]), Lower(ioc))
  }

  /** `correlate_with_ioc(ioc)`: the inner loop stops at the first field
      that matches, so a log is added once. */
  method CorrelateWithIoc(logs: seq<Log>, ioc: string) returns (r: Correlation)
    ensures r.matches == Filter(logs, (log: Log) => Correlates(log, ioc))
    ensures r.count == |r.matches|
  {
    var iocLower := Lower(ioc);
    var matches: seq<Log> := [];
    ghost var p := (log: Log) => Correlates(log, ioc);
    var i := 0;
    while i < |logs|
      invariant 0 <= i <= |logs|
      invariant matches == Filter(logs[..i], p)
    {
      var log := logs[i];
      var fields := Searched(log);
      var j := 0;
      var found := false;
      while j < |fields|
        invariant 0 <= j <= |fields|
        invariant found ==> Correlates(log, ioc)
        invariant !found ==> forall k :: 0 <= k < j ==> !Contains(Lower(fields[k]), iocLower)
      {
        if Contains(Lower(fields[j]), iocLower) {
          found := true;
          break;
        }
        j := j + 1;
      }
      if found {
        matches := matches + [log];
      }
      assert logs[..i + 1] == logs[..i] + [log];
      FilterAppend(logs[..i], [log], p);
      i := i + 1;
    }
    assert logs[..i] == logs;
    return Correlation(matches, |matches|);
  }

  /** A log comes back, in log order and as often as it occurs in the
      list, exactly when the IOC occurs in one of its searched fields. */
  lemma CorrelationSpec(logs: seq<Log>, ioc: string)
    ensures var m := Filter(logs, (log: Log) => Correlates(log, ioc));
            && Subsequence(m, logs)
            && (forall log :: log in m <==> log in logs && Correlates(log, ioc))
            && forall log :: multiset(m)[log] == if Correlates(log, ioc) then multiset(logs)[log] else 0
  {
    FilterSpec(logs, (log: Log) => Correlates(log, ioc));
  }

  /** A missing field is searched as `""`, which only the empty IOC
      matches. */
  lemma EmptyIocMatchesAll(logs: seq<Log>)
    ensures Filter(logs, (log: Log) => Correlates(log, "")) == logs
  {
    forall log: Log ensures Correlates(log, "") {
      assert StartsWith(Lower(Searched(log)[0]), Lower(""));
    }
    FilterAll(logs, (log: Log) => Correlates(log, ""));
  }

  lemma {:induction false} FilterAll(s: seq<Log>, p: Log -> bool)
    requires forall x :: p(x)
    ensures Filter(s, p) == s
    decreases |s|
  {
    if |s| > 0 {
      FilterAll(s[1..], p);
    }
  }
}
