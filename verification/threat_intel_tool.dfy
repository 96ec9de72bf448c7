/**
 * `ThreatIntelTool` of tools/threat_intel_tool.py: reputation lookups and
 * an active-threat filter over a list of intelligence entries, which no
 * query changes.
 */
module ThreatIntelTool {
  import opened Wrappers
  import opened PyStrings
  import opened Sequences

  /** An intelligence entry; a key the entry lacks is `None`. */
  datatype Entry = Entry(
    ioc: Option<string>,
    kind: Option<string>,
    reputation: Option<string>,
    lastSeen: Option<string>,
    threatLevel: Option<string>,
    description: Option<string>)

  /** `ThreatIntelTool(intel_db)`: `intel_db or []`. */
  function Init(intelDb: Option<seq<Entry>>): (db: seq<Entry>)
    ensures intelDb.None? ==> db == []
    ensures intelDb.Some? ==> db == intelDb.value
  {
    if intelDb.Some? && intelDb.value != [] then intelDb.value else []
  }

  /** The record returned for an IOC the database does not know. */
  function Unknown(ioc: string): Entry {
    Entry(Some(ioc), None, Some("unknown"), None, Some("unknown"), Some("No data"))
  }

  // ---------------------------------------------------------------------------
  // `get_ip_reputation`

  predicate IsIpEntry(e: Entry, ip: string) {
    e.kind == Some("IP") && e.ioc == Some(ip)
  }

  /** `get_ip_reputation(ip)` */
  function IpReputation(db: seq<Entry>, ip: string): Entry {
    if |db| == 0 then Unknown(ip)
    else if IsIpEntry(db[0], ip) then db[0]
    else IpReputation(db[1..], ip)
  }

  /** The first `IP` entry whose IOC is exactly `ip`, or the unknown
      record for `ip`. */
  lemma {:induction false} IpReputationSpec(db: seq<Entry>, ip: string)
    ensures match Find(db, (e: Entry) => IsIpEntry(e, ip))
            case None => IpReputation(db, ip) == Unknown(ip)
            case Some(i) => IpReputation(db, ip) == db[i]
    decreases |db|
  {
    if |db| > 0 && !IsIpEntry(db[0], ip) {
      IpReputationSpec(db[1..], ip);
    }
  }

  // ---------------------------------------------------------------------------
  // `get_domain_reputation`, `get_file_hash_reputation`

  /** What `.lower()` on a missing IOC raises. */
  const NoneLower: string := "'NoneType' object has no attribute 'lower'"

  /** An entry of the kind whose IOC matches the key ignoring case. */
  predicate IsCaselessMatch(e: Entry, kind: string, key: string) {
    e.kind == Some(kind) && e.ioc.Some? && Lower(e.ioc.value) == Lower(key)
  }

  /** An entry at which the search stops: a match, or an entry of the
      kind without an IOC, which raises. */
  predicate StopsAt(e: Entry, kind: string, key: string) {
    e.kind == Some(kind) && (e.ioc.None? || Lower(e.ioc.value) == Lower(key))
  }

  /** The loop of `get_domain_reputation` (kind `Domain`) and of
      `get_file_hash_reputation` (kind `File`). */
  function CaselessReputation(db: seq<Entry>, kind: string, key: string): Result<Entry, string> {
    if |db| == 0 then Success(Unknown(key))
    else if db[0].kind == Some(kind) then
      if db[0].ioc.None? then Failure(NoneLower)
      else if Lower(db[0].ioc.value) == Lower(key) then Success(db[0])
      else CaselessReputation(db[1..], kind, key)
    else CaselessReputation(db[1..], kind, key)
  }

  function DomainReputation(db: seq<Entry>, domain: string): Result<Entry, string> {
    CaselessReputation(db, "Domain", domain)
  }

  function FileHashReputation(db: seq<Entry>, sha256: string): Result<Entry, string> {
    CaselessReputation(db, "File", sha256)
  }

  /** The search returns the first entry of the kind whose IOC matches
      ignoring case, or the unknown record when there is none; it raises
      when an entry of the kind without an IOC comes first. It never
      answers `None`. */
  lemma {:induction false} CaselessReputationSpec(db: seq<Entry>, kind: string, key: string)
    ensures match Find(db, (e: Entry) => StopsAt(e, kind, key))
            case None => CaselessReputation(db, kind, key) == Success(Unknown(key))
            case Some(i) =>
              if db[i].ioc.None? then CaselessReputation(db, kind, key) == Failure(NoneLower)
              else CaselessReputation(db, kind, key) == Success(db[i]) && IsCaselessMatch(db[i], kind, key)
    decreases |db|
  {
    if |db| > 0 && !StopsAt(db[0], kind, key) {
      CaselessReputationSpec(db[1..], kind, key);
    }
  }

  /** A domain is found whatever the case it is written in. */
  lemma DomainCaseExample()
    ensures var e := Entry(Some("evil.com"), Some("Domain"), Some("malicious"), None, Some("HIGH"), None);
            DomainReputation([e], "EVIL.com") == Success(e)
  {
    assert Lower("evil.com") == Lower("EVIL.com");
  }

  /** An IP is compared exactly, and an unknown one gets the unknown
      record. */
  lemma IpExample()
    ensures var e := Entry(Some("10.0.0.1"), Some("IP"), Some("malicious"), None, Some("HIGH"), None);
            && IpReputation([e], "10.0.0.1") == e
            && IpReputation([e], "10.0.0.2") == Unknown("10.0.0.2")
  {
  }

  // ---------------------------------------------------------------------------
  // `get_active_threats`

  predicate IsActive(e: Entry) {
    e.reputation == Some("malicious") ||
    Upper(if e.threatLevel.Some? then e.threatLevel.value else "") == "HIGH"
  }

  /** `get_active_threats()` */
  function ActiveThreats(db: seq<Entry>): seq<Entry> {
    Filter(db, IsActive)
  }

  /** Exactly the malicious or high-threat entries, in database order and
      as often as they occur. */
  lemma ActiveThreatsSpec(db: seq<Entry>)
    ensures Subsequence(ActiveThreats(db), db)
    ensures forall e :: e in ActiveThreats(db) <==> e in db && IsActive(e)
    ensures forall e :: multiset(ActiveThreats(db))[e] == if IsActive(e) then multiset(db)[e] else 0
  {
    FilterSpec(db, IsActive);
  }

  /** A threat level is compared ignoring case. */
  lemma ActiveExample()
    ensures IsActive(Entry(None, None, Some("clean"), None, Some("high"), None))
    ensures !IsActive(Entry(None, None, Some("Malicious"), None, Some("LOW"), None))
  {
    assert Upper("high") == "HIGH";
    assert Upper("LOW")[0] == 'L';
  }
}
