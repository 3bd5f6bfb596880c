/** The Cloudflare record provider: its configuration, the records it
    fetches from the zone, and the cache of the last good fetch. The HTTP
    exchanges are abstracted into the outcome values they can end in. */
module CloudFlare {
  import opened Base

  const CLOUDFLARE_POLL_RATE: string := "CLOUDFLARE_POLL_RATE"
  const CLOUDFLARE_API_KEY: string := "CLOUDFLARE_API_KEY"
  const CLOUDFLARE_ZONE_ID: string := "CLOUDFLARE_ZONE_ID"

  /** Poll rate used when the environment gives none that parses. */
  const DEFAULT_POLL_RATE: usize := 300
  /** Smallest poll rate an explicitly constructed configuration allows. */
  const MIN_POLL_RATE: usize := 60

  /** The process environment after the `.env` file has been loaded. */
  type Env = map<string, string>

  function EnvVar(env: Env, key: string): Option<string> {
    if key in env then Some(env[key]) else None
  }

  // ---------------------------------------------------------------------
  // `usize::from_str`
  // ---------------------------------------------------------------------

  predicate IsDigit(c: char) { '0' <= c <= '9' }

  predicate AllDigits(s: string) {
    forall i :: 0 <= i < |s| ==> IsDigit(s[i])
  }

  /** The number a string of decimal digits denotes. */
  function DigitsValue(s: string): nat
    requires AllDigits(s)
  {
    if s == [] then 0
    else 10 * DigitsValue(s[..|s| - 1]) + (s[|s| - 1] as int - '0' as int)
  }

  /** Parses an unsigned integer the way `str::parse::<usize>` does: an
      optional leading `+`, then at least one decimal digit, and a value
      that fits in 64 bits. */
  function ParseUsize(s: string): (r: Option<usize>)
    ensures r.Some? ==> |s| > 0 && (IsDigit(s[0]) || (s[0] == '+' && |s| > 1 && IsDigit(s[1])))
    ensures |s| > 0 && s[0] == '-' ==> r.None?
    ensures r.Some? ==> AllDigits(if s[0] == '+' then s[1..] else s)
    ensures AllDigits(s) && s != [] ==>
              r == if DigitsValue(s) < USIZE_LIMIT then Some(DigitsValue(s) as usize) else None
    ensures |s| > 1 && s[0] == '+' && AllDigits(s[1..]) ==> r == ParseUsize(s[1..])
  {
    var digits := if |s| > 0 && s[0] == '+' then s[1..] else s;
    if digits == [] || !AllDigits(digits) then None
    else if DigitsValue(digits) < USIZE_LIMIT then Some(DigitsValue(digits) as usize)
    else None
  }

  /** The usual decimal spelling of a number, as an `.env` file holds it. */
  function Decimal(n: nat): string {
    if n < 10 then [('0' as int + n) as char]
    else Decimal(n / 10) + [('0' as int + n % 10) as char]
  }

  lemma {:induction false} DecimalDigits(n: nat)
    ensures Decimal(n) != [] && AllDigits(Decimal(n)) && Decimal(n)[0] != '+'
    ensures DigitsValue(Decimal(n)) == n
  {
    if n >= 10 {
      DecimalDigits(n / 10);
      var s := Decimal(n);
      assert s[..|s| - 1] == Decimal(n / 10);
    }
  }

  /** A poll rate written in decimal in the environment is read back exactly. */
  lemma ParseUsizeDecimal(n: usize)
    ensures ParseUsize(Decimal(n as nat)) == Some(n)
  {
    DecimalDigits(n as nat);
  }

  // ---------------------------------------------------------------------
  // Configuration
  // ---------------------------------------------------------------------

  datatype CloudFlareConfig = CloudFlareConfig(pollRate: usize, apiKey: string, zoneId: string)

  /** `CloudFlareConfig::default`: every setting from the environment; a
      poll rate that is missing or does not parse becomes 300, a missing
      key or zone id the empty string. The poll rate is not clamped. */
  function DefaultConfig(env: Env): (c: CloudFlareConfig)
    ensures CLOUDFLARE_POLL_RATE in env && ParseUsize(env[CLOUDFLARE_POLL_RATE]).Some? ==>
              c.pollRate == ParseUsize(env[CLOUDFLARE_POLL_RATE]).value
    ensures CLOUDFLARE_POLL_RATE !in env || ParseUsize(env[CLOUDFLARE_POLL_RATE]).None? ==>
              c.pollRate == DEFAULT_POLL_RATE
    ensures c.apiKey == if CLOUDFLARE_API_KEY in env then env[CLOUDFLARE_API_KEY] else ""
    ensures c.zoneId == if CLOUDFLARE_ZONE_ID in env then env[CLOUDFLARE_ZONE_ID] else ""
  {
    var pollRate :=
      match EnvVar(env, CLOUDFLARE_POLL_RATE)
      case Some(v) => ParseUsize(v).GetOr(DEFAULT_POLL_RATE)
      case None => DEFAULT_POLL_RATE;
    CloudFlareConfig(pollRate,
                     EnvVar(env, CLOUDFLARE_API_KEY).GetOr(""),
                     EnvVar(env, CLOUDFLARE_ZONE_ID).GetOr(""))
  }

  /** The default configuration takes any poll rate written in the
      environment as it is, below 60 included: only
      `CloudFlareConfig::new` clamps. */
  lemma DefaultConfigNotClamped(n: usize)
    ensures DefaultConfig(map[CLOUDFLARE_POLL_RATE := Decimal(n as nat)]).pollRate == n
  {
    ParseUsizeDecimal(n);
  }

  /** `CloudFlareConfig::new`: the poll rate clamped up to 60, an empty
      key replaced by the environment's, the zone id always from the
      environment. */
  function NewConfig(pollRate: usize, apiKey: string, env: Env): (c: CloudFlareConfig)
    ensures c.pollRate >= MIN_POLL_RATE
    ensures pollRate >= MIN_POLL_RATE ==> c.pollRate == pollRate
    ensures pollRate < MIN_POLL_RATE ==> c.pollRate == MIN_POLL_RATE
    ensures apiKey != "" ==> c.apiKey == apiKey
    ensures apiKey == "" ==> c.apiKey == DefaultConfig(env).apiKey
    ensures c.zoneId == DefaultConfig(env).zoneId
  {
    var rate := if pollRate < MIN_POLL_RATE then MIN_POLL_RATE else pollRate;
    var key := if apiKey == "" then DefaultConfig(env).apiKey else apiKey;
    CloudFlareConfig(rate, key, DefaultConfig(env).zoneId)
  }

  /** A non-empty key is used verbatim: the environment is not consulted
      for it, whatever it holds. */
  lemma NewConfigKeyIgnoresEnv(pollRate: usize, apiKey: string, env1: Env, env2: Env)
    requires apiKey != ""
    ensures NewConfig(pollRate, apiKey, env1).apiKey == NewConfig(pollRate, apiKey, env2).apiKey == apiKey
    ensures NewConfig(pollRate, apiKey, env1).pollRate == NewConfig(pollRate, apiKey, env2).pollRate
  {
  }

  /** The configuration the provider's unit test builds. */
  lemma NewConfigExample(env: Env)
    ensures NewConfig(30, "test_key", env).pollRate == 60
    ensures NewConfig(30, "test_key", env).apiKey == "test_key"
  {
  }

  // ---------------------------------------------------------------------
  // Records
  // ---------------------------------------------------------------------

  /** A DNS record of the zone; `recordId` is set for fetched records. */
  datatype CloudFlareRecord = CloudFlareRecord(
    content: IpAddr,
    name: string,
    recordType: string,
    ttl: u32,
    proxied: bool,
    zoneId: string,
    recordId: Option<string>)
  {
    function GetId(): (r: Option<string>) ensures r == recordId { recordId }
    function GetName(): (r: string) ensures r == name { name }
    function GetContent(): (r: IpAddr) ensures r == content { content }

    /** A copy of the record that points at `newContent`. */
    function UpdateContent(newContent: IpAddr): (r: CloudFlareRecord)
      ensures r.GetContent() == newContent
      ensures r.(content := content) == this
    {
      this.(content := newContent)
    }
  }

  /** One element of the `result` array of a list response. */
  datatype CloudflareResult = CloudflareResult(
    id: string,
    name: string,
    content: string,
    recordType: string,
    ttl: u32,
    proxied: bool,
    zoneId: string)

  /** How the list request ended: the authorization header could not be
      built, the request could not be sent, the body could not be read or
      did not decode, or a decoded `{success, result}` body. */
  datatype FetchOutcome =
    | HeaderErr
    | SendErr
    | TextErr
    | ParseErr
    | Response(success: bool, result: seq<CloudflareResult>)

  /** How the update request ended: sent and answered with a 2xx status, or not. */
  datatype PutOutcome = PutOk | PutErr

  /** The record built from a fetched result whose content parsed as `ip`. */
  function FromResult(res: CloudflareResult, ip: IpAddr): (r: CloudFlareRecord)
    ensures r.GetContent() == ip && r.GetId() == Some(res.id) && r.GetName() == res.name
    ensures r.recordType == res.recordType && r.ttl == res.ttl && r.proxied == res.proxied && r.zoneId == res.zoneId
  {
    CloudFlareRecord(ip, res.name, res.recordType, res.ttl, res.proxied, res.zoneId, Some(res.id))
  }

  /** The `filter_map` over a list response: results whose content is not
      an IP address are dropped, the others converted in order. */
  function FilterRecords(results: seq<CloudflareResult>, parse: string -> Option<IpAddr>): (r: seq<CloudFlareRecord>)
    ensures |r| <= |results|
  {
    if results == [] then []
    else
      var head := match parse(results[0].content)
                  case Some(ip) => [FromResult(results[0], ip)]
                  case None => [];
      head + FilterRecords(results[1..], parse)
  }

  /** Filtering works result by result, so the order of the response is kept. */
  lemma {:induction false} FilterRecordsAppend(a: seq<CloudflareResult>, b: seq<CloudflareResult>,
                                              parse: string -> Option<IpAddr>)
    ensures FilterRecords(a + b, parse) == FilterRecords(a, parse) + FilterRecords(b, parse)
  {
    if a == [] {
      assert a + b == b;
    } else {
      assert (a + b)[0] == a[0] && (a + b)[1..] == a[1..] + b;
      FilterRecordsAppend(a[1..], b, parse);
    }
  }

  /** A record is fetched exactly when some result's content parses as
      its address and the record carries that result's id, name, type,
      ttl, proxied flag and zone id. */
  lemma {:induction false} FilterRecordsMembers(results: seq<CloudflareResult>, parse: string -> Option<IpAddr>,
                                               x: CloudFlareRecord)
    ensures x in FilterRecords(results, parse) <==>
              exists i :: 0 <= i < |results| && parse(results[i].content).Some? &&
                          x == FromResult(results[i], parse(results[i].content).value)
  {
    if results != [] {
      FilterRecordsMembers(results[1..], parse, x);
      if exists i :: 0 <= i < |results| && parse(results[i].content).Some? &&
                     x == FromResult(results[i], parse(results[i].content).value) {
        var i :| 0 <= i < |results| && parse(results[i].content).Some? &&
                 x == FromResult(results[i], parse(results[i].content).value);
        if i > 0 {
          assert results[1..][i - 1] == results[i];
        }
      }
      if exists j :: 0 <= j < |results[1..]| && parse(results[1..][j].content).Some? &&
                     x == FromResult(results[1..][j], parse(results[1..][j].content).value) {
        var j :| 0 <= j < |results[1..]| && parse(results[1..][j].content).Some? &&
                 x == FromResult(results[1..][j], parse(results[1..][j].content).value);
        assert results[j + 1] == results[1..][j];
      }
    }
  }

  /** When every content parses, nothing is dropped: the fetched records
      are the results converted one for one. */
  lemma {:induction false} FilterRecordsAllParse(results: seq<CloudflareResult>, parse: string -> Option<IpAddr>)
    requires forall i :: 0 <= i < |results| ==> parse(results[i].content).Some?
    ensures |FilterRecords(results, parse)| == |results|
    ensures forall i :: 0 <= i < |results| ==>
              FilterRecords(results, parse)[i] == FromResult(results[i], parse(results[i].content).value)
  {
    if results != [] {
      assert forall i :: 0 <= i < |results[1..]| ==> results[1..][i] == results[i + 1];
      FilterRecordsAllParse(results[1..], parse);
    }
  }

  /** The cache after a list request: replaced by the filtered results on
      a successful response, kept as it was on every failure. */
  function Fetched(cached: seq<CloudFlareRecord>, outcome: FetchOutcome,
                   parse: string -> Option<IpAddr>): seq<CloudFlareRecord>
  {
    if outcome.Response? && outcome.success then FilterRecords(outcome.result, parse) else cached
  }

  // ---------------------------------------------------------------------
  // The update request
  // ---------------------------------------------------------------------

  /** The JSON body of the PUT request. */
  datatype Payload = Payload(content: IpAddr, name: string, proxied: bool, recordType: string, ttl: u32)

  /** A PUT to `zones/{zoneId}/dns_records/{recordId}` with `payload`. */
  datatype PutRequest = PutRequest(zoneId: string, recordId: string, payload: Payload)

  function PutRequestFor(config: CloudFlareConfig, record: CloudFlareRecord): (r: PutRequest)
    ensures r.zoneId == config.zoneId
    ensures r.recordId == if record.recordId.Some? then record.recordId.value else ""
    ensures r.payload.content == record.content && r.payload.name == record.name
    ensures r.payload.proxied == record.proxied && r.payload.recordType == record.recordType
    ensures r.payload.ttl == record.ttl
  {
    PutRequest(config.zoneId, record.GetId().GetOr(""),
               Payload(record.content, record.name, record.proxied, record.recordType, record.ttl))
  }

  /** The requests `UpdateRecord` sends for `rs`, in order. */
  function RequestsFor(config: CloudFlareConfig, rs: seq<CloudFlareRecord>): seq<PutRequest> {
    seq(|rs|, i requires 0 <= i < |rs| => PutRequestFor(config, rs[i]))
  }

  /** Two records produce the same request exactly when they agree on the
      id (a missing id reads as empty), content, name, proxied flag, type
      and ttl: the record's own zone id is never sent, the configured one is. */
  lemma PutRequestDetermines(config: CloudFlareConfig, a: CloudFlareRecord, b: CloudFlareRecord)
    ensures PutRequestFor(config, a) == PutRequestFor(config, b) <==>
              a.GetId().GetOr("") == b.GetId().GetOr("") && a.content == b.content && a.name == b.name &&
              a.proxied == b.proxied && a.recordType == b.recordType && a.ttl == b.ttl
    ensures PutRequestFor(config, a).zoneId == config.zoneId
  {
  }

  // ---------------------------------------------------------------------
  // The provider
  // ---------------------------------------------------------------------

  class CloudFlareApi {
    var config: CloudFlareConfig
    /** The records of the last successful fetch. */
    var records: seq<CloudFlareRecord>
    /** How many times the records were fetched. */
    ghost var fetches: nat
    /** The records passed to `UpdateRecord`, in call order. */
    ghost var updates: seq<CloudFlareRecord>
    /** The update requests attempted, in call order (whether or not they
        reached the server). */
    ghost var sent: seq<PutRequest>

    /** `ApiTrait::new`: a configuration from the arguments, no records yet. */
    constructor (pollRate: usize, apiKey: string, env: Env)
      ensures config == NewConfig(pollRate, apiKey, env)
      ensures records == [] && fetches == 0 && updates == [] && sent == []
    {
      config := NewConfig(pollRate, apiKey, env);
      records := [];
      fetches := 0;
      updates := [];
      sent := [];
    }

    /** The derived `Default`: a configuration from the environment alone. */
    constructor Default(env: Env)
      ensures config == DefaultConfig(env)
      ensures records == [] && fetches == 0 && updates == [] && sent == []
    {
      config := DefaultConfig(env);
      records := [];
      fetches := 0;
      updates := [];
      sent := [];
    }

    function GetPollRate(): (r: usize)
      reads this
      ensures r == config.pollRate
    {
      config.pollRate
    }

    /** Lists the zone's records. Every failure leaves the cache as it was
        and returns it; a successful response replaces the cache with the
        results whose content is an IP address. */
    method GetRecords(outcome: FetchOutcome, parse: string -> Option<IpAddr>) returns (r: seq<CloudFlareRecord>)
      modifies this
      ensures !(outcome.Response? && outcome.success) ==> records == old(records)
      ensures outcome.Response? && outcome.success ==> records == FilterRecords(outcome.result, parse)
      ensures r == records
      ensures config == old(config) && fetches == old(fetches) + 1
      ensures updates == old(updates) && sent == old(sent)
    {
      fetches := fetches + 1;
      match outcome
      case HeaderErr =>
        return records;
      case SendErr =>
        return records;
      case TextErr =>
        return records;
      case ParseErr =>
        return records;
      case Response(success, result) =>
        if !success {
          return records;
        }
        records := FilterRecords(result, parse);
        return records;
    }

    /** Puts `record` to the zone and returns it unchanged, whether or not
        the request succeeded. */
    method UpdateRecord(record: CloudFlareRecord, outcome: PutOutcome) returns (r: CloudFlareRecord)
      modifies this
      ensures r == record
      ensures updates == old(updates) + [record]
      ensures sent == old(sent) + [PutRequestFor(config, record)]
      ensures config == old(config) && records == old(records) && fetches == old(fetches)
    {
      updates := updates + [record];
      sent := sent + [PutRequestFor(config, record)];
      match outcome
      case PutOk =>
        r := record;
      case PutErr =>
        r := record;
    }
  }
}
