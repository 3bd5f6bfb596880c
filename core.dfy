/** The reconciliation loop: resolve the public address, fetch the zone's
    records, and update every record whose content differs from it. The
    loop is generic over the provider in the program; here it runs over the
    Cloudflare provider, its only implementation. */
module Core {
  import opened Base
  import opened CloudFlare

  /** `Record::eq`: two records are the same for the loop when their
      content, id and name agree; ttl, proxied flag, type and zone id are
      not compared. */
  function Eq(a: CloudFlareRecord, b: CloudFlareRecord): (r: bool)
    ensures r <==> a.content == b.content && a.recordId == b.recordId && a.name == b.name
  {
    a.GetContent() == b.GetContent() && a.GetId() == b.GetId() && a.GetName() == b.GetName()
  }

  lemma EqIgnoresMetadata(a: CloudFlareRecord, b: CloudFlareRecord,
                           ttl: u32, proxied: bool, recordType: string, zoneId: string)
    ensures Eq(a.(ttl := ttl, proxied := proxied, recordType := recordType, zoneId := zoneId), b) == Eq(a, b)
  {
  }

  /** `Eq` is an equivalence, so in particular an unmodified clone of a
      record is never sent as an update. */
  lemma EqEquivalence(a: CloudFlareRecord, b: CloudFlareRecord, c: CloudFlareRecord)
    ensures Eq(a, a)
    ensures Eq(a, b) ==> Eq(b, a)
    ensures Eq(a, b) && Eq(b, c) ==> Eq(a, c)
  {
  }

  /** The candidate the loop builds for `record`: its content replaced by
      the resolved address when it differs. */
  function Candidate(record: CloudFlareRecord, ip: IpAddr): (r: CloudFlareRecord)
    ensures r.content == ip
    ensures r.(content := record.content) == record
  {
    if record.GetContent() != ip then record.UpdateContent(ip) else record
  }

  /** The candidate is sent (it is not `Eq` to its record) exactly when
      the record's content is not the resolved address. */
  lemma CandidateChanged(record: CloudFlareRecord, ip: IpAddr)
    ensures !Eq(Candidate(record, ip), record) <==> record.content != ip
  {
  }

  /** The records the loop body passes to `UpdateRecord` for a snapshot,
      step by step as the loop visits them. */
  function CycleUpdates(snapshot: seq<CloudFlareRecord>, ip: IpAddr): seq<CloudFlareRecord> {
    if snapshot == [] then []
    else
      var record := snapshot[|snapshot| - 1];
      var candidate := Candidate(record, ip);
      CycleUpdates(snapshot[..|snapshot| - 1], ip) + if !Eq(candidate, record) then [candidate] else []
  }

  /** What reconciliation should send, stated on its own: every record
      whose content is not `ip`, in snapshot order, pointed at `ip`. */
  function Refreshed(snapshot: seq<CloudFlareRecord>, ip: IpAddr): (r: seq<CloudFlareRecord>)
    ensures |r| <= |snapshot|
    ensures forall k :: 0 <= k < |r| ==> r[k].content == ip
  {
    if snapshot == [] then []
    else
      (if snapshot[0].content != ip then [snapshot[0].(content := ip)] else [])
      + Refreshed(snapshot[1..], ip)
  }

  /** Refreshing a snapshot is refreshing its parts in order. */
  lemma {:induction false} RefreshedAppend(a: seq<CloudFlareRecord>, b: seq<CloudFlareRecord>, ip: IpAddr)
    ensures Refreshed(a + b, ip) == Refreshed(a, ip) + Refreshed(b, ip)
  {
    if a == [] {
      assert a + b == b;
    } else {
      assert (a + b)[0] == a[0] && (a + b)[1..] == a[1..] + b;
      RefreshedAppend(a[1..], b, ip);
    }
  }

  /** The loop body sends exactly the refreshed records. */
  lemma {:induction false} CycleUpdatesAreRefreshed(snapshot: seq<CloudFlareRecord>, ip: IpAddr)
    ensures CycleUpdates(snapshot, ip) == Refreshed(snapshot, ip)
  {
    if snapshot != [] {
      var init, last := snapshot[..|snapshot| - 1], snapshot[|snapshot| - 1];
      CycleUpdatesAreRefreshed(init, ip);
      CandidateChanged(last, ip);
      assert snapshot == init + [last];
      RefreshedAppend(init, [last], ip);
      assert Refreshed([last], ip) == (if last.content != ip then [last.(content := ip)] else []) + Refreshed([], ip);
    }
  }

  /** A record is sent exactly when it is some snapshot record whose
      content differs from `ip`, with only that content replaced. */
  lemma {:induction false} RefreshedMembers(snapshot: seq<CloudFlareRecord>, ip: IpAddr, x: CloudFlareRecord)
    ensures x in Refreshed(snapshot, ip) <==>
              exists i :: 0 <= i < |snapshot| && snapshot[i].content != ip && x == snapshot[i].UpdateContent(ip)
  {
    if snapshot != [] {
      RefreshedMembers(snapshot[1..], ip, x);
      if exists i :: 0 <= i < |snapshot| && snapshot[i].content != ip && x == snapshot[i].UpdateContent(ip) {
        var i :| 0 <= i < |snapshot| && snapshot[i].content != ip && x == snapshot[i].UpdateContent(ip);
        if i > 0 {
          assert snapshot[1..][i - 1] == snapshot[i];
        }
      }
      if exists j :: 0 <= j < |snapshot[1..]| && snapshot[1..][j].content != ip && x == snapshot[1..][j].UpdateContent(ip) {
        var j :| 0 <= j < |snapshot[1..]| && snapshot[1..][j].content != ip && x == snapshot[1..][j].UpdateContent(ip);
        assert snapshot[j + 1] == snapshot[1..][j];
      }
    }
  }

  /** A cycle sends nothing exactly when every record already holds the
      resolved address. */
  lemma {:induction false} RefreshedEmpty(snapshot: seq<CloudFlareRecord>, ip: IpAddr)
    ensures Refreshed(snapshot, ip) == [] <==> forall i :: 0 <= i < |snapshot| ==> snapshot[i].content == ip
  {
    if snapshot != [] {
      RefreshedEmpty(snapshot[1..], ip);
      assert forall i :: 0 < i < |snapshot| ==> snapshot[i] == snapshot[1..][i - 1];
    }
  }

  /** A zone holding one record at 203.0.113.5, resolved to 203.0.113.9:
      one update, with only the content changed. */
  lemma ExampleStaleRecord()
    ensures var record := CloudFlareRecord(V4(203, 0, 113, 5), "home.example.com", "A", 1, false, "zone", Some("id"));
            CycleUpdates([record], V4(203, 0, 113, 9)) == [record.(content := V4(203, 0, 113, 9))]
  {
  }

  /** The same record already at the resolved address: no update. */
  lemma ExampleCurrentRecord()
    ensures var record := CloudFlareRecord(V4(203, 0, 113, 9), "home.example.com", "A", 1, false, "zone", Some("id"));
            CycleUpdates([record], V4(203, 0, 113, 9)) == []
  {
  }

  /** The inputs of one iteration of the loop: what the STUN lookup gave,
      how the list request ended, and how each update request ends. */
  datatype Poll = Poll(checkIp: Result<SocketAddr>, fetch: FetchOutcome, put: nat -> PutOutcome)

  /** What a run of iterations leaves behind: the provider's cache, the
      records passed to `UpdateRecord` and the sleeps taken, in order. */
  datatype Trace = Trace(records: seq<CloudFlareRecord>, updates: seq<CloudFlareRecord>, sleeps: seq<usize>)

  /** The effect of running the loop over `polls`, starting from a cache
      `start`, with a provider whose poll rate is `pollRate`. */
  function Replay(start: seq<CloudFlareRecord>, polls: seq<Poll>, parse: string -> Option<IpAddr>,
                  pollRate: usize): (t: Trace)
    ensures |t.sleeps| <= |polls|
    ensures forall k :: 0 <= k < |t.sleeps| ==> t.sleeps[k] == pollRate
  {
    if polls == [] then Trace(start, [], [])
    else
      var t := Replay(start, polls[..|polls| - 1], parse, pollRate);
      var poll := polls[|polls| - 1];
      match poll.checkIp
      case Err(_) => t
      case Ok(addr) =>
        var snapshot := Fetched(t.records, poll.fetch, parse);
        Trace(snapshot, t.updates + Refreshed(snapshot, addr.Ip()), t.sleeps + [pollRate])
  }

  /** While the address cannot be resolved the loop does nothing at all:
      no fetch, no update, and no sleep before it tries again. */
  lemma {:induction false} ReplayUnresolved(start: seq<CloudFlareRecord>, polls: seq<Poll>,
                                           parse: string -> Option<IpAddr>, pollRate: usize)
    requires forall i :: 0 <= i < |polls| ==> polls[i].checkIp.Err?
    ensures Replay(start, polls, parse, pollRate) == Trace(start, [], [])
  {
    if polls != [] {
      ReplayUnresolved(start, polls[..|polls| - 1], parse, pollRate);
    }
  }

  class Updater {
    const api: CloudFlareApi

    /** `Updater::new`: a provider configured from the arguments. */
    constructor (pollRate: usize, apiKey: string, env: Env)
      ensures fresh(api)
      ensures api.config == NewConfig(pollRate, apiKey, env)
      ensures api.records == [] && api.fetches == 0 && api.updates == [] && api.sent == []
    {
      api := new CloudFlareApi(pollRate, apiKey, env);
    }

    /** One iteration of `Updater::run`. When the lookup fails nothing else
        happens (`slept` is None). Otherwise the records are fetched once,
        every record whose content is not the resolved address is sent,
        in order, with only its content replaced, and the loop sleeps for
        the provider's poll rate. */
    method RunCycle(checkIp: Result<SocketAddr>, fetch: FetchOutcome, parse: string -> Option<IpAddr>,
                    put: nat -> PutOutcome) returns (slept: Option<usize>)
      modifies api
      ensures api.config == old(api.config)
      ensures checkIp.Err? ==>
                slept == None && api.records == old(api.records) && api.fetches == old(api.fetches) &&
                api.updates == old(api.updates) && api.sent == old(api.sent)
      ensures checkIp.Ok? ==>
                slept == Some(api.GetPollRate()) && api.fetches == old(api.fetches) + 1 &&
                api.records == Fetched(old(api.records), fetch, parse) &&
                api.updates == old(api.updates) + Refreshed(api.records, checkIp.value.Ip()) &&
                api.sent == old(api.sent) + RequestsFor(api.config, api.updates[|old(api.updates)|..])
    {
      var currentIp: SocketAddr;
      match checkIp {
        case Err(_) =>
          return None;
        case Ok(addr) =>
          currentIp := addr;
      }
      var records := api.GetRecords(fetch, parse);
      var i := 0;
      while i < |records|
        invariant 0 <= i <= |records|
        invariant api.config == old(api.config) && api.records == records
        invariant api.records == Fetched(old(api.records), fetch, parse)
        invariant api.fetches == old(api.fetches) + 1
        invariant api.updates == old(api.updates) + CycleUpdates(records[..i], currentIp.Ip())
        invariant api.sent == old(api.sent) + RequestsFor(api.config, CycleUpdates(records[..i], currentIp.Ip()))
      {
        var record := records[i];
        var recordClone := record;
        if record.GetContent() != currentIp.Ip() {
          recordClone := recordClone.UpdateContent(currentIp.Ip());
        }
        if !Eq(recordClone, record) {
          var _ := api.UpdateRecord(recordClone, put(i));
        }
        assert records[..i + 1][..i] == records[..i];
        i := i + 1;
      }
      assert records[..i] == records;
      CycleUpdatesAreRefreshed(records, currentIp.Ip());
      slept := Some(api.GetPollRate());
    }

    /** `Updater::run` for as many iterations as `polls` holds inputs for:
        its effect is the replay of those iterations. */
    method Run(polls: seq<Poll>, parse: string -> Option<IpAddr>) returns (sleeps: seq<usize>)
      modifies api
      ensures api.config == old(api.config)
      ensures |old(api.updates)| <= |api.updates| && api.updates[..|old(api.updates)|] == old(api.updates)
      ensures Replay(old(api.records), polls, parse, api.GetPollRate()) ==
                Trace(api.records, api.updates[|old(api.updates)|..], sleeps)
    {
      sleeps := [];
      var i := 0;
      while i < |polls|
        invariant 0 <= i <= |polls|
        invariant api.config == old(api.config)
        invariant |old(api.updates)| <= |api.updates| && api.updates[..|old(api.updates)|] == old(api.updates)
        invariant Replay(old(api.records), polls[..i], parse, api.GetPollRate()) ==
                    Trace(api.records, api.updates[|old(api.updates)|..], sleeps)
      {
        var slept := RunCycle(polls[i].checkIp, polls[i].fetch, parse, polls[i].put);
        if slept.Some? {
          sleeps := sleeps + [slept.value];
        }
        assert polls[..i + 1][..i] == polls[..i];
        i := i + 1;
      }
      assert polls[..i] == polls;
    }
  }
}
