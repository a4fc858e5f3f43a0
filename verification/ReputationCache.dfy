/**
 How long a reputation verdict may live: the aggregate and provider caches
 (internal/reputation/cache.go), durable evidence, and the expiry that EvaluateIP
 gives an aggregate (internal/reputation/engine.go:136-150, 216-314).
 */
module ReputationCache {
  import opened Wrappers
  import opened Reputation

  /** What an aggregate carries of a provider: failures carry nothing that could expire. */
  type Evidence = Outcome

  datatype Entry = Entry(decision: Decision, evidences: seq<Evidence>, expiresAt: int)

  datatype ProviderEntry = ProviderEntry(report: Report, expiresAt: int)

  /** TTLs in force; a configured TTL that is not positive falls back to the aggregate's. */
  datatype Windows = Windows(ttl: int, providers: map<string, int>)

  function ProviderTTL(w: Windows, provider: string): int {
    if provider in w.providers && w.providers[provider] > 0 then w.providers[provider] else w.ttl
  }

  /** The evidence whose age limits an aggregate. */
  predicate Limits(e: Evidence) {
    e.Reported? && e.report.status != Unknown && e.report.observedAt.Some?
  }

  function Limit(w: Windows, e: Evidence): int
    requires Limits(e)
  {
    e.report.observedAt.value + ProviderTTL(w, e.report.provider)
  }

  /** No later than the freshness window of any of its evidence allows. */
  ghost predicate Fresh(w: Windows, entry: Entry) {
    forall k | 0 <= k < |entry.evidences| && Limits(entry.evidences[k]) ::
        entry.expiresAt <= Limit(w, entry.evidences[k])
  }

  /** The largest expiry that is neither later than `start` nor beyond any window. */
  ghost predicate LatestFresh(w: Windows, evidences: seq<Evidence>, start: int, expiry: int) {
    && expiry <= start
    && (forall k | 0 <= k < |evidences| && Limits(evidences[k]) :: expiry <= Limit(w, evidences[k]))
    && (expiry == start || exists k :: 0 <= k < |evidences| && Limits(evidences[k]) && expiry == Limit(w, evidences[k]))
  }

  method AggregateExpiry(w: Windows, evidences: seq<Evidence>, start: int) returns (expiry: int)
    ensures LatestFresh(w, evidences, start, expiry)
    ensures expiry < start ==> exists k ::
      && 0 <= k < |evidences| && evidences[k].Reported? && evidences[k].report.status != Unknown
      && evidences[k].report.observedAt.Some? && expiry == Limit(w, evidences[k])
  {
    expiry := start;
    for i := 0 to |evidences|
      invariant expiry <= start
      invariant forall k | 0 <= k < i && Limits(evidences[k]) :: expiry <= Limit(w, evidences[k])
      invariant expiry == start || exists k :: 0 <= k < i && Limits(evidences[k]) && expiry == Limit(w, evidences[k])
    {
      if Limits(evidences[i]) && Limit(w, evidences[i]) < expiry {
        expiry := Limit(w, evidences[i]);
      }
    }
  }

  // ---- Durable evidence ----

  /** A row of reputation evidence: the flags are already combined. */
  datatype Row = Row(provider: string, status: Status, hardReject: bool, penalty: int, fraudScore: int, flags: Flags,
                     countryCode: string, observedAt: int, reason: string)

  const PROXY_CHECK := "ProxyCheck.io"

  function Own(net: bool, own: Option<bool>): bool {
    if own.Some? then own.value else net
  }

  /** persistEvidence: a provider's own flag, when it gives one, wins over its network information. */
  function Persist(r: Report, fraudScore: int, observedAt: int, reason: string): Row {
    Row(r.provider, r.status, r.hardReject, r.penalty, fraudScore,
        Flags(Own(r.net.vpn, r.vpn), Own(r.net.proxy, r.proxy), Own(r.net.tor, r.tor), Own(r.net.hosting, r.hosting)),
        r.countryCode, observedAt, reason)
  }

  /** reputationResultFromEvidence, with its rule for rows from before decisions were stored. */
  function Restore(row: Row): Option<Report> {
    if row.status == Unknown then None
    else if row.reason == "" && row.provider != PROXY_CHECK then None
    else
      var legacy := row.reason == "";
      Some(Report(row.provider, row.status,
                  if legacy then row.status == Bad else row.hardReject,
                  if legacy && row.status == Risky then row.fraudScore else row.penalty,
                  row.flags, Some(row.flags.vpn), Some(row.flags.proxy), Some(row.flags.tor), Some(row.flags.hosting),
                  row.countryCode, Some(row.observedAt)))
  }

  /** Nothing but the flags of a known verdict changes on the way: a provider's own flag is kept for its network's. */
  lemma RestoredMeans(r: Report, fraudScore: int, observedAt: int, reason: string)
    requires r.status != Unknown && reason != ""
    ensures var flags := Flags(if r.vpn.Some? then r.vpn.value else r.net.vpn,
                               if r.proxy.Some? then r.proxy.value else r.net.proxy,
                               if r.tor.Some? then r.tor.value else r.net.tor,
                               if r.hosting.Some? then r.hosting.value else r.net.hosting);
      Restore(Persist(r, fraudScore, observedAt, reason)) ==
        Some(Report(r.provider, r.status, r.hardReject, r.penalty, flags, Some(flags.vpn), Some(flags.proxy),
                    Some(flags.tor), Some(flags.hosting), r.countryCode, Some(observedAt)))
  {
  }

  /** A row from before reasons were kept: only one provider's count, BAD rejects, and RISKY costs the fraud score. */
  lemma LegacyRowMeans(row: Row)
    requires row.status != Unknown && row.reason == ""
    ensures Restore(row).Some? <==> row.provider == "ProxyCheck.io"
    ensures Restore(row).Some? ==>
      && Restore(row).value.status == row.status && Restore(row).value.net == row.flags
      && (Restore(row).value.hardReject <==> row.status == Bad)
      && Restore(row).value.penalty == (if row.status == Risky then row.fraudScore else row.penalty)
  {
  }

  /** A provider's own flags, where it gives them, say what its network information says. */
  predicate SelfConsistent(r: Report) {
    && (r.vpn.Some? ==> r.vpn.value == r.net.vpn) && (r.proxy.Some? ==> r.proxy.value == r.net.proxy)
    && (r.tor.Some? ==> r.tor.value == r.net.tor) && (r.hosting.Some? ==> r.hosting.value == r.net.hosting)
  }

  /** The merged flags, and the flags that make a risk, as persisting and restoring leave them. */
  predicate KeepsItsWeight(r: Report) {
    && (Raised(r.net.vpn, r.vpn) <==> Own(r.net.vpn, r.vpn))
    && (Raised(r.net.proxy, r.proxy) <==> Own(r.net.proxy, r.proxy))
    && (Raised(r.net.tor, r.tor) <==> Own(r.net.tor, r.tor))
    && (Raised(r.net.hosting, r.hosting) <==> Own(r.net.hosting, r.hosting))
    && (Condemns(r) || r.status == Risky || r.penalty > 0
        || (r.net.vpn || r.net.hosting || r.net.proxy <==>
            Own(r.net.vpn, r.vpn) || Own(r.net.hosting, r.hosting) || Own(r.net.proxy, r.proxy)))
  }

  /**
   A verdict restored after a restart weighs in the aggregate exactly as the fresh one did, if and only if the
   provider's own flags do not contradict its network information in a way that matters.
   */
  lemma RestoredVerdictWeighsTheSame(r: Report, fraudScore: int, observedAt: int, reason: string)
    requires r.status != Unknown && reason != ""
    ensures var restored := Restore(Persist(r, fraudScore, observedAt, reason));
      restored.Some? && (Merge(START, restored.value) == Merge(START, r) <==> KeepsItsWeight(r))
  {
  }

  /** In particular it does whenever the two agree, and then after any other providers. */
  lemma ConsistentVerdictAlwaysWeighsTheSame(t: Tally, r: Report, fraudScore: int, observedAt: int, reason: string)
    requires r.status != Unknown && reason != "" && SelfConsistent(r)
    ensures Merge(t, Restore(Persist(r, fraudScore, observedAt, reason)).value) == Merge(t, r)
  {
  }

  // ---- One provider's verdict: its cache, its rows, its own answer ----

  type Key = (string, string)      // an address and a provider

  /** The provider cache, lost in a restart, and for each key the newest row that is neither an error nor UNKNOWN. */
  datatype Memory = Memory(cache: map<Key, ProviderEntry>, rows: map<Key, Row>)

  /** What a provider would say, and whether its row can be written. */
  datatype Answer = Answer(outcome: Outcome, fraudScore: int, reason: string, stored: bool)

  predicate Cached(m: Memory, key: Key, now: int) {
    key in m.cache && now <= m.cache[key].expiresAt
  }

  /** The durable evidence that may stand in for a provider at time `now`, until the row's own window ends. */
  function Durable(w: Windows, rows: map<Key, Row>, key: Key, now: int): (found: Option<ProviderEntry>)
    ensures found.Some? ==> key in rows && now < found.value.expiresAt
    ensures found.Some? ==> found.value.expiresAt == rows[key].observedAt + ProviderTTL(w, key.1)
    ensures found.Some? ==> rows[key].status != Unknown && Some(found.value.report) == Restore(rows[key])
  {
    if key !in rows || Restore(rows[key]).None? then None
    else
      var expiresAt := rows[key].observedAt + ProviderTTL(w, key.1);
      if expiresAt <= now then None else Some(ProviderEntry(Restore(rows[key]).value, expiresAt))
  }

  /** A row that may stand in: a known verdict, with a reason unless it is from before reasons were kept. */
  predicate Usable(row: Row) {
    row.status != Unknown && (row.reason != "" || row.provider == "ProxyCheck.io")
  }

  /**
   A usable row stands in for its provider until the provider's own configured window has passed since it was observed,
   and until the aggregate's has when no positive one is configured.
   */
  lemma RowWindow(w: Windows, rows: map<Key, Row>, ip: string, provider: string, now: int)
    requires (ip, provider) in rows && Usable(rows[(ip, provider)])
    ensures var since := rows[(ip, provider)].observedAt;
      Durable(w, rows, (ip, provider), now).Some? <==>
        if provider in w.providers && w.providers[provider] > 0 then now < since + w.providers[provider]
        else now < since + w.ttl
  {
  }

  lemma UnusableRow(w: Windows, rows: map<Key, Row>, key: Key, now: int)
    requires key !in rows || !Usable(rows[key])
    ensures Durable(w, rows, key, now).None?
  {
  }

  /** The rows after an answer; one without an observation time is older than every cutoff. */
  function Stored(rows: map<Key, Row>, ip: string, a: Answer): map<Key, Row> {
    if !a.stored || a.outcome.Failed? then rows
    else
      var r := a.outcome.report;
      var key := (ip, r.provider);
      if r.status == Unknown || r.observedAt.None? then rows
      else if key in rows && rows[key].observedAt > r.observedAt.value then rows
      else rows[key := Persist(r, a.fraudScore, r.observedAt.value, a.reason)]
  }

  /** What a provider's part of an evaluation contributes and leaves behind. */
  function Ask(w: Windows, m: Memory, ip: string, provider: string, a: Answer, now: int): (Outcome, Memory) {
    var key := (ip, provider);
    var durable := Durable(w, m.rows, key, now);
    if Cached(m, key, now) then (Reported(m.cache[key].report), m)
    else if durable.Some? then (Reported(durable.value.report), m.(cache := m.cache[key := durable.value]))
    else if a.outcome.Failed? then (a.outcome, m)
    else
      (a.outcome, Memory(m.cache[key := ProviderEntry(a.outcome.report, now + ProviderTTL(w, provider))],
                         Stored(m.rows, ip, a)))
  }

  function AskAll(w: Windows, m: Memory, ip: string, providers: seq<string>, answers: seq<Answer>, now: int)
      : (r: (seq<Outcome>, Memory))
    requires |answers| == |providers|
    ensures |r.0| == |providers|
  {
    var n := |providers|;
    if n == 0 then ([], m)
    else
      var before := AskAll(w, m, ip, providers[..n - 1], answers[..n - 1], now);
      var last := Ask(w, before.1, ip, providers[n - 1], answers[n - 1], now);
      (before.0 + [last.0], last.1)
  }

  // ---- Runs with restarts ----

  datatype Event = Asked(ip: string, provider: string, answer: Answer, now: int) | Restarted

  function After(w: Windows, m: Memory, e: Event): Memory {
    match e
    case Asked(ip, provider, a, now) => Ask(w, m, ip, provider, a, now).1
    case Restarted => m.(cache := map[])
  }

  const EMPTY := Memory(map[], map[])

  function Remembered(w: Windows, es: seq<Event>): Memory {
    if es == [] then EMPTY else After(w, Remembered(w, es[..|es| - 1]), es[|es| - 1])
  }

  /** Neither the cache nor a row answers for the provider. */
  predicate AsksItself(w: Windows, m: Memory, key: Key, now: int) {
    !Cached(m, key, now) && Durable(w, m.rows, key, now).None?
  }

  /** The k-th event has the provider itself answering for the key. */
  predicate AnswersAt(w: Windows, es: seq<Event>, key: Key, k: nat)
    requires k < |es|
  {
    && es[k].Asked? && (es[k].ip, es[k].provider) == key && es[k].answer.outcome.Reported?
    && AsksItself(w, Remembered(w, es[..k]), key, es[k].now)
  }

  /** A report names its provider, and nothing is observed after it is reported. */
  predicate Honest(e: Event) {
    e.Asked? && e.answer.outcome.Reported? ==>
      && e.answer.outcome.report.provider == e.provider
      && (e.answer.outcome.report.observedAt.Some? ==> e.answer.outcome.report.observedAt.value <= e.now)
  }

  ghost predicate AnsweredSince(w: Windows, es: seq<Event>, key: Key, since: int) {
    exists k: nat :: k < |es| && AnswersAt(w, es, key, k) && since <= es[k].now
  }

  lemma AnsweredEarlier(w: Windows, es: seq<Event>, key: Key, since: int)
    requires es != [] && AnsweredSince(w, es[..|es| - 1], key, since)
    ensures AnsweredSince(w, es, key, since)
  {
    var before := es[..|es| - 1];
    var k: nat :| k < |before| && AnswersAt(w, before, key, k) && since <= before[k].now;
    assert before[..k] == es[..k];
    assert AnswersAt(w, es, key, k);
  }

  /** Whatever is remembered of a provider, it said within the window that the memory still grants. */
  lemma {:induction false} MemoryIsRecent(w: Windows, es: seq<Event>, key: Key)
    requires forall e | e in es :: Honest(e)
    ensures var m := Remembered(w, es);
      && (key in m.cache ==> AnsweredSince(w, es, key, m.cache[key].expiresAt - ProviderTTL(w, key.1)))
      && (key in m.rows ==> AnsweredSince(w, es, key, m.rows[key].observedAt))
  {
    if es == [] {
    } else {
      var n := |es| - 1;
      var before, e, m := es[..n], es[n], Remembered(w, es[..n]);
      MemoryIsRecent(w, before, key);
      if key in m.cache {
        AnsweredEarlier(w, es, key, m.cache[key].expiresAt - ProviderTTL(w, key.1));
      }
      if key in m.rows { AnsweredEarlier(w, es, key, m.rows[key].observedAt); }
      assert Honest(e);
      if e.Asked? && (e.ip, e.provider) == key && e.answer.outcome.Reported? && AsksItself(w, m, key, e.now) {
        assert AnswersAt(w, es, key, n);
      }
    }
  }

  /**
   Hydration never extends a verdict: over any run of evaluations and restarts, a verdict served from the cache or
   from a row is served no later than the provider's window after the provider itself answered.
   */
  lemma ServedWithinWindow(w: Windows, es: seq<Event>, ip: string, provider: string, now: int)
    requires forall e | e in es :: Honest(e)
    requires !AsksItself(w, Remembered(w, es), (ip, provider), now)
    ensures AnsweredSince(w, es, (ip, provider), now - ProviderTTL(w, provider))
  {
    var m, key := Remembered(w, es), (ip, provider);
    MemoryIsRecent(w, es, key);
    var ttl := ProviderTTL(w, provider);
    var since := if Cached(m, key, now) then m.cache[key].expiresAt - ttl else m.rows[key].observedAt;
    var k: nat :| k < |es| && AnswersAt(w, es, key, k) && since <= es[k].now;
  }

  // ---- The engine's caches ----

  class Engine {
    const windows: Windows
    const policy: Policy
    const lenientPenalty: int
    var entries: map<string, Entry>
    var providerEntries: map<Key, ProviderEntry>
    var rows: map<Key, Row>

    constructor (windows: Windows, policy: Policy, lenientPenalty: int)
      ensures Valid() && entries == map[] && Contents() == EMPTY
      ensures this.windows == windows && this.policy == policy && this.lenientPenalty == lenientPenalty
    {
      this.windows, this.policy, this.lenientPenalty := windows, policy, lenientPenalty;
      entries, providerEntries, rows := map[], map[], map[];
    }

    /** Every cached aggregate is fresh for as long as it is kept. */
    ghost predicate Valid()
      reads this`entries
    {
      forall ip | ip in entries :: Fresh(windows, entries[ip])
    }

    ghost function Contents(): Memory
      reads this`providerEntries, this`rows
    {
      Memory(providerEntries, rows)
    }

    /** Get: a hit is never later than the freshness window of any evidence in the aggregate. */
    method Get(ip: string, now: int) returns (entry: Option<Entry>)
      requires Valid()
      ensures entry.Some? <==> ip in entries && now <= entries[ip].expiresAt
      ensures entry.Some? ==> entry.value == entries[ip]
      ensures entry.Some? ==> forall e | e in entry.value.evidences && e.Reported? && e.report.status != Unknown &&
          e.report.observedAt.Some? ::
        var provider, since := e.report.provider, e.report.observedAt.value;
        if provider in windows.providers && windows.providers[provider] > 0
        then now <= since + windows.providers[provider] else now <= since + windows.ttl
    {
      if ip !in entries || now > entries[ip].expiresAt {
        return None;
      }
      return Some(entries[ip]);
    }

    /** A restart loses the caches and keeps the rows. */
    method Restart()
      modifies this`entries, this`providerEntries
      ensures Valid() && entries == map[] && Contents() == After(windows, old(Contents()), Restarted)
      ensures providerEntries == map[] && rows == old(rows)
    {
      entries, providerEntries := map[], map[];
    }

    /** loadPersistedProviderResult. */
    method LoadPersisted(ip: string, provider: string, now: int) returns (found: Option<ProviderEntry>)
      ensures found == Durable(windows, rows, (ip, provider), now)
    {
      if (ip, provider) !in rows {
        return None;
      }
      var row := rows[(ip, provider)];
      var ttl := ProviderTTL(windows, provider);
      if row.observedAt < now - ttl || row.observedAt + ttl <= now {
        return None;
      }
      var restored := Restore(row);
      return if restored.None? then None else Some(ProviderEntry(restored.value, row.observedAt + ttl));
    }

    /** One provider's part of EvaluateIP: its cache, then its durable evidence, then the provider itself. */
    method AskProvider(ip: string, provider: string, a: Answer, now: int) returns (o: Outcome)
      modifies this`providerEntries, this`rows
      ensures (o, Contents()) == Ask(windows, old(Contents()), ip, provider, a, now)
      ensures (ip, provider) in old(providerEntries) && now <= old(providerEntries)[(ip, provider)].expiresAt ==>
        o == Reported(old(providerEntries)[(ip, provider)].report) && Contents() == old(Contents())
      ensures !((ip, provider) in old(providerEntries) && now <= old(providerEntries)[(ip, provider)].expiresAt) ==>
        var window := if provider in windows.providers && windows.providers[provider] > 0
                      then windows.providers[provider] else windows.ttl;
        if (ip, provider) in old(rows) && Usable(old(rows)[(ip, provider)]) &&
           now < old(rows)[(ip, provider)].observedAt + window
        then
          var row := old(rows)[(ip, provider)];
          && Restore(row).Some? && o == Reported(Restore(row).value) && rows == old(rows)
          && providerEntries == old(providerEntries)[(ip, provider) := ProviderEntry(o.report, row.observedAt + window)]
        else
          && o == a.outcome
          && providerEntries == if o.Failed? then old(providerEntries)
               else old(providerEntries)[(ip, provider) := ProviderEntry(o.report, now + window)]
    {
      var key := (ip, provider);
      if key in providerEntries && now <= providerEntries[key].expiresAt {
        return Reported(providerEntries[key].report);
      }
      var persisted := LoadPersisted(ip, provider, now);
      if persisted.Some? {
        providerEntries := providerEntries[key := persisted.value];
        return Reported(persisted.value.report);
      }
      if a.outcome.Reported? {
        var entry := ProviderEntry(a.outcome.report, now + ProviderTTL(windows, provider));
        providerEntries := providerEntries[key := entry];
        PersistEvidence(ip, a);
      }
      return a.outcome;
    }

    /** persistEvidence, as far as a later lookup can tell. */
    method PersistEvidence(ip: string, a: Answer)
      requires a.outcome.Reported?
      modifies this`rows
      ensures rows == Stored(old(rows), ip, a)
      ensures var r := a.outcome.report; var key := (ip, r.provider);
        rows == if a.stored && r.status != Unknown && r.observedAt.Some? &&
                   (key in old(rows) ==> old(rows)[key].observedAt <= r.observedAt.value)
                then old(rows)[key := Persist(r, a.fraudScore, r.observedAt.value, a.reason)] else old(rows)
    {
      var r := a.outcome.report;
      if a.stored && r.status != Unknown && r.observedAt.Some? {
        var key := (ip, r.provider);
        if key !in rows || rows[key].observedAt <= r.observedAt.value {
          rows := rows[key := Persist(r, a.fraudScore, r.observedAt.value, a.reason)];
        }
      }
    }

    /** The engine goes through a run as its memory is said to. */
    method Replay(es: seq<Event>)
      requires Contents() == EMPTY
      modifies this
      ensures Contents() == Remembered(windows, es)
    {
      for k := 0 to |es|
        invariant Contents() == Remembered(windows, es[..k])
      {
        assert es[..k + 1][..k] == es[..k];
        match es[k]
        case Asked(ip, provider, a, now) => var _ := AskProvider(ip, provider, a, now);
        case Restarted => Restart();
      }
      assert es[..|es|] == es;
    }

    /**
     EvaluateIP. A cached aggregate is returned as it is. Otherwise the providers decide; the result is cached, UNKNOWN
     or not, as soon as one of them has answered, until the latest moment at which all its evidence is fresh.
     */
    method EvaluateIP(ip: string, providers: seq<string>, answers: seq<Answer>, now: int, later: int)
        returns (d: Decision)
      requires Valid() && |answers| == |providers|
      modifies this`entries, this`providerEntries, this`rows
      ensures Valid()
      ensures ip in old(entries) && now <= old(entries)[ip].expiresAt ==>
          d == old(entries)[ip].decision && entries == old(entries) && Contents() == old(Contents())
      ensures !(ip in old(entries) && now <= old(entries)[ip].expiresAt) ==>
        var (os, after) := AskAll(windows, old(Contents()), ip, providers, answers, now);
          && d == Decide(os, policy, lenientPenalty) && Contents() == after
          && (if Fold(os).successes == 0 then entries == old(entries)
              else ip in entries && entries == old(entries)[ip := entries[ip]]
                   && entries[ip].decision == d && entries[ip].evidences == os
                   && LatestFresh(windows, os, later + windows.ttl, entries[ip].expiresAt))
    {
      var cached := Get(ip, now);
      if cached.Some? {
        return cached.value.decision;
      }
      var os: seq<Outcome> := [];
      for i := 0 to |providers|
        invariant entries == old(entries)
        invariant (os, Contents()) == AskAll(windows, old(Contents()), ip, providers[..i], answers[..i], now)
      {
        assert providers[..i + 1][..i] == providers[..i] && answers[..i + 1][..i] == answers[..i];
        var o := AskProvider(ip, providers[i], answers[i], now);
        os := os + [o];
      }
      assert providers[..|providers|] == providers && answers[..|answers|] == answers;
      var successes: nat;
      d, successes := EvaluateProviders(os, policy, lenientPenalty);
      if successes > 0 {
        var expiry := AggregateExpiry(windows, os, later + windows.ttl);
        entries := entries[ip := Entry(d, os, expiry)];
      }
    }
  }
}
