/** The envelope published on each tick: a client ID, one timestamp in two notations, the KPIs. */
module KpiMessage {
  import opened Wrappers
  import opened JavaFormat

  /**
   * One reading of the clock, seen through its two views: `toEpochMilli()` and the
   * ISO-8601 `toString()`.
   */
  datatype Instant = Instant(epochMilli: Int64, iso: string)

  /** `KpiMsg` over an opaque KPI type `K`; references that may be null are `Option`s. */
  datatype KpiMsg<K> = KpiMsg(
    clientId: Option<string>,
    unixTimestamp: Int64,
    timestamp: Option<string>,
    kpis: Option<seq<K>>)

  /** Both timestamp fields are the views of the one instant `now`. */
  predicate TakenAt<K>(m: KpiMsg<K>, now: Instant) {
    m.unixTimestamp == now.epochMilli && m.timestamp == Some(now.iso)
  }

  /** `new KpiMsg()`: every reference null, the timestamp zero. */
  function EmptyKpiMsg<K>(): (m: KpiMsg<K>)
    ensures m.clientId.None? && m.timestamp.None? && m.kpis.None? && m.unixTimestamp == 0
  {
    KpiMsg(None, 0, None, None)
  }

  /**
   * `new KpiMsg(clientId, kpis)` with `Instant.now()` read once as `now`: the client ID
   * and the collection are stored as given, and both timestamps come from `now`.
   */
  function NewKpiMsg<K>(clientId: Option<string>, kpis: Option<seq<K>>, now: Instant): (m: KpiMsg<K>)
    ensures m.clientId == clientId
    ensures m.kpis == kpis
    ensures TakenAt(m, now)
  {
    KpiMsg(clientId, now.epochMilli, Some(now.iso), kpis)
  }

  /** Envelopes built at two instants agree on a timestamp view only if the instants' views do. */
  lemma TimestampsComeFromOneInstant<K>(clientId: Option<string>, kpis: Option<seq<K>>, now: Instant, other: Instant)
    ensures TakenAt(NewKpiMsg(clientId, kpis, now), other) <==> other == now
  {
  }

  function SetClientId<K>(m: KpiMsg<K>, clientId: Option<string>): (r: KpiMsg<K>)
    ensures r.clientId == clientId && r.(clientId := m.clientId) == m
  {
    m.(clientId := clientId)
  }

  function SetUnixTimestamp<K>(m: KpiMsg<K>, unixTimestamp: Int64): (r: KpiMsg<K>)
    ensures r.unixTimestamp == unixTimestamp && r.(unixTimestamp := m.unixTimestamp) == m
  {
    m.(unixTimestamp := unixTimestamp)
  }

  function SetTimestamp<K>(m: KpiMsg<K>, timestamp: Option<string>): (r: KpiMsg<K>)
    ensures r.timestamp == timestamp && r.(timestamp := m.timestamp) == m
  {
    m.(timestamp := timestamp)
  }

  function SetKpis<K>(m: KpiMsg<K>, kpis: Option<seq<K>>): (r: KpiMsg<K>)
    ensures r.kpis == kpis && r.(kpis := m.kpis) == m
  {
    m.(kpis := kpis)
  }

  /**
   * The setters are the only way the two timestamps can drift apart: setting one
   * timestamp view alone breaks the single-instant invariant.
   */
  lemma SettingOneTimestampBreaksInvariant<K>(m: KpiMsg<K>, now: Instant, millis: Int64)
    requires TakenAt(m, now)
    ensures TakenAt(SetUnixTimestamp(m, millis), now) <==> millis == now.epochMilli
  {
  }
}
