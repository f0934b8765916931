/**
  The selection matrix: which samples one site health record produces,
  decided by its subsystem tag alone. `SamplesFor` follows the exporter's
  nested conditionals batch by batch; `KeysFor`, `KindOf` and `ValueOf`
  state the same matrix as a declarative table, and the lemma
  `SelectionMatchesTable` proves that the two agree.
 */
module SiteSelect {
  import opened Wrappers
  import opened SiteDesc

  /** One subsystem's health record; numeric fields are abstract reals. */
  datatype Health = Health(
    subsystem: string,
    status: string,
    txBytesR: real,
    rxBytesR: real,
    remoteUserNumActive: real,
    remoteUserNumInactive: real,
    remoteUserRxBytes: real,
    remoteUserTxBytes: real,
    remoteUserRxPackets: real,
    remoteUserTxPackets: real,
    latency: real,
    xputUp: real,
    xputDown: real,
    speedtestPing: real,
    drops: real,
    numAdopted: real,
    numDisconnected: real,
    numPending: real,
    numUser: real,
    numGuest: real,
    numIot: real,
    numAp: real,
    numDisabled: real,
    numGw: real,
    numSta: real,
    numSw: real)

  datatype Kind = Gauge | Counter

  /** One exported measurement: which descriptor, its kind, its value, its label values. */
  datatype Sample = Sample(key: MetricKey, kind: Kind, value: real, labels: seq<string>)

  // The batches the exporter sends, each exactly as it lists them.

  function Throughput(h: Health, l: seq<string>): seq<Sample> {
    [Sample(TxBytesR, Gauge, h.txBytesR, l),
     Sample(RxBytesR, Gauge, h.rxBytesR, l)]
  }

  function RemoteUsers(h: Health, l: seq<string>): seq<Sample> {
    [Sample(RemoteUserNumActive, Gauge, h.remoteUserNumActive, l),
     Sample(RemoteUserNumInactive, Gauge, h.remoteUserNumInactive, l),
     Sample(RemoteUserRxBytes, Counter, h.remoteUserRxBytes, l),
     Sample(RemoteUserTxBytes, Counter, h.remoteUserTxBytes, l),
     Sample(RemoteUserRxPackets, Counter, h.remoteUserRxPackets, l),
     Sample(RemoteUserTxPackets, Counter, h.remoteUserTxPackets, l)]
  }

  /** Uplink quality; note that uptime carries the raw latency field. */
  function Uplink(h: Health, l: seq<string>): seq<Sample> {
    [Sample(Uptime, Gauge, h.latency, l),
     Sample(Latency, Gauge, h.latency / 1000.0, l),
     Sample(XputUp, Gauge, h.xputUp, l),
     Sample(XputDown, Gauge, h.xputDown, l),
     Sample(SpeedtestPing, Gauge, h.speedtestPing, l),
     Sample(Drops, Counter, h.drops, l)]
  }

  function Adoption(h: Health, l: seq<string>): seq<Sample> {
    [Sample(NumAdopted, Gauge, h.numAdopted, l),
     Sample(NumDisconnected, Gauge, h.numDisconnected, l),
     Sample(NumPending, Gauge, h.numPending, l)]
  }

  function Occupancy(h: Health, l: seq<string>): seq<Sample> {
    [Sample(NumUser, Gauge, h.numUser, l),
     Sample(NumGuest, Gauge, h.numGuest, l),
     Sample(NumIot, Gauge, h.numIot, l)]
  }

  function AccessPoints(h: Health, l: seq<string>): seq<Sample> {
    [Sample(NumAp, Gauge, h.numAp, l),
     Sample(NumDisabled, Gauge, h.numDisabled, l)]
  }

  function Gateways(h: Health, l: seq<string>): seq<Sample> {
    [Sample(NumGw, Gauge, h.numGw, l),
     Sample(NumSta, Gauge, h.numSta, l)]
  }

  function Switches(h: Health, l: seq<string>): seq<Sample> {
    [Sample(NumSw, Gauge, h.numSw, l)]
  }

  // The matrix as a table.

  /** The metrics a record with subsystem tag `tag` exports, in emission order. */
  function KeysFor(tag: string): seq<MetricKey> {
    if tag == SubsystemLAN then
      [TxBytesR, RxBytesR, NumAdopted, NumDisconnected, NumPending,
       NumUser, NumGuest, NumIot, NumSw]
    else if tag == SubsystemWLAN then
      [TxBytesR, RxBytesR, NumAdopted, NumDisconnected, NumPending,
       NumUser, NumGuest, NumIot, NumAp, NumDisabled]
    else if tag == SubsystemWAN then
      [TxBytesR, RxBytesR, NumAdopted, NumDisconnected, NumPending, NumGw, NumSta]
    else if tag == SubsystemWWW then
      [TxBytesR, RxBytesR, Uptime, Latency, XputUp, XputDown, SpeedtestPing, Drops]
    else if tag == SubsystemVPN then
      [RemoteUserNumActive, RemoteUserNumInactive, RemoteUserRxBytes,
       RemoteUserTxBytes, RemoteUserRxPackets, RemoteUserTxPackets]
    else
      [TxBytesR, RxBytesR]
  }

  /** Counters are the internet drops and the remote-user byte and packet totals. */
  function KindOf(k: MetricKey): Kind {
    if k in {Drops, RemoteUserRxBytes, RemoteUserTxBytes, RemoteUserRxPackets, RemoteUserTxPackets}
    then Counter else Gauge
  }

  /** The record field each metric reports; latency is converted from ms to s. */
  function ValueOf(h: Health, k: MetricKey): real {
    match k
    case NumUser => h.numUser
    case NumGuest => h.numGuest
    case NumIot => h.numIot
    case TxBytesR => h.txBytesR
    case RxBytesR => h.rxBytesR
    case NumAp => h.numAp
    case NumAdopted => h.numAdopted
    case NumDisabled => h.numDisabled
    case NumDisconnected => h.numDisconnected
    case NumPending => h.numPending
    case NumGw => h.numGw
    case NumSw => h.numSw
    case NumSta => h.numSta
    case Latency => h.latency / 1000.0
    case Drops => h.drops
    case Uptime => h.latency
    case XputUp => h.xputUp
    case XputDown => h.xputDown
    case SpeedtestPing => h.speedtestPing
    case RemoteUserNumActive => h.remoteUserNumActive
    case RemoteUserNumInactive => h.remoteUserNumInactive
    case RemoteUserRxBytes => h.remoteUserRxBytes
    case RemoteUserTxBytes => h.remoteUserTxBytes
    case RemoteUserRxPackets => h.remoteUserRxPackets
    case RemoteUserTxPackets => h.remoteUserTxPackets
  }

  /** The sample the table prescribes for metric `k` of record `h`. */
  function Emit(h: Health, l: seq<string>, k: MetricKey): Sample {
    Sample(k, KindOf(k), ValueOf(h, k), l)
  }

  /** The table's samples for metrics `ks`, in that order. */
  function EmitAll(h: Health, l: seq<string>, ks: seq<MetricKey>): seq<Sample> {
    seq(|ks|, i requires 0 <= i < |ks| => Emit(h, l, ks[i]))
  }

  /** Everything one health record exports under label values `l`, in the order the batches are sent. */
  function SamplesFor(h: Health, l: seq<string>): seq<Sample>
  {
    var tag := h.subsystem;
    (if tag != SubsystemVPN then Throughput(h, l) else RemoteUsers(h, l))
    + (if tag == SubsystemWWW then Uplink(h, l) else [])
    + (if tag == SubsystemLAN || tag == SubsystemWLAN || tag == SubsystemWAN then
         Adoption(h, l)
         + (if tag == SubsystemLAN || tag == SubsystemWLAN then Occupancy(h, l) else [])
         + (if tag == SubsystemWLAN then AccessPoints(h, l) else [])
         + (if tag == SubsystemWAN then Gateways(h, l) else [])
         + (if tag == SubsystemLAN then Switches(h, l) else [])
       else [])
  }

  /** The first sample of `samples` for metric `k`, if any. */
  function Find(samples: seq<Sample>, k: MetricKey): (r: Option<Sample>)
    ensures r.Some? ==> r.value in samples && r.value.key == k
    ensures r.None? <==> forall s :: s in samples ==> s.key != k
  {
    if samples == [] then None
    else if samples[0].key == k then Some(samples[0])
    else Find(samples[1..], k)
  }

  predicate IsRemoteUser(k: MetricKey) {
    k in {RemoteUserNumActive, RemoteUserNumInactive, RemoteUserRxBytes,
          RemoteUserTxBytes, RemoteUserRxPackets, RemoteUserTxPackets}
  }

  /** The nested conditionals select exactly the table's row for the record's tag. */
  lemma SelectionMatchesTable(h: Health, l: seq<string>)
    ensures SamplesFor(h, l) == EmitAll(h, l, KeysFor(h.subsystem))
  {
    var tag := h.subsystem;
    if tag == SubsystemLAN {
      RowLan(h, l);
    } else if tag == SubsystemWLAN {
      RowWlan(h, l);
    } else if tag == SubsystemWAN {
      RowWan(h, l);
    } else if tag == SubsystemWWW {
      RowWww(h, l);
    } else if tag == SubsystemVPN {
      RowVpn(h, l);
    } else {
      RowOther(h, l);
    }
  }

  lemma RowLan(h: Health, l: seq<string>)
    requires h.subsystem == SubsystemLAN
    ensures SamplesFor(h, l) == EmitAll(h, l, KeysFor(h.subsystem))
  {
  }

  lemma RowWlan(h: Health, l: seq<string>)
    requires h.subsystem == SubsystemWLAN
    ensures SamplesFor(h, l) == EmitAll(h, l, KeysFor(h.subsystem))
  {
  }

  lemma RowWan(h: Health, l: seq<string>)
    requires h.subsystem == SubsystemWAN
    ensures SamplesFor(h, l) == EmitAll(h, l, KeysFor(h.subsystem))
  {
  }

  lemma RowWww(h: Health, l: seq<string>)
    requires h.subsystem == SubsystemWWW
    ensures SamplesFor(h, l) == EmitAll(h, l, KeysFor(h.subsystem))
  {
  }

  lemma RowVpn(h: Health, l: seq<string>)
    requires h.subsystem == SubsystemVPN
    ensures SamplesFor(h, l) == EmitAll(h, l, KeysFor(h.subsystem))
  {
  }

  lemma RowOther(h: Health, l: seq<string>)
    requires h.subsystem !in {SubsystemLAN, SubsystemWLAN, SubsystemWAN, SubsystemWWW, SubsystemVPN}
    ensures SamplesFor(h, l) == EmitAll(h, l, KeysFor(h.subsystem))
  {
  }

  /** Each table sample is its metric's `Emit`. */
  lemma EmitAllMembers(h: Health, l: seq<string>, ks: seq<MetricKey>)
    ensures forall s :: s in EmitAll(h, l, ks) <==> exists k :: k in ks && s == Emit(h, l, k)
  {
    forall s | s in EmitAll(h, l, ks) ensures exists k :: k in ks && s == Emit(h, l, k) {
      var i :| 0 <= i < |ks| && EmitAll(h, l, ks)[i] == s;
      assert ks[i] in ks;
    }
    forall s | exists k :: k in ks && s == Emit(h, l, k) ensures s in EmitAll(h, l, ks) {
      var k :| k in ks && s == Emit(h, l, k);
      var i :| 0 <= i < |ks| && ks[i] == k;
      assert EmitAll(h, l, ks)[i] == s;
    }
  }

  /** Looking a metric up among the table samples finds its `Emit` exactly when it is listed. */
  lemma {:induction false} FindEmitAll(h: Health, l: seq<string>, ks: seq<MetricKey>, k: MetricKey)
    ensures Find(EmitAll(h, l, ks), k) == if k in ks then Some(Emit(h, l, k)) else None
  {
    if ks != [] {
      assert EmitAll(h, l, ks)[1..] == EmitAll(h, l, ks[1..]);
      if ks[0] != k {
        FindEmitAll(h, l, ks[1..], k);
      }
    }
  }

  /** Only the www row lists latency and uptime. */
  lemma KeysLatency(tag: string)
    ensures Latency in KeysFor(tag) <==> tag == SubsystemWWW
    ensures Uptime in KeysFor(tag) <==> tag == SubsystemWWW
  {
  }
  /** Only the vpn row lists remote-user metrics; every other row opens with the throughput pair. */
  lemma KeysRemote(tag: string)
    ensures tag == SubsystemVPN ==> forall k :: k in KeysFor(tag) ==> IsRemoteUser(k)
    ensures tag != SubsystemVPN ==> KeysFor(tag)[..2] == [TxBytesR, RxBytesR] && forall k :: k in KeysFor(tag) ==> !IsRemoteUser(k)
  {
  }
  /** The sample count is fixed by the tag; any unknown tag gets the two throughput samples. */
  lemma SampleCount(h: Health, l: seq<string>)
    ensures h.subsystem == SubsystemLAN ==> |SamplesFor(h, l)| == 9
    ensures h.subsystem == SubsystemWLAN ==> |SamplesFor(h, l)| == 10
    ensures h.subsystem == SubsystemWAN ==> |SamplesFor(h, l)| == 7
    ensures h.subsystem == SubsystemWWW ==> |SamplesFor(h, l)| == 8
    ensures h.subsystem == SubsystemVPN ==> |SamplesFor(h, l)| == 6
    ensures h.subsystem !in {SubsystemLAN, SubsystemWLAN, SubsystemWAN, SubsystemWWW, SubsystemVPN} ==>
              |SamplesFor(h, l)| == 2
  {
    SelectionMatchesTable(h, l);
  }

  /**
    A vpn record exports the six remote-user samples and nothing else; every
    other record, whatever its tag, starts with transmit and receive rate
    and exports no remote-user sample.
   */
  lemma VpnSelection(h: Health, l: seq<string>)
    ensures h.subsystem == SubsystemVPN ==>
      |SamplesFor(h, l)| == 6 && forall s :: s in SamplesFor(h, l) ==> IsRemoteUser(s.key)
    ensures h.subsystem != SubsystemVPN ==>
      && |SamplesFor(h, l)| >= 2
      && SamplesFor(h, l)[0] == Sample(TxBytesR, Gauge, h.txBytesR, l)
      && SamplesFor(h, l)[1] == Sample(RxBytesR, Gauge, h.rxBytesR, l)
      && forall s :: s in SamplesFor(h, l) ==> !IsRemoteUser(s.key)
  {
    SelectionMatchesTable(h, l);
    KeysRemote(h.subsystem);
    EmitAllMembers(h, l, KeysFor(h.subsystem));
  }

  /**
    A www record reports latency divided by 1000 and, as uptime, the raw
    latency; no other record reports either.
   */
  lemma LatencyConversion(h: Health, l: seq<string>)
    ensures h.subsystem == SubsystemWWW ==>
      && Find(SamplesFor(h, l), Latency) == Some(Sample(Latency, Gauge, h.latency / 1000.0, l))
      && Find(SamplesFor(h, l), Uptime) == Some(Sample(Uptime, Gauge, h.latency, l))
    ensures h.subsystem != SubsystemWWW ==>
      Find(SamplesFor(h, l), Latency).None? && Find(SamplesFor(h, l), Uptime).None?
  {
    SelectionMatchesTable(h, l);
    FindEmitAll(h, l, KeysFor(h.subsystem), Latency);
    FindEmitAll(h, l, KeysFor(h.subsystem), Uptime);
    KeysLatency(h.subsystem);
    assert Emit(h, l, Latency) == Sample(Latency, Gauge, h.latency / 1000.0, l);
    assert Emit(h, l, Uptime) == Sample(Uptime, Gauge, h.latency, l);
  }

  /** Counters are exactly the drops and remote-user byte/packet samples; all else is a gauge. */
  lemma KindRule(h: Health, l: seq<string>)
    ensures forall s :: s in SamplesFor(h, l) ==>
      (s.kind == Counter <==>
         s.key in {Drops, RemoteUserRxBytes, RemoteUserTxBytes, RemoteUserRxPackets, RemoteUserTxPackets})
  {
    SelectionMatchesTable(h, l);
  }

  /** Every sample of a record carries the record's label values, and no metric appears twice. */
  lemma LabelsAndKeys(h: Health, l: seq<string>)
    ensures forall s :: s in SamplesFor(h, l) ==> s.labels == l
    ensures forall i, j :: 0 <= i < j < |SamplesFor(h, l)| ==> SamplesFor(h, l)[i].key != SamplesFor(h, l)[j].key
  {
    SelectionMatchesTable(h, l);
    KeysDistinct(h.subsystem);
  }

  /** No row of the table lists a metric twice. */
  lemma KeysDistinct(tag: string)
    ensures forall i, j :: 0 <= i < j < |KeysFor(tag)| ==> KeysFor(tag)[i] != KeysFor(tag)[j]
  {
  }
}
