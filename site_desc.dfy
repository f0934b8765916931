/**
  The site-level metric family: the subsystem tags a health record can carry,
  the metric keys (one per descriptor field of the Go `site` struct), and
  `DescSite`, which names every descriptor under an optional namespace and
  fixes the label-name list they all share.
 */
module SiteDesc {
  import opened Wrappers

  /** The subsystem tags the exporter recognises. */
  const SubsystemLAN: string := "lan"
  const SubsystemVPN: string := "vpn"
  const SubsystemWWW: string := "www"
  const SubsystemWLAN: string := "wlan"
  const SubsystemWAN: string := "wan"

  /** One key per descriptor of the site family, named after its struct field. */
  datatype MetricKey =
    | NumUser | NumGuest | NumIot | TxBytesR | RxBytesR | NumAp | NumAdopted
    | NumDisabled | NumDisconnected | NumPending | NumGw | NumSw | NumSta
    | Latency | Drops | Uptime | XputUp | XputDown | SpeedtestPing
    | RemoteUserNumActive | RemoteUserNumInactive | RemoteUserRxBytes
    | RemoteUserTxBytes | RemoteUserRxPackets | RemoteUserTxPackets

  /** Every key, in the order the Go struct declares its fields. */
  const KeyOrder: seq<MetricKey> := [
    NumUser, NumGuest, NumIot, TxBytesR, RxBytesR, NumAp, NumAdopted,
    NumDisabled, NumDisconnected, NumPending, NumGw, NumSw, NumSta,
    Latency, Drops, Uptime, XputUp, XputDown, SpeedtestPing,
    RemoteUserNumActive, RemoteUserNumInactive, RemoteUserRxBytes,
    RemoteUserTxBytes, RemoteUserRxPackets, RemoteUserTxPackets
  ]

  /** Where a key stands in `KeyOrder`. */
  function Index(k: MetricKey): (i: nat)
    ensures i < |KeyOrder| && KeyOrder[i] == k
  {
    match k
    case NumUser => 0
    case NumGuest => 1
    case NumIot => 2
    case TxBytesR => 3
    case RxBytesR => 4
    case NumAp => 5
    case NumAdopted => 6
    case NumDisabled => 7
    case NumDisconnected => 8
    case NumPending => 9
    case NumGw => 10
    case NumSw => 11
    case NumSta => 12
    case Latency => 13
    case Drops => 14
    case Uptime => 15
    case XputUp => 16
    case XputDown => 17
    case SpeedtestPing => 18
    case RemoteUserNumActive => 19
    case RemoteUserNumInactive => 20
    case RemoteUserRxBytes => 21
    case RemoteUserTxBytes => 22
    case RemoteUserRxPackets => 23
    case RemoteUserTxPackets => 24
  }

  lemma KeyOrderComplete()
    ensures forall k :: k in KeyOrder
  {
    forall k: MetricKey ensures k in KeyOrder {
      assert KeyOrder[Index(k)] == k;
    }
  }

  /** The metric name that follows the namespace prefix (wire names, typo included). */
  function Suffix(k: MetricKey): string {
    match k
    case NumUser => "num_user"
    case NumGuest => "num_guest"
    case NumIot => "num_iot"
    case TxBytesR => "transmit_rate_bytes"
    case RxBytesR => "receive_rate_bytes"
    case NumAp => "num_ap"
    case NumAdopted => "num_adopted"
    case NumDisabled => "num_disabled"
    case NumDisconnected => "num_disconnected"
    case NumPending => "num_pending"
    case NumGw => "num_gateways"
    case NumSw => "num_switches"
    case NumSta => "num_stations"
    case Latency => "latency_seconds"
    case Uptime => "uptime_seconds"
    case Drops => "intenet_drops_total"
    case XputUp => "xput_up_rate"
    case XputDown => "xput_down_rate"
    case SpeedtestPing => "speedtest_ping"
    case RemoteUserNumActive => "num_remote_user_active"
    case RemoteUserNumInactive => "num_remote_user_inactive"
    case RemoteUserRxBytes => "remote_user_receive_bytes_total"
    case RemoteUserTxBytes => "remote_user_transmit_bytes_total"
    case RemoteUserRxPackets => "remote_user_receive_packets_total"
    case RemoteUserTxPackets => "remote_user_transmit_packets_total"
  }

  /** The label names every site descriptor declares, in this order. */
  const LabelNames: seq<string> := ["subsystem", "status", "name", "desc", "site_name"]

  /**
    The namespace prefix, computed as the exporter does: append "_site_" and
    replace a bare "_site_" by "site_".
   */
  function Prefix(ns: string): (p: string)
    ensures ns == "" ==> p == "site_"
    ensures ns != "" ==> p == ns + "_site_"
    ensures |p| >= 5 && p[|p| - 5..] == "site_"
  {
    var p := ns + "_site_";
    if p == "_site_" then "site_" else p
  }

  /** A descriptor: its fully qualified name and its label names (help text left out). */
  datatype Desc = Desc(fqName: string, labelNames: seq<string>)

  /**
    The descriptor registry for namespace `ns`: every key has a descriptor,
    named prefix + suffix, declaring the shared label names; no two keys
    share a name.
   */
  function DescSite(ns: string): (descs: map<MetricKey, Desc>)
    ensures forall k :: k in descs && descs[k] == Desc(Prefix(ns) + Suffix(k), LabelNames)
    ensures forall a, b :: descs[a].fqName == descs[b].fqName ==> a == b
  {
    KeyOrderComplete();
    var p := Prefix(ns);
    NamesDistinct(p);
    var labels := LabelNames;
    map k | k in KeyOrder :: Desc(p + Suffix(k), labels)
  }

  /** Distinct keys have distinct suffixes. */
  lemma SuffixInjective(a: MetricKey, b: MetricKey)
    ensures Suffix(a) == Suffix(b) ==> a == b
  {
  }

  /** Under one prefix, distinct keys get distinct names. */
  lemma NamesDistinct(p: string)
    ensures forall a, b :: p + Suffix(a) == p + Suffix(b) ==> a == b
  {
    forall a, b | p + Suffix(a) == p + Suffix(b) ensures a == b {
      assert (p + Suffix(a))[|p|..] == Suffix(a);
      assert (p + Suffix(b))[|p|..] == Suffix(b);
      SuffixInjective(a, b);
    }
  }

  /** The first key of `ks` whose suffix is `s`, if any. */
  function FindKey(ks: seq<MetricKey>, s: string): (r: Option<MetricKey>)
    ensures r.Some? ==> r.value in ks && Suffix(r.value) == s
    ensures r.None? ==> forall k :: k in ks ==> Suffix(k) != s
  {
    if ks == [] then None
    else if Suffix(ks[0]) == s then Some(ks[0])
    else FindKey(ks[1..], s)
  }

  /**
    The namespace rule as the exporter's users see it: without a namespace a
    metric is named "site_<metric>", with one "<ns>_site_<metric>".
   */
  lemma NamespaceRule(ns: string, k: MetricKey)
    ensures ns == "" ==> DescSite(ns)[k].fqName == "site_" + Suffix(k)
    ensures ns != "" ==> DescSite(ns)[k].fqName == ns + "_site_" + Suffix(k)
  {
    if ns != "" {
      assert (ns + "_site_") + Suffix(k) == ns + ("_site_" + Suffix(k));
    }
  }

  /** The inverse of `Suffix`: the key a metric suffix belongs to, if any. */
  function KeyOfSuffix(s: string): Option<MetricKey> {
    FindKey(KeyOrder, s)
  }

  /** The key a fully qualified metric name under namespace `ns` stands for, if any. */
  function ParseName(ns: string, name: string): Option<MetricKey> {
    var p := Prefix(ns);
    if |p| <= |name| && name[..|p|] == p then KeyOfSuffix(name[|p|..]) else None
  }

  /** Parsing a registered descriptor's name gives back its key. */
  lemma NameRoundTrip(ns: string, k: MetricKey)
    ensures ParseName(ns, DescSite(ns)[k].fqName) == Some(k)
  {
    var p := Prefix(ns);
    var name := DescSite(ns)[k].fqName;
    assert name == p + Suffix(k);
    assert name[..|p|] == p && name[|p|..] == Suffix(k);
    KeyOrderComplete();
    FindKeySuffix(KeyOrder, k);
  }

  /** Looking up a key's own suffix finds that key. */
  lemma {:induction false} FindKeySuffix(ks: seq<MetricKey>, k: MetricKey)
    requires k in ks
    ensures FindKey(ks, Suffix(k)) == Some(k)
  {
    if ks[0] != k {
      SuffixInjective(ks[0], k);
      FindKeySuffix(ks[1..], k);
    }
  }
}
