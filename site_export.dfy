/**
  The export dispatcher: walks a report's sites in order and, for each site,
  its health records in order, sending each record's batches to the report's
  sink. The sink is modelled as the sequence of samples sent so far, and a
  send appends a batch to it.
 */
module SiteExport {
  import opened Wrappers
  import opened SiteDesc
  import opened SiteSelect

  /** A site: its constant labels and its health records, one per subsystem. */
  datatype Site = Site(name: string, desc: string, siteName: string, health: seq<Health>)

  /** The collected metrics of one polling cycle (only the sites matter here). */
  datatype Metrics = Metrics(sites: seq<Site>)

  /** The label values every sample of a site ends with. */
  function SiteLabels(s: Site): seq<string> {
    [s.name, s.desc, s.siteName]
  }

  /** A record's label values: its subsystem and status in front of the site's. */
  function RecordLabels(h: Health, siteLabels: seq<string>): seq<string> {
    [h.subsystem, h.status] + siteLabels
  }

  /**
    The samples of records `hs`, record after record. Every sample carries
    two record labels followed by the site's labels.
   */
  function HealthSamples(hs: seq<Health>, siteLabels: seq<string>): (r: seq<Sample>)
    ensures forall i :: 0 <= i < |r| ==>
      |r[i].labels| == 2 + |siteLabels| && r[i].labels[2..] == siteLabels
  {
    if hs == [] then []
    else
      LabelsAndKeys(hs[0], RecordLabels(hs[0], siteLabels));
      SamplesFor(hs[0], RecordLabels(hs[0], siteLabels)) + HealthSamples(hs[1..], siteLabels)
  }

  /** Everything one site exports. */
  function SiteSamples(s: Site): seq<Sample> {
    HealthSamples(s.health, SiteLabels(s))
  }

  /** The samples of `sites`, site after site. */
  function SitesSamples(sites: seq<Site>): seq<Sample> {
    if sites == [] then [] else SiteSamples(sites[0]) + SitesSamples(sites[1..])
  }

  /** Everything one report exports: nothing when it has no metrics or no sites. */
  function ReportSamples(m: Option<Metrics>): seq<Sample> {
    if m.None? || |m.value.sites| < 1 then [] else SitesSamples(m.value.sites)
  }

  /** Exporting a sequence of records is exporting its parts one after the other. */
  lemma {:induction false} HealthSamplesAppend(a: seq<Health>, b: seq<Health>, siteLabels: seq<string>)
    ensures HealthSamples(a + b, siteLabels) == HealthSamples(a, siteLabels) + HealthSamples(b, siteLabels)
  {
    if a == [] {
      assert a + b == b;
    } else {
      assert (a + b)[0] == a[0] && (a + b)[1..] == a[1..] + b;
      HealthSamplesAppend(a[1..], b, siteLabels);
    }
  }

  /** Exporting a sequence of sites is exporting its parts one after the other. */
  lemma {:induction false} SitesSamplesAppend(a: seq<Site>, b: seq<Site>)
    ensures SitesSamples(a + b) == SitesSamples(a) + SitesSamples(b)
  {
    if a == [] {
      assert a + b == b;
    } else {
      assert (a + b)[0] == a[0] && (a + b)[1..] == a[1..] + b;
      SitesSamplesAppend(a[1..], b);
    }
  }

  lemma AppendAssoc<T>(a: seq<T>, b: seq<T>, c: seq<T>)
    ensures a + (b + c) == (a + b) + c
  {
  }

  /** One more record adds its own samples at the end. */
  lemma HealthSamplesSnoc(hs: seq<Health>, h: Health, siteLabels: seq<string>)
    ensures HealthSamples(hs + [h], siteLabels) ==
      HealthSamples(hs, siteLabels) + SamplesFor(h, [h.subsystem, h.status] + siteLabels)
  {
    HealthSamplesAppend(hs, [h], siteLabels);
    assert HealthSamples([h], siteLabels) == SamplesFor(h, RecordLabels(h, siteLabels)) + HealthSamples([], siteLabels);
  }

  /** Record `j`'s samples sit, as one block, between those of the records before and after it. */
  lemma RecordBlock(hs: seq<Health>, siteLabels: seq<string>, j: nat)
    requires j < |hs|
    ensures HealthSamples(hs, siteLabels) ==
      HealthSamples(hs[..j], siteLabels)
      + SamplesFor(hs[j], RecordLabels(hs[j], siteLabels))
      + HealthSamples(hs[j + 1..], siteLabels)
  {
    assert hs == hs[..j] + ([hs[j]] + hs[j + 1..]);
    HealthSamplesAppend(hs[..j], [hs[j]] + hs[j + 1..], siteLabels);
    HealthSamplesAppend([hs[j]], hs[j + 1..], siteLabels);
    assert HealthSamples([hs[j]], siteLabels) ==
      SamplesFor(hs[j], RecordLabels(hs[j], siteLabels)) + HealthSamples([], siteLabels);
    AppendAssoc(HealthSamples(hs[..j], siteLabels), SamplesFor(hs[j], RecordLabels(hs[j], siteLabels)),
      HealthSamples(hs[j + 1..], siteLabels));
  }

  /** Every sample of a record sequence comes from one of its records, with that record's labels. */
  lemma {:induction false} SampleOrigin(hs: seq<Health>, siteLabels: seq<string>, i: nat)
    requires i < |HealthSamples(hs, siteLabels)|
    ensures exists j :: (0 <= j < |hs| &&
      HealthSamples(hs, siteLabels)[i] in SamplesFor(hs[j], RecordLabels(hs[j], siteLabels)) &&
      HealthSamples(hs, siteLabels)[i].labels == RecordLabels(hs[j], siteLabels))
  {
    var first := SamplesFor(hs[0], RecordLabels(hs[0], siteLabels));
    LabelsAndKeys(hs[0], RecordLabels(hs[0], siteLabels));
    if i < |first| {
      assert HealthSamples(hs, siteLabels)[i] == first[i];
    } else {
      SampleOrigin(hs[1..], siteLabels, i - |first|);
      var j :| 0 <= j < |hs[1..]| &&
        HealthSamples(hs[1..], siteLabels)[i - |first|] in SamplesFor(hs[1..][j], RecordLabels(hs[1..][j], siteLabels)) &&
        HealthSamples(hs[1..], siteLabels)[i - |first|].labels == RecordLabels(hs[1..][j], siteLabels);
      assert HealthSamples(hs, siteLabels)[i] == HealthSamples(hs[1..], siteLabels)[i - |first|];
      assert hs[1..][j] == hs[j + 1];
    }
  }

  /**
    Every sample of a site carries five label values, as many as every
    descriptor declares names: subsystem, status, name, desc, site name.
   */
  lemma SiteLabelShape(ns: string, s: Site, i: nat)
    requires i < |SiteSamples(s)|
    ensures |SiteSamples(s)[i].labels| == |DescSite(ns)[SiteSamples(s)[i].key].labelNames| == 5
    ensures exists j :: (0 <= j < |s.health| &&
      SiteSamples(s)[i].labels == [s.health[j].subsystem, s.health[j].status, s.name, s.desc, s.siteName])
  {
    var x := SiteSamples(s)[i];
    SampleOrigin(s.health, SiteLabels(s), i);
    var j :| 0 <= j < |s.health| && x.labels == RecordLabels(s.health[j], SiteLabels(s));
    assert x.labels == [s.health[j].subsystem, s.health[j].status, s.name, s.desc, s.siteName];
    assert DescSite(ns)[x.key].labelNames == LabelNames;
  }

  /**
    Throughput samples are never labelled vpn, and remote-user samples are
    always labelled vpn, in everything a record sequence exports.
   */
  lemma {:induction false} VpnSeparation(hs: seq<Health>, siteLabels: seq<string>)
    ensures forall x :: x in HealthSamples(hs, siteLabels) ==>
      (x.key in {TxBytesR, RxBytesR} ==> x.labels[0] != SubsystemVPN) &&
      (IsRemoteUser(x.key) ==> x.labels[0] == SubsystemVPN)
  {
    if hs != [] {
      var l := RecordLabels(hs[0], siteLabels);
      VpnSelection(hs[0], l);
      LabelsAndKeys(hs[0], l);
      VpnSeparation(hs[1..], siteLabels);
    }
  }

  /** Every sample of a sequence of sites comes from one of those sites. */
  lemma {:induction false} SiteOrigin(sites: seq<Site>, i: nat)
    requires i < |SitesSamples(sites)|
    ensures exists k :: 0 <= k < |sites| && SitesSamples(sites)[i] in SiteSamples(sites[k])
  {
    var first := SiteSamples(sites[0]);
    if i < |first| {
      assert SitesSamples(sites)[i] == first[i];
    } else {
      SiteOrigin(sites[1..], i - |first|);
      var k :| 0 <= k < |sites[1..]| && SitesSamples(sites[1..])[i - |first|] in SiteSamples(sites[1..][k]);
      assert SitesSamples(sites)[i] == SitesSamples(sites[1..])[i - |first|];
      assert sites[1..][k] == sites[k + 1];
    }
  }

  /** A report without metrics, or with no sites, exports nothing. */
  lemma EmptyReport(m: Option<Metrics>)
    requires m.None? || m.value.sites == []
    ensures ReportSamples(m) == []
  {
  }

  /**
    Exporting the same metrics into two fresh reports sends the same
    samples: the export is a deterministic function of the metrics.
   */
  method ExportIsDeterministic(m: Option<Metrics>) returns (first: seq<Sample>, second: seq<Sample>)
    ensures first == second == ReportSamples(m)
  {
    var r1 := new Report(m);
    ExportSites(r1);
    first := r1.sent;
    var r2 := new Report(m);
    ExportSites(r2);
    second := r2.sent;
  }

  /** The report whose sink collects every sample sent during one export cycle. */
  class Report {
    const metrics: Option<Metrics>
    var sent: seq<Sample>

    constructor (metrics: Option<Metrics>)
      ensures this.metrics == metrics && sent == []
    {
      this.metrics := metrics;
      sent := [];
    }

    /** Sends one batch: it is appended after everything sent before. */
    method Send(batch: seq<Sample>)
      modifies this
      ensures sent == old(sent) + batch
    {
      sent := sent + batch;
    }
  }

  /** Sends the batches health record `h` selects, labelled `l`, in the exporter's order. */
  method ExportHealth(r: Report, h: Health, l: seq<string>)
    modifies r
    ensures r.sent == old(r.sent) + SamplesFor(h, l)
  {
    if h.subsystem != SubsystemVPN {
      r.Send(Throughput(h, l));
    } else {
      r.Send(RemoteUsers(h, l));
    }

    if h.subsystem == SubsystemWWW {
      r.Send(Uplink(h, l));
    }

    if h.subsystem == SubsystemLAN || h.subsystem == SubsystemWLAN || h.subsystem == SubsystemWAN {
      r.Send(Adoption(h, l));

      if h.subsystem == SubsystemLAN || h.subsystem == SubsystemWLAN {
        r.Send(Occupancy(h, l));
      }

      if h.subsystem == SubsystemWLAN {
        r.Send(AccessPoints(h, l));
      }

      if h.subsystem == SubsystemWAN {
        r.Send(Gateways(h, l));
      }

      if h.subsystem == SubsystemLAN {
        r.Send(Switches(h, l));
      }
    }
  }

  /**
    Sends, record by record, the batches each health record of `s` selects;
    the sink grows by exactly the site's samples.
   */
  method ExportSite(r: Report, s: Site)
    modifies r
    ensures r.sent == old(r.sent) + SiteSamples(s)
  {
    var labels := SiteLabels(s);
    for i := 0 to |s.health|
      invariant r.sent == old(r.sent) + HealthSamples(s.health[..i], labels)
    {
      var h := s.health[i];
      var l := [h.subsystem, h.status] + labels;
      ExportHealth(r, h, l);
      assert s.health[..i + 1] == s.health[..i] + [h];
      HealthSamplesSnoc(s.health[..i], h, labels);
      AppendAssoc(old(r.sent), HealthSamples(s.health[..i], labels), SamplesFor(h, l));
    }
    assert s.health[..|s.health|] == s.health;
  }

  /**
    Exports every site of the report in order; returns at once, sending
    nothing, when the report has no metrics or no sites.
   */
  method ExportSites(r: Report)
    modifies r
    ensures r.sent == old(r.sent) + ReportSamples(r.metrics)
  {
    if r.metrics.None? || |r.metrics.value.sites| < 1 {
      return;
    }
    var sites := r.metrics.value.sites;
    for i := 0 to |sites|
      invariant r.sent == old(r.sent) + SitesSamples(sites[..i])
    {
      ExportSite(r, sites[i]);
      assert sites[..i + 1] == sites[..i] + [sites[i]];
      SitesSamplesAppend(sites[..i], [sites[i]]);
      assert SitesSamples([sites[i]]) == SiteSamples(sites[i]) + SitesSamples([]);
      AppendAssoc(old(r.sent), SitesSamples(sites[..i]), SiteSamples(sites[i]));
    }
    assert sites[..|sites|] == sites;
  }
}
