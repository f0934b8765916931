# Site metrics export, modelled in Dafny

This project models the site-level part of the Prometheus exporter in
`integrations/influxunifi/promunifi/site.go`. For each site in a polling
report, the exporter reads the site's health records. There is one record
per subsystem: `lan`, `wlan`, `wan`, `www` or `vpn`. Each record becomes a
fixed, tag-dependent list of samples. A sample is a descriptor, a value kind
(gauge or counter), a value and five label values. The samples go to the
report's sink in batches.

- `wrappers.dfy`, module `Wrappers`: `Option`, standing in for Go's nil
  pointers and for "not found".
- `site_desc.dfy`, module `SiteDesc`: the subsystem constants, one metric key
  per field of the Go `site` struct, and the metric-name suffixes.
  `DescSite` builds the registry from a namespace. It applies the namespace
  rule and fixes the shared label-name list
  `[subsystem, status, name, desc, site_name]`. `ParseName` inverts the
  naming rule.
- `site_select.dfy`, module `SiteSelect`: the selection matrix.
  - `SamplesFor` is written as the exporter's nested conditionals, batch by
    batch.
  - `KeysFor`, `KindOf` and `ValueOf` state the same matrix as a declarative
    table: tag → ordered metric keys, key → kind, key → record field.
  - The lemmas prove that the conditionals and the table agree. They also
    prove the matrix's properties: counts, VPN exclusivity, latency
    conversion, value kinds, labels and no repeated metric.
- `site_export.dfy`, module `SiteExport`: the dispatcher.
  - `Report` is a class whose `sent` field is the sink. `Send` appends a
    batch to it.
  - `ExportSite` and `ExportSites` are the exporter's loops, and
    `ExportHealth` is the body of `ExportSite`'s loop. Each one is proved to
    append exactly the samples that `SamplesFor`, `SiteSamples` or
    `ReportSamples` prescribe.
  - The site-level and report-level lemmas state order, origin, label shape
    and VPN separation.

A sample carries its descriptor as a metric key. `DescSite(ns)[key]` is the
descriptor that the Go code passes as `u.Site.<Field>`.

### Behaviour worth knowing

- **Unknown subsystem tag.** Any tag other than `"vpn"` passes the first
  test (site.go:99), so a record with an unknown tag still sends the two
  throughput samples. `SampleCount` and `VpnSelection` prove this.
- **Empty namespace.** An empty namespace gives the prefix `"site_"`
  (site.go:47-49), so a name is `site_num_user`. See `Prefix` and
  `NamespaceRule`.
- **Label order.** The site labels are `[Name, Desc, SiteName]` (site.go:95),
  in the order of the declared label names `[..., name, desc, site_name]`.
- **Sequential site loop.** A single goroutine exports the sites one after
  another (site.go:85-91). The model is that sequential loop.
- **Wire names kept as written.** The drops metric is named
  `intenet_drops_total`. The `uptime_seconds` sample carries the raw latency
  field, while `latency_seconds` carries latency ÷ 1000.
  `LatencyConversion` states both.

## Model

| member | source | states |
|---|---|---|
| SiteDesc.Prefix | integrations/influxunifi/promunifi/site.go:46-49 | an empty namespace gives prefix `site_`; any other `ns` gives `ns + "_site_"`; every prefix ends in `site_` |
| SiteDesc.DescSite | integrations/influxunifi/promunifi/site.go:46-79 | every metric key has a descriptor named prefix + its suffix, declaring the label names `[subsystem, status, name, desc, site_name]`; no two keys share a name |
| SiteDesc.NamespaceRule | integrations/influxunifi/promunifi/site.go:47-77 | without a namespace a descriptor is named `site_<metric>`; with one, `<ns>_site_<metric>` |
| SiteDesc.NameRoundTrip | integrations/influxunifi/promunifi/site.go:53-77 | parsing a registered descriptor's name under the same namespace gives back its metric key |
| SiteSelect.SelectionMatchesTable | integrations/influxunifi/promunifi/site.go:99-160 | the nested conditionals send exactly the declarative table's row for the record's tag: the listed keys in order, each with the table's kind, its field's value and the record's labels |
| SiteSelect.SampleCount | integrations/influxunifi/promunifi/site.go:99-160 | per-record sample count is fixed by the tag: lan 9, wlan 10, wan 7, www 8, vpn 6, any other tag 2 |
| SiteSelect.VpnSelection | integrations/influxunifi/promunifi/site.go:99-113 | a vpn record sends the six remote-user samples and nothing else; every other tag, unknown ones included, opens with transmit and receive rate and sends no remote-user sample |
| SiteSelect.LatencyConversion | integrations/influxunifi/promunifi/site.go:115-124 | a www record's `latency_seconds` sample is the raw latency ÷ 1000 and its `uptime_seconds` sample is the raw latency, both gauges; no other tag sends either |
| SiteSelect.KindRule | integrations/influxunifi/promunifi/site.go:100-158 | a sample is a counter exactly when it is internet drops or a remote-user byte or packet total; every other sample is a gauge |
| SiteSelect.LabelsAndKeys | integrations/influxunifi/promunifi/site.go:97-158 | every sample of a record carries that record's label tuple, and no metric is sent twice for one record |
| SiteExport.HealthSamples | integrations/influxunifi/promunifi/site.go:95-97 | every sample of a site's records has two record labels followed by the site's constant labels |
| SiteExport.HealthSamplesAppend | integrations/influxunifi/promunifi/site.go:96-161 | records are exported in order: the samples of `a + b` are those of `a` followed by those of `b` |
| SiteExport.RecordBlock | integrations/influxunifi/promunifi/site.go:96-161 | record `j`'s samples form one contiguous block between the samples of the records before it and those after it |
| SiteExport.SitesSamplesAppend | integrations/influxunifi/promunifi/site.go:88-90 | sites are exported in order: the samples of `a + b` are those of `a` followed by those of `b` |
| SiteExport.SampleOrigin | integrations/influxunifi/promunifi/site.go:95-97 | every sample of a site comes from one of its health records and carries that record's `[Subsystem, Status]` ahead of the site's labels |
| SiteExport.SiteOrigin | integrations/influxunifi/promunifi/site.go:88-90 | every sample of a report's sites comes from one of those sites |
| SiteExport.SiteLabelShape | integrations/influxunifi/promunifi/site.go:50-97 | every site sample has exactly five label values, `[Subsystem, Status, Name, Desc, SiteName]` of some record, as many as its descriptor declares label names |
| SiteExport.VpnSeparation | integrations/influxunifi/promunifi/site.go:96-113 | in a site's output, transmit and receive rate samples are never labelled `vpn`, and remote-user samples always are |
| SiteExport.EmptyReport | integrations/influxunifi/promunifi/site.go:82-84 | a report with nil metrics or no sites exports nothing |
| SiteExport.ExportHealth | integrations/influxunifi/promunifi/site.go:97-160 | sending one record's batches appends exactly `SamplesFor` of that record to the sink and changes nothing else |
| SiteExport.ExportSite | integrations/influxunifi/promunifi/site.go:94-162 | the loop over a site's health records appends exactly the site's samples, record by record, after what the sink held before |
| SiteExport.ExportSites | integrations/influxunifi/promunifi/site.go:81-92 | the guard returns without sending on nil metrics or no sites; otherwise the loop appends every site's samples in site order after what the sink held before |
| SiteExport.ExportIsDeterministic | integrations/influxunifi/promunifi/site.go:81-92 | exporting the same metrics into two fresh reports sends the same samples, namely `ReportSamples` of the metrics |

## Left out

- The goroutine and the wait group in `exportSites` (site.go:85-91): the model runs the site loop synchronously. `ExportSites`' postcondition describes the sink once the wait group is released.
- `prometheus.NewDesc` internals and the help strings: a descriptor is its fully qualified name and its label names.
- `Report.send` and the channel behind it are defined outside `site.go` and are not part of this model. The sink is the `sent` sequence, and a send appends a batch to it. The sink never fails.
- The `unifiCollector` receiver only supplies the descriptors, so the export methods are module-level and samples name their descriptor by metric key.
- `unifi.Site`, `unifi.FlexInt` and `unifi.FlexNum` wire types and float64 rounding: values are `real`, and `Latency.Val / 1000` is exact real division. Health fields that this exporter never reads are left out.
- Nil site pointers in the report's site list (Go would panic on one): model sites are values.
