/**
 * The parts of the metrics library the collector uses: metric descriptors,
 * constant gauge samples with an optional explicit timestamp, and the
 * channel the samples are sent on.
 */
module Metrics {

  /** A metric descriptor: fully-qualified name, help text and variable label names. */
  datatype Desc = Desc(fqName: string, help: string, variableLabels: seq<string>)

  /** Either the default (scrape-time) timestamp, or an explicit one in unix seconds. */
  datatype Timestamp = ScrapeTime | At(unixSeconds: int)

  /** A constant gauge sample: its descriptor, its value, its label values and its timestamp. */
  datatype Metric = Metric(desc: Desc, value: real, labelValues: seq<string>, timestamp: Timestamp)

  /** A sample has one label value per variable label of its descriptor. */
  predicate LabelsMatch(m: Metric) {
    |m.labelValues| == |m.desc.variableLabels|
  }

  /** The channel the registry hands to a collector; it keeps everything sent on it, in order. */
  class Channel {
    var sent: seq<Metric>

    constructor ()
      ensures sent == []
    {
      sent := [];
    }

    method Send(m: Metric)
      modifies this
      ensures sent == old(sent) + [m]
    {
      sent := sent + [m];
    }
  }
}
