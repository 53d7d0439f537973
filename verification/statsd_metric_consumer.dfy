/** The consumer that periodically sends the HTTP client's connection and memory gauges to
    StatsD, every metric name tagged with the client's name. The scheduler, the StatsD
    client and the gauges it sends are outside this model: scheduling is recorded as a
    request to the scheduler, and cancelling as a request to the scheduled future. */
module StatsDMetricConsumers {
  import opened Wrappers
  import opened JavaStrings

  const NAME_KEY: string := "clientName"
  const NAME_TAG_PREFIX: string := NAME_KEY + "_is_"

  /** `clientName_is_<name>`, with every `.` of the name turned into `-`, so that the tag is
      a single segment of a dotted metric name. */
  function BuildNameTag(name: string): (tag: string)
    ensures |tag| == |NAME_TAG_PREFIX| + |name| && tag[..|NAME_TAG_PREFIX|] == NAME_TAG_PREFIX
    ensures forall i :: 0 <= i < |name| ==>
              tag[|NAME_TAG_PREFIX| + i] == (if name[i] == '.' then '-' else name[i])
  {
    NAME_TAG_PREFIX + ReplaceChar(name, '.', '-')
  }

  /** A name tag never contains a dot, and a name without dots is kept as it is. */
  lemma NameTagHasNoDot(name: string)
    ensures '.' !in BuildNameTag(name)
    ensures '.' !in name ==> BuildNameTag(name) == "clientName_is_" + name
  {
    var tag := BuildNameTag(name);
    assert NAME_TAG_PREFIX == "clientName_is_";
    forall i | 0 <= i < |tag|
      ensures tag[i] != '.'
    {
      if i >= |NAME_TAG_PREFIX| {
        assert tag[i] == tag[|NAME_TAG_PREFIX| + (i - |NAME_TAG_PREFIX|)];
      } else {
        assert tag[i] == tag[..|NAME_TAG_PREFIX|][i];
      }
    }
    if '.' !in name {
      assert ReplaceChar(name, '.', '-') == name;
    }
  }

  /** The metric name followed by the tags, all joined with dots; an absent (null) tag array
      leaves the name alone. */
  function GetFullMetricName(metricName: string, tags: Option<seq<string>>): (full: string)
    ensures tags.None? ==> full == metricName
    ensures tags.Some? ==> full == metricName + "." + Join(".", tags.value)
  {
    match tags
    case None => metricName
    case Some(ts) =>
      var parts := [metricName, Join(".", ts)];
      assert parts[1..] == [Join(".", ts)];
      assert Join(".", parts[1..]) == Join(".", ts);
      Join(".", parts)
  }

  /** With the same tags, different metric names stay different. */
  lemma FullMetricNameInjective(m1: string, m2: string, tags: Option<seq<string>>)
    requires GetFullMetricName(m1, tags) == GetFullMetricName(m2, tags)
    ensures m1 == m2
  {
    if tags.Some? {
      var joined := Join(".", tags.value);
      assert m1 + "." + joined == m2 + "." + joined;
      assert |m1| == |m2|;
      assert m1 == (m1 + "." + joined)[..|m1|];
      assert m2 == (m2 + "." + joined)[..|m2|];
    }
  }

  /** A request to the scheduler: run the gauge task for `provider` at a fixed rate. */
  datatype Schedule<P> = Schedule(provider: P, initialDelay: int, period: int, unit: string)

  class StatsDMetricConsumer<P> {
    const nameTag: string
    const sendIntervalAmount: int
    const sendIntervalUnit: string
    /** The scheduled future, as an index into `scheduled`; none until `accept` schedules. */
    var future: Option<nat>
    /** Every request made to the scheduler, in order. */
    var scheduled: seq<Schedule<P>>
    /** Every `cancel(false)` made, by the future it was made on. */
    var cancelled: seq<nat>

    constructor (name: string, sendIntervalAmount: int, sendIntervalUnit: string)
      ensures nameTag == BuildNameTag(name)
      ensures this.sendIntervalAmount == sendIntervalAmount && this.sendIntervalUnit == sendIntervalUnit
      ensures future == None && scheduled == [] && cancelled == []
    {
      nameTag := BuildNameTag(name);
      this.sendIntervalAmount := sendIntervalAmount;
      this.sendIntervalUnit := sendIntervalUnit;
      future := None;
      scheduled := [];
      cancelled := [];
    }

    /** The future always refers to a request that was made. */
    ghost predicate Valid()
      reads this
    {
      future.Some? ==> future.value < |scheduled|
    }

    /** A missing provider schedules nothing; otherwise one fixed-rate task starting at once,
        which becomes the future. */
    method Accept(metricProvider: Option<P>)
      requires Valid()
      modifies this`future, this`scheduled
      ensures Valid()
      ensures metricProvider.None? ==> future == old(future) && scheduled == old(scheduled)
      ensures metricProvider.Some? ==>
        && scheduled == old(scheduled) + [Schedule(metricProvider.value, 0, sendIntervalAmount, sendIntervalUnit)]
        && future == Some(|old(scheduled)|)
    {
      if metricProvider.None? {
        return;
      }
      scheduled := scheduled + [Schedule(metricProvider.value, 0, sendIntervalAmount, sendIntervalUnit)];
      future := Some(|scheduled| - 1);
    }

    /** Cancels the future, without interrupting a running send, if there is one. */
    method Disconnect()
      requires Valid()
      modifies this`cancelled
      ensures Valid()
      ensures future.None? ==> cancelled == old(cancelled)
      ensures future.Some? ==> cancelled == old(cancelled) + [future.value]
    {
      if future.Some? {
        cancelled := cancelled + [future.value];
      }
    }
  }
}
