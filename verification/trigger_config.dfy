/** The configuration snapshot the trigger is started with, and the checks and
    fallbacks applied to the activity's arguments before the polling task starts. */
module TriggerConfig {
  import opened Timing

  /** Poll period used when the configured one is not positive, in milliseconds. */
  const DefaultPolingTime: int := 250

  /** The settings handed to the polling task; the same shape also carries the raw
      argument values read from the activity before they are normalised.
      `interval` is in seconds, the offset limits in seconds, `polingInterval` in milliseconds.
      An unset initial target arrives as the host's minimum date, far more than a year back. */
  datatype InArgs = InArgs(
    initialTargetDateTime: Time,
    interval: int,
    mode: bool,
    addRandom: bool,
    lowerLimit: int,
    upperLimit: int,
    addNormalDistRandom: bool,
    sigma: real,
    polingInterval: int)

  datatype StartError = IntervalNotPositive

  datatype Result<T> = Ok(value: T) | Err(error: StartError)

  /** What a normalised snapshot guarantees to the polling task. */
  predicate Normalised(a: InArgs, oneYearAgo: Time) {
    && a.interval > 0
    && a.initialTargetDateTime >= oneYearAgo
    && a.polingInterval > 0
    && (a.addRandom ==> a.lowerLimit < a.upperLimit)
    && (a.addNormalDistRandom ==> a.sigma > 0.0)
  }

  /** The argument checks of the start of monitoring: a non-positive interval is an
      error raised before any polling task exists; otherwise the snapshot with its fallbacks.
      `oneYearAgo` is the clock reading minus one year taken for the comparison and
      `now` the reading taken for the replacement (the two are separate reads). */
  function StartMonitor(args: InArgs, now: Time, oneYearAgo: Time): (r: Result<InArgs>)
    ensures r.Err? <==> args.interval <= 0
    ensures r.Ok? ==> r.value.interval == args.interval
    ensures r.Ok? ==>
              r.value.initialTargetDateTime ==
              (if args.initialTargetDateTime < oneYearAgo then now else args.initialTargetDateTime)
    ensures r.Ok? ==>
              r.value.polingInterval ==
              (if args.polingInterval <= 0 then DefaultPolingTime else args.polingInterval)
    ensures r.Ok? ==> r.value.addRandom == (args.addRandom && args.lowerLimit < args.upperLimit)
    ensures r.Ok? ==> r.value.addNormalDistRandom == (args.addNormalDistRandom && args.sigma > 0.0)
    ensures r.Ok? ==> && r.value.mode == args.mode
                      && r.value.lowerLimit == args.lowerLimit
                      && r.value.upperLimit == args.upperLimit
                      && r.value.sigma == args.sigma
  {
    if args.interval <= 0 then
      Err(IntervalNotPositive)
    else
      var targetDt := if args.initialTargetDateTime < oneYearAgo then now else args.initialTargetDateTime;
      var polingInterval := if args.polingInterval <= 0 then DefaultPolingTime else args.polingInterval;
      var addRandom := if args.upperLimit <= args.lowerLimit then false else args.addRandom;
      var addNormalDistRandom := if args.sigma <= 0.0 then false else args.addNormalDistRandom;
      Ok(args.(initialTargetDateTime := targetDt, polingInterval := polingInterval,
               addRandom := addRandom, addNormalDistRandom := addNormalDistRandom))
  }

  /** A successful start hands the polling task a normalised snapshot
      (given that "one year ago" is not after "now"). */
  lemma StartMonitorNormalises(args: InArgs, now: Time, oneYearAgo: Time)
    requires oneYearAgo <= now
    ensures var r := StartMonitor(args, now, oneYearAgo);
            r.Ok? ==> Normalised(r.value, oneYearAgo)
  {
  }

  /** A normalised snapshot passes the checks unchanged, so normalising twice is normalising once. */
  lemma StartMonitorFixesNormalised(args: InArgs, now: Time, oneYearAgo: Time)
    requires Normalised(args, oneYearAgo)
    ensures StartMonitor(args, now, oneYearAgo) == Ok(args)
  {
  }

  lemma StartMonitorIdempotent(args: InArgs, now: Time, oneYearAgo: Time)
    requires oneYearAgo <= now
    ensures var r := StartMonitor(args, now, oneYearAgo);
            r.Ok? ==> StartMonitor(r.value, now, oneYearAgo) == r
  {
    var r := StartMonitor(args, now, oneYearAgo);
    if r.Ok? {
      StartMonitorNormalises(args, now, oneYearAgo);
      StartMonitorFixesNormalised(r.value, now, oneYearAgo);
    }
  }
}
