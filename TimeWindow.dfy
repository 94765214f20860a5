/** The time window of a listing request and its clamping to the legal epoch range. */
module TimeWindow {
  import opened Wrappers

  /** The earliest epoch second accepted. */
  const MIN_EPOCH: int := 0

  /** The epoch second of 9999-12-31T23:59:59. The service derives it from the local
      time zone; the model fixes the UTC value and relies only on MIN_EPOCH < MAX_EPOCH. */
  const MAX_EPOCH: int := 253402300799

  /** An inclusive window of epoch seconds. It may be inverted (from after to). */
  datatype Window = Window(fromEpoch: int, toEpoch: int)

  /** The request arguments after defaulting: a missing argument takes its default. */
  function DefaultArguments(fromArg: Option<int>, toArg: Option<int>): (w: Window)
    ensures fromArg.None? ==> w.fromEpoch == MIN_EPOCH
    ensures toArg.None? ==> w.toEpoch == MAX_EPOCH
    ensures fromArg.Some? ==> w.fromEpoch == fromArg.value
    ensures toArg.Some? ==> w.toEpoch == toArg.value
  {
    Window(if fromArg.Some? then fromArg.value else MIN_EPOCH,
           if toArg.Some? then toArg.value else MAX_EPOCH)
  }

  /** Raises `from` to MIN_EPOCH and lowers `to` to MAX_EPOCH; never swaps or rejects. */
  function ParseTimeRange(fromEpoch: int, toEpoch: int): (w: Window)
    ensures MIN_EPOCH <= w.fromEpoch && w.toEpoch <= MAX_EPOCH
    ensures fromEpoch >= MIN_EPOCH ==> w.fromEpoch == fromEpoch
    ensures fromEpoch < MIN_EPOCH ==> w.fromEpoch == MIN_EPOCH
    ensures toEpoch <= MAX_EPOCH ==> w.toEpoch == toEpoch
    ensures toEpoch > MAX_EPOCH ==> w.toEpoch == MAX_EPOCH
    ensures fromEpoch <= w.fromEpoch && w.toEpoch <= toEpoch
    ensures w.fromEpoch > w.toEpoch <==>
              fromEpoch > toEpoch || toEpoch < MIN_EPOCH || fromEpoch > MAX_EPOCH
  {
    var f := if fromEpoch < MIN_EPOCH then MIN_EPOCH else fromEpoch;
    var t := if toEpoch > MAX_EPOCH then MAX_EPOCH else toEpoch;
    Window(f, t)
  }

  /** Clamping an already clamped window changes nothing. */
  lemma ParseTimeRangeIdempotent(fromEpoch: int, toEpoch: int)
    ensures var w := ParseTimeRange(fromEpoch, toEpoch);
            ParseTimeRange(w.fromEpoch, w.toEpoch) == w
  {
  }

  /** With no arguments at all the window spans the whole legal range. */
  lemma NoArgumentsGiveFullRange()
    ensures var d := DefaultArguments(None, None);
            ParseTimeRange(d.fromEpoch, d.toEpoch) == Window(MIN_EPOCH, MAX_EPOCH)
  {
  }
}
