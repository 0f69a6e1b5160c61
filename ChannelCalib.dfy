/** The per-channel calibration table.  A channel is either a simulated (MC)
    channel, identified by a type and a sequence number, or a data channel.
    MC type 0 is a wire (sequence 0, 1, 2 for the X, V and U planes) and MC
    type 1 is a PMT; every other MC type is unknown and makes every accessor
    fail.  The data-channel branch is the one compiled with
    SKIP_DATA_CALIBRATION defined: fixed constants, never a failure.

    The truth vectors read from the event store and the collection
    efficiencies read from the runtime parameters are passed in explicitly;
    the unit constants of the source are abstract positive reals. */
module ChannelCalib {

  datatype Option<T> = None | Some(value: T)

  datatype ChannelId =
    | McChannel(mcType: int, sequence: int)
    | DataChannel(raw: int)

  datatype CalibError = UnknownChannelType

  datatype Result<T> = Ok(value: T) | Err(error: CalibError)

  /** The outcome of an operation that consults the table: it completes,
      or the table's failure propagates out of it. */
  datatype Status = Completed | Threw(error: CalibError)

  /** The unit constants used by the table (nanosecond, second, millimetre,
      microsecond), each an abstract positive real. */
  datatype Units = Units(ns: real, second: real, millimeter: real, microsecond: real)
  {
    predicate Valid()
    {
      ns > 0.0 && second > 0.0 && millimeter > 0.0 && microsecond > 0.0
    }
  }

  /** The simulation truth stored with the event: pedestal, gain,
      digitisation step and digitiser slope per channel index, and the
      optional argon datum (drift velocity, electron lifetime). */
  datatype Truth = Truth(pedestal: seq<real>, gain: seq<real>, digitStep: seq<real>,
                         slope: seq<real>, argon: Option<seq<real>>)

  /** The configured collection efficiencies of the X, V and U wire planes. */
  datatype Collection = Collection(x: real, v: real, u: real)

  /** A channel the table knows: every data channel, and MC types 0 and 1. */
  predicate Known(id: ChannelId)
  {
    id.DataChannel? || id.mcType == 0 || id.mcType == 1
  }

  /** The channel index of an MC channel: the sequence for type 0, 3 for
      type 1, and the unknown-type failure otherwise. */
  function Index(id: ChannelId): (r: Result<int>)
    requires id.McChannel?
    ensures r.Ok? <==> Known(id)
    ensures id.mcType == 0 ==> r == Ok(id.sequence)
    ensures id.mcType == 1 ==> r == Ok(3)
  {
    if id.mcType == 0 then Ok(id.sequence)
    else if id.mcType == 1 then Ok(3)
    else Err(UnknownChannelType)
  }

  /** The truth entry of a known MC channel exists in `v`. */
  predicate Covers(v: seq<real>, id: ChannelId)
  {
    id.McChannel? && Known(id) ==> 0 <= Index(id).value < |v|
  }

  /** Whether a channel carries an induction (bipolar) signal. */
  function IsBipolarSignal(id: ChannelId): (r: Result<bool>)
    ensures r.Err? <==> !Known(id)
    ensures r == Ok(true) <==> id.McChannel? && id.mcType == 0 && (id.sequence == 1 || id.sequence == 2)
  {
    if id.McChannel? then
      match Index(id)
      case Err(e) => Err(e)
      case Ok(k) => Ok(k == 1 || k == 2)
    else Ok(false)
  }

  /** Pedestal (order 0) or gain (order 1) of a channel. */
  function GainConstant(truth: Truth, id: ChannelId, order: int): (r: Result<real>)
    requires order == 0 ==> Covers(truth.pedestal, id)
    requires order == 1 ==> Covers(truth.gain, id)
    ensures r.Err? <==> !Known(id)
    ensures id.DataChannel? ==> r == Ok(if order == 1 then 1.0 else 2048.0)
    ensures id.McChannel? && id.mcType == 1 && order == 0 ==> r == Ok(truth.pedestal[3])
    ensures id.McChannel? && id.mcType == 1 && order == 1 ==> r == Ok(truth.gain[3])
    ensures id.McChannel? && id.mcType == 0 && order == 0 ==> r == Ok(truth.pedestal[id.sequence])
    ensures id.McChannel? && id.mcType == 0 && order == 1 ==> r == Ok(truth.gain[id.sequence])
    ensures id.McChannel? && Known(id) && order != 0 && order != 1 ==> r == Ok(0.0)
  {
    if id.McChannel? then
      match Index(id)
      case Err(e) => Err(e)
      case Ok(k) =>
        if order == 0 then Ok(truth.pedestal[k])
        else if order == 1 then Ok(truth.gain[k])
        else Ok(0.0)
    else if order == 1 then Ok(1.0)
    else Ok(2048.0)
  }

  /** Time offset (order 0) or digitisation step (order 1) of a channel. */
  function TimeConstant(u: Units, truth: Truth, id: ChannelId, order: int): (r: Result<real>)
    requires Covers(truth.digitStep, id)
    ensures r.Err? <==> !Known(id)
    ensures id.DataChannel? ==> r == Ok(if order == 1 then 500.0 * u.ns else 0.0)
    ensures id.McChannel? && Known(id) && order == 1 ==> r == Ok(truth.digitStep[Index(id).value])
    ensures id.McChannel? && Known(id) && order == 0 && Index(id).value == 1 ==>
              r.value + truth.digitStep[1] == 23.0 * u.ns
    ensures id.McChannel? && Known(id) && order == 0 && Index(id).value == 2 ==>
              r.value + truth.digitStep[2] == 52.0 * u.ns
    ensures id.McChannel? && Known(id) && order == 0 && Index(id).value != 1 && Index(id).value != 2 ==>
              r == Ok(0.0)
    ensures id.McChannel? && Known(id) && order != 0 && order != 1 ==> r == Ok(0.0)
  {
    if id.McChannel? then
      match Index(id)
      case Err(e) => Err(e)
      case Ok(k) =>
        var digitStep := truth.digitStep[k];
        if order == 0 then
          Ok(if k == 1 then -digitStep + 23.0 * u.ns
             else if k == 2 then -digitStep + 52.0 * u.ns
             else 0.0)
        else if order == 1 then Ok(digitStep)
        else Ok(0.0)
    else if order == 1 then Ok(500.0 * u.ns)
    else Ok(0.0)
  }

  /** Digitiser offset (order 0) or slope (order 1) of a channel. */
  function DigitizerConstant(truth: Truth, id: ChannelId, order: int): (r: Result<real>)
    requires order == 1 ==> Covers(truth.slope, id)
    ensures r.Err? <==> !Known(id)
    ensures id.DataChannel? ==> r == Ok(if order == 1 then 1.0 else 0.0)
    ensures id.McChannel? && Known(id) && order == 1 ==> r == Ok(truth.slope[Index(id).value])
    ensures id.McChannel? && Known(id) && order != 1 ==> r == Ok(0.0)
  {
    if id.McChannel? then
      match Index(id)
      case Err(e) => Err(e)
      case Ok(k) =>
        if order == 0 then Ok(0.0)
        else if order == 1 then Ok(truth.slope[k])
        else Ok(0.0)
    else if order == 1 then Ok(1.0)
    else Ok(0.0)
  }

  /** Electron lifetime: the second argon entry, 3.14e8 s without the datum. */
  function ElectronLifetime(u: Units, truth: Truth): (r: real)
    requires truth.argon.Some? ==> |truth.argon.value| >= 2
    ensures truth.argon.None? ==> r == 3.14e8 * u.second
    ensures truth.argon.Some? ==> r == truth.argon.value[1]
  {
    match truth.argon
    case None => 3.14e8 * u.second
    case Some(a) => a[1]
  }

  /** Electron drift velocity: the first argon entry, 1.6 mm/us without the
      datum. */
  function ElectronDriftVelocity(u: Units, truth: Truth): (r: real)
    requires u.Valid()
    requires truth.argon.Some? ==> |truth.argon.value| >= 1
    ensures truth.argon.None? ==> r * u.microsecond == 1.6 * u.millimeter
    ensures truth.argon.Some? ==> r == truth.argon.value[0]
  {
    match truth.argon
    case None => 1.6 * u.millimeter / u.microsecond
    case Some(a) => a[0]
  }

  /** The fraction of drifting charge a channel collects: the configured
      plane efficiency for MC wires 0, 1, 2, and 1.0 for everything else. */
  function CollectionEfficiency(c: Collection, id: ChannelId): (r: Result<real>)
    ensures r.Err? <==> !Known(id)
    ensures r.Ok? && r.value != 1.0 ==>
              id.McChannel? && id.mcType == 0 && 0 <= id.sequence <= 2
    ensures id.McChannel? && id.mcType == 0 && id.sequence == 0 ==> r == Ok(c.x)
    ensures id.McChannel? && id.mcType == 0 && id.sequence == 1 ==> r == Ok(c.v)
    ensures id.McChannel? && id.mcType == 0 && id.sequence == 2 ==> r == Ok(c.u)
  {
    if id.McChannel? then
      if id.mcType == 0 then
        if id.sequence == 0 then Ok(c.x)
        else if id.sequence == 1 then Ok(c.v)
        else if id.sequence == 2 then Ok(c.u)
        else Ok(1.0)
      else if id.mcType == 1 then Ok(1.0)
      else Err(UnknownChannelType)
    else Ok(1.0)
  }

  /** An unknown MC type fails in every accessor, whatever the order asked. */
  lemma UnknownTypeFailsEverywhere(u: Units, truth: Truth, c: Collection, mcType: int, sequence: int, order: int)
    requires mcType != 0 && mcType != 1
    ensures IsBipolarSignal(McChannel(mcType, sequence)) == Err(UnknownChannelType)
    ensures GainConstant(truth, McChannel(mcType, sequence), order) == Err(UnknownChannelType)
    ensures TimeConstant(u, truth, McChannel(mcType, sequence), order) == Err(UnknownChannelType)
    ensures DigitizerConstant(truth, McChannel(mcType, sequence), order) == Err(UnknownChannelType)
    ensures CollectionEfficiency(c, McChannel(mcType, sequence)) == Err(UnknownChannelType)
  {
  }
}
