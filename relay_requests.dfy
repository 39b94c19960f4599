/** Validation of the request bodies the controller accepts. A body is a JSON
    object; each operation reads a few fields and rejects a missing or
    malformed one before it touches the hardware. */
module RelayRequests {
  import opened RelayConfig

  /** A JSON field value, as far as validation can tell them apart. */
  datatype Json = JInt(n: int) | JStr(s: string) | JOther

  type Body = map<string, Json>

  /** An input-source selection: 'ac', 'battery' or 'off'. */
  datatype Source = Ac | Battery | NoSource

  /** Why a request was refused (the controller's HTTP 400 answers). */
  datatype Reason =
    | NoJsonData
    | InvalidRelayId
    | InvalidState
    | InvalidSource
    | InvalidOutput
    | AcWhileBatteryOn
    | BatteryWhileAcOn

  datatype Checked<T> = Valid(value: T) | Invalid(reason: Reason)

  datatype RelayRequest = RelayRequest(id: int, state: State)
  datatype OutputRequest = OutputRequest(number: int, state: State)

  /** The value of field `key`, if present. */
  function Get(body: Body, key: string): Option<Json>
  {
    if key in body then Some(body[key]) else None
  }

  /** A body that counts as falsy: none at all, or an empty object. */
  predicate NoData(body: Option<Body>)
  {
    body.None? || body.value == map[]
  }

  function StateName(s: State): string
  {
    match s
    case On => "on"
    case Off => "off"
  }

  function SourceName(s: Source): string
  {
    match s
    case Ac => "ac"
    case Battery => "battery"
    case NoSource => "off"
  }

  /** A 'state' field: exactly the strings "on" and "off" are accepted. */
  function ParseState(v: Option<Json>): (r: Option<State>)
    ensures r.Some? ==> v == Some(JStr(StateName(r.value)))
    ensures r.None? ==> v != Some(JStr(StateName(On))) && v != Some(JStr(StateName(Off)))
  {
    if v == Some(JStr("on")) then Some(On)
    else if v == Some(JStr("off")) then Some(Off)
    else None
  }

  /** A 'source' field: exactly "ac", "battery" and "off" are accepted. */
  function ParseSource(v: Option<Json>): (r: Option<Source>)
    ensures r.Some? ==> v == Some(JStr(SourceName(r.value)))
    ensures r.None? ==> forall s: Source :: v != Some(JStr(SourceName(s)))
  {
    if v == Some(JStr("ac")) then Some(Ac)
    else if v == Some(JStr("battery")) then Some(Battery)
    else if v == Some(JStr("off")) then Some(NoSource)
    else None
  }

  /** A field holding an integer within lo..hi. */
  predicate IntIn(v: Option<Json>, lo: int, hi: int)
  {
    v.Some? && v.value.JInt? && lo <= v.value.n <= hi
  }

  /** The body of a single-relay request: a relay id in 1..4 and a state. */
  function CheckRelayRequest(body: Option<Body>): (r: Checked<RelayRequest>)
    ensures r == Invalid(NoJsonData) <==> NoData(body)
    ensures r.Valid? <==>
      !NoData(body) && IntIn(Get(body.value, "relay_id"), 1, 4) && ParseState(Get(body.value, "state")).Some?
    ensures r == Invalid(InvalidRelayId) <==> !NoData(body) && !IntIn(Get(body.value, "relay_id"), 1, 4)
    ensures r == Invalid(InvalidState) <==>
      !NoData(body) && IntIn(Get(body.value, "relay_id"), 1, 4) && ParseState(Get(body.value, "state")).None?
    ensures r.Valid? ==>
      && !NoData(body)
      && 1 <= r.value.id <= 4
      && Get(body.value, "relay_id") == Some(JInt(r.value.id))
      && Get(body.value, "state") == Some(JStr(StateName(r.value.state)))
  {
    if NoData(body) then Invalid(NoJsonData)
    else
      var id := Get(body.value, "relay_id");
      var state := ParseState(Get(body.value, "state"));
      if !IntIn(id, 1, 4) then Invalid(InvalidRelayId)
      else if state.None? then Invalid(InvalidState)
      else Valid(RelayRequest(id.value.n, state.value))
  }

  /** The body of a source selection: a source among ac, battery and off. */
  function CheckInputRequest(body: Option<Body>): (r: Checked<Source>)
    ensures r == Invalid(NoJsonData) <==> NoData(body)
    ensures r.Valid? <==> !NoData(body) && ParseSource(Get(body.value, "source")).Some?
    ensures r == Invalid(InvalidSource) <==> !NoData(body) && ParseSource(Get(body.value, "source")).None?
    ensures r.Valid? ==> !NoData(body) && Get(body.value, "source") == Some(JStr(SourceName(r.value)))
  {
    if NoData(body) then Invalid(NoJsonData)
    else
      match ParseSource(Get(body.value, "source"))
      case None => Invalid(InvalidSource)
      case Some(s) => Valid(s)
  }

  /** The body of an output request: an output number 1 or 2 and a state. */
  function CheckOutputRequest(body: Option<Body>): (r: Checked<OutputRequest>)
    ensures r == Invalid(NoJsonData) <==> NoData(body)
    ensures r.Valid? <==>
      !NoData(body) && IntIn(Get(body.value, "output"), 1, 2) && ParseState(Get(body.value, "state")).Some?
    ensures r == Invalid(InvalidOutput) <==> !NoData(body) && !IntIn(Get(body.value, "output"), 1, 2)
    ensures r == Invalid(InvalidState) <==>
      !NoData(body) && IntIn(Get(body.value, "output"), 1, 2) && ParseState(Get(body.value, "state")).None?
    ensures r.Valid? ==>
      && !NoData(body)
      && 1 <= r.value.number <= 2
      && Get(body.value, "output") == Some(JInt(r.value.number))
      && Get(body.value, "state") == Some(JStr(StateName(r.value.state)))
  {
    if NoData(body) then Invalid(NoJsonData)
    else
      var output := Get(body.value, "output");
      var state := ParseState(Get(body.value, "state"));
      if !IntIn(output, 1, 2) then Invalid(InvalidOutput)
      else if state.None? then Invalid(InvalidState)
      else Valid(OutputRequest(output.value.n, state.value))
  }
}
