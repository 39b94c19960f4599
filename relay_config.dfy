/** The relay bank's static configuration: four relays, two of them input
    sources (AC supply, battery) and two outputs, each on its own GPIO line,
    and the active-low convention that relates a relay's state to its line. */
module RelayConfig {

  datatype Option<T> = None | Some(value: T)

  /** The two categories of the configuration table. */
  datatype Category = Inputs | Outputs

  /** The relay type the controller reports: 'input' or 'output'. */
  datatype Role = Input | Output

  /** A relay's logical state: 'on' or 'off'. */
  datatype State = On | Off

  /** A GPIO line level as the driver reads and writes it. */
  type Level = l: int | l == 0 || l == 1

  /** One configuration entry: its key in the table, its category, its line,
      its numeric id and its display name. */
  datatype Relay = Relay(key: string, category: Category, pin: int, id: int, name: string)

  const AcPin: int := 18
  const BatteryPin: int := 19

  /** The configuration table, in the order its categories and entries are iterated. */
  const Relays: seq<Relay> := [
    Relay("ac_supply", Inputs, 18, 1, "AC Supply Input"),
    Relay("battery", Inputs, 19, 2, "Battery Input"),
    Relay("output_1", Outputs, 20, 3, "Output 1"),
    Relay("output_2", Outputs, 21, 4, "Output 2")
  ]

  /** Every relay line, in the order start-up, shutdown and emergency-off drive them. */
  const AllPins: seq<int> := [18, 19, 20, 21]

  /** The relay lines as a set. */
  const PinSet: set<int> := {18, 19, 20, 21}

  /** The configuration is consistent: ids and lines are unique, the id of the
      i-th relay is i + 1, the input sources sit on AcPin and BatteryPin, and
      AllPins lists exactly the configured lines in table order. */
  lemma ConfigWellFormed()
    ensures forall i, j :: 0 <= i < j < |Relays| ==> Relays[i].pin != Relays[j].pin && Relays[i].id != Relays[j].id
    ensures forall i :: 0 <= i < |Relays| ==> Relays[i].id == i + 1
    ensures Relays[0].key == "ac_supply" && Relays[0].pin == AcPin
    ensures Relays[1].key == "battery" && Relays[1].pin == BatteryPin
    ensures |AllPins| == |Relays| && forall i :: 0 <= i < |Relays| ==> AllPins[i] == Relays[i].pin
    ensures forall p :: p in PinSet <==> p in AllPins
  {
  }

  /** Active low: a line at level 0 means the relay is energised. */
  function StateOf(level: Level): (s: State)
    ensures level == if s == On then 0 else 1
  {
    if level == 0 then On else Off
  }

  /** The line level that commands `state`; reading it back gives `state`. */
  function LevelFor(state: State): (l: Level)
    ensures StateOf(l) == state
  {
    match state
    case On => 0
    case Off => 1
  }

  /** The two directions of the active-low mapping are inverse to each other. */
  lemma ActiveLowRoundTrip(l: Level, s: State)
    ensures StateOf(l) == On <==> l == 0
    ensures LevelFor(StateOf(l)) == l
    ensures StateOf(LevelFor(s)) == s
  {
  }

  /** The first entry of `rs` whose id is `id`, if any. */
  function FindById(rs: seq<Relay>, id: int): (r: Option<Relay>)
    ensures r.Some? ==> r.value in rs && r.value.id == id
    ensures r.None? ==> forall i :: 0 <= i < |rs| ==> rs[i].id != id
  {
    if rs == [] then None
    else if rs[0].id == id then Some(rs[0])
    else FindById(rs[1..], id)
  }

  /** The configured relay with id `id` and its type; an id outside 1..4 is
      unknown. The type is derived from the id (ids 1 and 2 are inputs) and
      agrees with the relay's category. */
  function RelayInfoById(id: int): (r: Option<(Relay, Role)>)
    ensures r.Some? <==> 1 <= id <= 4
    ensures r.Some? ==> r.value.0 in Relays && r.value.0.id == id
    ensures r.Some? ==> (r.value.1 == Input <==> id <= 2)
    ensures r.Some? ==> (r.value.1 == Input <==> r.value.0.category == Inputs)
  {
    match FindById(Relays, id)
    case None => None
    case Some(relay) => Some((relay, if id <= 2 then Input else Output))
  }
}
