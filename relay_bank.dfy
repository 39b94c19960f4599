/** The relay bank controller: the line levels of the four relays, the safety
    interlock between the two input sources, the break-before-make source
    changeover, the all-off paths and the status report.

    Every operation first validates, then performs a fixed sequence of line
    writes (with a settle pause between the two halves of a changeover). A
    write the driver fails is not committed and ends the operation; the writes
    before it stay committed. Each operation takes the set of lines whose
    writes the driver fails during that call. */
module RelayBank {
  import opened RelayConfig
  import opened RelayRequests

  /** The level of every relay line. */
  type Levels = m: map<int, Level> | m.Keys == PinSet
    witness map[18 := 1, 19 := 1, 20 := 1, 21 := 1]

  /** What the controller does to the hardware: a line write, or the settle
      pause of a changeover. */
  datatype Event = Write(pin: int, level: Level) | Settle

  function Apply(m: Levels, e: Event): Levels
  {
    if e.Write? && e.pin in m then m[e.pin := e.level] else m
  }

  /** The levels after the events `es`, all committed, in order. */
  function Replay(m: Levels, es: seq<Event>): Levels
    decreases |es|
  {
    if es == [] then m else Apply(Replay(m, es[..|es| - 1]), es[|es| - 1])
  }

  predicate Fails(e: Event, faulty: set<int>)
  {
    e.Write? && e.pin in faulty
  }

  /** The index of the first step whose write the driver fails, or |steps|
      when every write succeeds: the steps before it are the ones performed. */
  function FirstFault(steps: seq<Event>, faulty: set<int>): (k: nat)
    ensures k <= |steps|
    ensures forall j :: 0 <= j < k ==> !Fails(steps[j], faulty)
    ensures k < |steps| ==> Fails(steps[k], faulty)
  {
    if steps == [] || Fails(steps[0], faulty) then 0
    else 1 + FirstFault(steps[1..], faulty)
  }

  /** Performing `steps` took the levels from m0 to m1 and the trace from t0
      to t1: exactly the steps before the first failing write happened. */
  ghost predicate Performed(steps: seq<Event>, faulty: set<int>, m0: Levels, m1: Levels, t0: seq<Event>, t1: seq<Event>)
  {
    var k := FirstFault(steps, faulty);
    m1 == Replay(m0, steps[..k]) && t1 == t0 + steps[..k]
  }

  /** The line whose write failed while performing `steps`, if one did. */
  function FaultOf(steps: seq<Event>, faulty: set<int>): (r: Option<int>)
    ensures r.None? <==> FirstFault(steps, faulty) == |steps|
    ensures r.Some? ==> r.value in faulty && r.value == steps[FirstFault(steps, faulty)].pin
  {
    var k := FirstFault(steps, faulty);
    if k < |steps| then Some(steps[k].pin) else None
  }

  predicate IsOn(m: Levels, pin: int)
    requires pin in PinSet
  {
    StateOf(m[pin]) == On
  }

  /** The safety interlock: AC supply and battery are never both on. */
  predicate Interlocked(m: Levels)
  {
    !(IsOn(m, AcPin) && IsOn(m, BatteryPin))
  }

  function OtherInput(pin: int): int
  {
    if pin == AcPin then BatteryPin else AcPin
  }

  // ----- the write sequences of the operations -----

  /** A source changeover: the losing source off, a settle pause, then the
      winning source on; 'off' turns both off with no pause. */
  function ChangeoverSteps(src: Source): (es: seq<Event>)
    ensures BreakBeforeMake(es)
    ensures forall e :: e in es && e.Write? ==> e.pin == AcPin || e.pin == BatteryPin
    ensures (Settle in es) <==> src != NoSource
    ensures src == Ac ==> es[|es| - 1] == Write(AcPin, 0)
    ensures src == Battery ==> es[|es| - 1] == Write(BatteryPin, 0)
    ensures src == NoSource ==> forall e :: e in es ==> e.Write? && e.level == 1
  {
    match src
    case Ac => [Write(BatteryPin, 1), Settle, Write(AcPin, 0)]
    case Battery => [Write(AcPin, 1), Settle, Write(BatteryPin, 0)]
    case NoSource => [Write(AcPin, 1), Write(BatteryPin, 1)]
  }

  /** Every line of `pins` driven to 1 (relay off), in order. */
  function AllOffSteps(pins: seq<int>): (es: seq<Event>)
    ensures |es| == |pins|
    ensures forall i :: 0 <= i < |es| ==> es[i].Write? && es[i].pin == pins[i]
    ensures forall e :: e in es ==> e.Write? && StateOf(e.level) == Off
  {
    seq(|pins|, i requires 0 <= i < |pins| => Write(pins[i], 1))
  }

  /** Every write that turns an input on comes right after a settle pause,
      which comes right after the other input was turned off. */
  predicate BreakBeforeMake(es: seq<Event>)
  {
    forall j :: 0 <= j < |es| && es[j].Write? && es[j].level == 0 && es[j].pin in {AcPin, BatteryPin} ==>
      2 <= j && es[j - 1] == Settle && es[j - 2] == Write(OtherInput(es[j].pin), 1)
  }

  // ----- the interlock policy -----

  /** The check made before a single relay is commanded: turning an input on
      is refused while the other input is on. */
  function InterlockCheck(relay: Relay, role: Role, state: State, m: Levels): (r: Option<Reason>)
    requires relay in Relays && (role == Input <==> relay.category == Inputs)
    ensures r.Some? <==> role == Input && state == On && IsOn(m, OtherInput(relay.pin))
    ensures r.None? && Interlocked(m) ==> Interlocked(Apply(m, Write(relay.pin, LevelFor(state))))
  {
    if role == Input && state == On then
      if relay.key == "ac_supply" && IsOn(m, BatteryPin) then Some(AcWhileBatteryOn)
      else if relay.key == "battery" && IsOn(m, AcPin) then Some(BatteryWhileAcOn)
      else None
    else None
  }

  // ----- the status report -----

  /** The active input source: AC supply if it is on, else the battery if it
      is on, else none. */
  function ActiveSource(ac: State, battery: State): (r: Source)
    ensures ac == On ==> r == Ac
    ensures r == Battery <==> (ac != On && battery == On)
    ensures r == NoSource <==> (ac != On && battery != On)
  {
    if ac == On then Ac else if battery == On then Battery else NoSource
  }

  /** The active source the status report derives from the input lines. AC
      wins when both are on; under the interlock precedence never decides and
      the report names the input that is on, and none when neither is. */
  function ActiveSourceOf(m: Levels): (r: Source)
    ensures IsOn(m, AcPin) ==> r == Ac
    ensures Interlocked(m) ==>
      && (r == Ac <==> IsOn(m, AcPin))
      && (r == Battery <==> IsOn(m, BatteryPin))
      && (r == NoSource <==> !IsOn(m, AcPin) && !IsOn(m, BatteryPin))
  {
    ActiveSource(StateOf(m[AcPin]), StateOf(m[BatteryPin]))
  }

  /** One relay as the status report shows it. */
  datatype Reading = Reading(key: string, category: Category, id: int, name: string, state: State, pin: int)

  /** `rs` reports every configured relay, in table order, with the state its
      line level stands for. */
  ghost predicate Reports(rs: seq<Reading>, m: Levels)
  {
    |rs| == |Relays| &&
    forall i :: 0 <= i < |rs| ==>
      var relay := Relays[i];
      && rs[i] == Reading(relay.key, relay.category, relay.id, relay.name, rs[i].state, relay.pin)
      && relay.pin in m
      && rs[i].state == StateOf(m[relay.pin])
  }

  // ----- properties of the write sequences -----

  /** Replaying a sequence extended by one event applies that event last. */
  lemma ReplaySnoc(m: Levels, es: seq<Event>, e: Event)
    ensures Replay(m, es + [e]) == Apply(Replay(m, es), e)
  {
  }

  lemma ReplayNext(m: Levels, steps: seq<Event>, k: nat)
    requires k < |steps|
    ensures Replay(m, steps[..k + 1]) == Apply(Replay(m, steps[..k]), steps[k])
  {
    assert steps[..k + 1] == steps[..k] + [steps[k]];
    ReplaySnoc(m, steps[..k], steps[k]);
  }

  /** During a changeover the two inputs are never on together: every state
      the lines pass through, including the one a failed write leaves behind,
      keeps the interlock. */
  lemma {:induction false} ChangeoverKeepsInterlock(m: Levels, src: Source, k: nat)
    requires Interlocked(m) && k <= |ChangeoverSteps(src)|
    ensures Interlocked(Replay(m, ChangeoverSteps(src)[..k]))
  {
    var steps := ChangeoverSteps(src);
    assert steps[..0] == [];
    if k >= 1 {
      ReplayNext(m, steps, 0);
    }
    if k >= 2 {
      ReplayNext(m, steps, 1);
    }
    if k >= 3 {
      ReplayNext(m, steps, 2);
    }
  }

  /** How far a changeover gets: not at all when its first write fails, up to
      its last write when that one fails, and to the end otherwise. */
  lemma ChangeoverPerformed(m: Levels, src: Source, faulty: set<int>)
    ensures
      var steps := ChangeoverSteps(src);
      var n := |steps|;
      var k := FirstFault(steps, faulty);
      && (steps[0].pin in faulty ==> k == 0)
      && (steps[0].pin !in faulty && steps[n - 1].pin in faulty ==>
            k == n - 1 && Replay(m, steps[..k]) == Apply(m, steps[0]))
      && (steps[0].pin !in faulty && steps[n - 1].pin !in faulty ==>
            k == n && Replay(m, steps) == Apply(Apply(m, steps[0]), steps[n - 1]))
  {
    var steps := ChangeoverSteps(src);
    assert steps[..0] == [];
    ReplayNext(m, steps, 0);
    ReplayNext(m, steps, 1);
    if src != NoSource {
      ReplayNext(m, steps, 2);
    }
    assert steps[..|steps|] == steps;
  }

  /** A completed changeover to `src` leaves exactly `src` on (none for
      'off'), the other input off and both outputs as they were. */
  lemma ChangeoverResult(m: Levels, src: Source)
    ensures var m' := Replay(m, ChangeoverSteps(src));
      && (IsOn(m', AcPin) <==> src == Ac)
      && (IsOn(m', BatteryPin) <==> src == Battery)
      && m'[20] == m[20] && m'[21] == m[21]
  {
    var steps := ChangeoverSteps(src);
    ReplaySnoc(m, [], steps[0]);
    assert [steps[0]] == steps[..1];
    ReplaySnoc(m, steps[..1], steps[1]);
    assert steps[..1] + [steps[1]] == steps[..2];
    if |steps| == 3 {
      ReplaySnoc(m, steps[..2], steps[2]);
      assert steps[..2] + [steps[2]] == steps;
    } else {
      assert steps[..2] == steps;
    }
  }

  /** After a completed changeover the status report names the selected source. */
  lemma StatusAfterChangeover(m: Levels, src: Source)
    ensures ActiveSourceOf(Replay(m, ChangeoverSteps(src))) == src
  {
    ChangeoverResult(m, src);
  }

  /** Driving the first k lines of `pins` off sets exactly those lines to 1. */
  lemma {:induction false} AllOffPrefix(m: Levels, pins: seq<int>, k: nat)
    requires k <= |pins|
    ensures forall p :: p in PinSet ==>
      Replay(m, AllOffSteps(pins)[..k])[p] == if p in pins[..k] then 1 else m[p]
  {
    var steps := AllOffSteps(pins);
    if k == 0 {
      assert steps[..0] == [];
    } else {
      AllOffPrefix(m, pins, k - 1);
      assert steps[..k] == steps[..k - 1] + [Write(pins[k - 1], 1)];
      ReplaySnoc(m, steps[..k - 1], Write(pins[k - 1], 1));
      assert pins[..k] == pins[..k - 1] + [pins[k - 1]];
    }
  }

  /** Any prefix of an all-off sequence only turns relays off, so it keeps
      the interlock; the whole of it over AllPins turns every relay off. */
  lemma AllOffResult(m: Levels, k: nat)
    requires k <= |AllPins|
    ensures Interlocked(m) ==> Interlocked(Replay(m, AllOffSteps(AllPins)[..k]))
    ensures k == |AllPins| ==> forall p :: p in PinSet ==> Replay(m, AllOffSteps(AllPins)[..k])[p] == 1
  {
    AllOffPrefix(m, AllPins, k);
    assert AllPins[..|AllPins|] == AllPins;
  }

  // ----- the controller -----

  datatype HwError = ChipOpenFailed | LineWriteFailed(pin: int)

  /** The answer to a request: its result, a refusal, "not initialised", or a
      driver failure. */
  datatype Outcome<T> = Done(value: T) | Rejected(reason: Reason) | Uninitialized | HwFailed(error: HwError)

  /** The answer once the writes are done: the failed line if one failed,
      otherwise `value`. */
  function Finish<T>(fault: Option<int>, value: T): Outcome<T>
  {
    match fault
    case None => Done(value)
    case Some(p) => HwFailed(LineWriteFailed(p))
  }

  datatype RelayReply = RelayReply(id: int, name: string, role: Role, state: State)
  datatype InputReply = InputReply(active: Source, ac: State, battery: State)
  datatype OutputReply = OutputReply(number: int, name: string, state: State)
  datatype Status = Status(active: Source, relays: seq<Reading>)

  /** The relay with output number n: 'output_1' or 'output_2'. */
  function OutputRelay(n: int): (r: Relay)
    requires 1 <= n <= 2
    ensures r in Relays && r.category == Outputs && r.id == n + 2
  {
    if n == 1 then Relays[2] else Relays[3]
  }

  class RelayController {
    /** The level of every relay line. */
    var levels: Levels
    /** Whether the GPIO chip is open. */
    var initialized: bool
    /** Every committed write and settle pause, in order. */
    ghost var trace: seq<Event>

    /** The controller before start-up: chip closed, lines at whatever level
        they happen to have. */
    constructor (power: Levels)
      ensures levels == power && !initialized && trace == []
    {
      levels := power;
      initialized := false;
      trace := [];
    }

    /** One line write through the driver; a write to a faulty line fails and
        changes nothing. */
    method WriteLine(pin: int, level: Level, faulty: set<int>) returns (ok: bool)
      modifies this
      ensures ok == (pin !in faulty) && initialized == old(initialized)
      ensures levels == if ok then Apply(old(levels), Write(pin, level)) else old(levels)
      ensures trace == if ok then old(trace) + [Write(pin, level)] else old(trace)
      ensures Performed([Write(pin, level)], faulty, old(levels), levels, old(trace), trace)
      ensures ok <==> FaultOf([Write(pin, level)], faulty).None?
    {
      ghost var steps := [Write(pin, level)];
      ok := pin !in faulty;
      if ok {
        levels := Apply(levels, Write(pin, level));
        trace := trace + [Write(pin, level)];
        assert FirstFault(steps, faulty) == 1 && steps[..1] == steps;
        ReplaySnoc(old(levels), [], steps[0]);
      } else {
        assert FirstFault(steps, faulty) == 0;
      }
    }

    /** Drive every relay line to 1 in AllPins order, stopping at the first
        write that fails; reports that line. */
    method DriveAllOff(faulty: set<int>) returns (failed: Option<int>)
      modifies this
      ensures initialized == old(initialized)
      ensures Performed(AllOffSteps(AllPins), faulty, old(levels), levels, old(trace), trace)
      ensures failed == FaultOf(AllOffSteps(AllPins), faulty)
    {
      ghost var steps := AllOffSteps(AllPins);
      var i := 0;
      while i < |AllPins|
        invariant 0 <= i <= |AllPins|
        invariant forall j :: 0 <= j < i ==> !Fails(steps[j], faulty)
        invariant levels == Replay(old(levels), steps[..i])
        invariant trace == old(trace) + steps[..i]
        invariant initialized == old(initialized)
      {
        var ok := WriteLine(AllPins[i], 1, faulty);
        if !ok {
          assert Fails(steps[i], faulty);
          assert FirstFault(steps, faulty) == i;
          return Some(AllPins[i]);
        }
        ReplaySnoc(old(levels), steps[..i], steps[i]);
        assert steps[..i + 1] == steps[..i] + [steps[i]];
        i := i + 1;
      }
      assert FirstFault(steps, faulty) == |steps|;
      assert steps[..i] == steps;
      return None;
    }

    /** Start-up: open the chip, then claim every relay line as an output at
        level 1. The chip stays open even when a claim fails part-way. */
    method InitGpio(openFails: bool, faulty: set<int>) returns (r: Outcome<()>)
      modifies this
      ensures openFails ==>
        r == HwFailed(ChipOpenFailed) && initialized == old(initialized) && levels == old(levels) && trace == old(trace)
      ensures !openFails ==>
        && initialized
        && Performed(AllOffSteps(AllPins), faulty, old(levels), levels, old(trace), trace)
        && r == Finish(FaultOf(AllOffSteps(AllPins), faulty), ())
      ensures r.Done? ==> forall p :: p in PinSet ==> levels[p] == 1
      ensures Interlocked(old(levels)) ==> Interlocked(levels)
    {
      if openFails {
        return HwFailed(ChipOpenFailed);
      }
      initialized := true;
      var failed := DriveAllOff(faulty);
      AllOffResult(old(levels), FirstFault(AllOffSteps(AllPins), faulty));
      if failed.Some? {
        return HwFailed(LineWriteFailed(failed.value));
      }
      return Done(());
    }

    /** Shutdown: with the chip open, drive every relay off and close the chip;
        with the chip closed, nothing happens. A failing write leaves the chip
        open. */
    method CleanupGpio(faulty: set<int>) returns (r: Outcome<()>)
      modifies this
      ensures !old(initialized) ==> r == Done(()) && !initialized && levels == old(levels) && trace == old(trace)
      ensures old(initialized) ==>
        && Performed(AllOffSteps(AllPins), faulty, old(levels), levels, old(trace), trace)
        && r == Finish(FaultOf(AllOffSteps(AllPins), faulty), ())
        && (initialized <==> r.HwFailed?)
      ensures Interlocked(old(levels)) ==> Interlocked(levels)
      ensures old(initialized) && r.Done? ==> forall p :: p in PinSet ==> levels[p] == 1
    {
      if !initialized {
        return Done(());
      }
      var failed := DriveAllOff(faulty);
      AllOffResult(old(levels), FirstFault(AllOffSteps(AllPins), faulty));
      if failed.Some? {
        return HwFailed(LineWriteFailed(failed.value));
      }
      initialized := false;
      return Done(());
    }

    /** Emergency shutdown: every relay off, bypassing the interlock. A
        failing write ends the shutdown; the relays before it stay off. */
    method EmergencyOff(faulty: set<int>) returns (r: Outcome<()>)
      modifies this
      ensures initialized == old(initialized)
      ensures !old(initialized) ==> r == Uninitialized && levels == old(levels) && trace == old(trace)
      ensures old(initialized) ==>
        && Performed(AllOffSteps(AllPins), faulty, old(levels), levels, old(trace), trace)
        && r == Finish(FaultOf(AllOffSteps(AllPins), faulty), ())
      ensures Interlocked(old(levels)) ==> Interlocked(levels)
      ensures r.Done? ==> forall p :: p in PinSet ==> levels[p] == 1
    {
      if !initialized {
        return Uninitialized;
      }
      var failed := DriveAllOff(faulty);
      AllOffResult(old(levels), FirstFault(AllOffSteps(AllPins), faulty));
      if failed.Some? {
        return HwFailed(LineWriteFailed(failed.value));
      }
      return Done(());
    }

    /** Read every relay's line and report its state, in table order. */
    method GetRelayStates() returns (rs: seq<Reading>)
      ensures Reports(rs, levels)
    {
      rs := [];
      var i := 0;
      while i < |Relays|
        invariant 0 <= i <= |Relays|
        invariant |rs| == i
        invariant forall j :: 0 <= j < i ==>
          var relay := Relays[j];
          && relay.pin in levels
          && rs[j] == Reading(relay.key, relay.category, relay.id, relay.name, StateOf(levels[relay.pin]), relay.pin)
      {
        var relay := Relays[i];
        rs := rs + [Reading(relay.key, relay.category, relay.id, relay.name, StateOf(levels[relay.pin]), relay.pin)];
        i := i + 1;
      }
    }

    /** The status report: every relay's state and the active input source. */
    method GetStatus() returns (r: Outcome<Status>)
      ensures !initialized ==> r == Uninitialized
      ensures initialized ==> r.Done? && Reports(r.value.relays, levels) && r.value.active == ActiveSourceOf(levels)
    {
      if !initialized {
        return Uninitialized;
      }
      var rs := GetRelayStates();
      var active := ActiveSource(rs[0].state, rs[1].state);
      return Done(Status(active, rs));
    }

    /** Command one relay. Turning an input on while the other input is on is
        refused with nothing written; otherwise only that relay's line is written. */
    method ControlRelay(body: Option<Body>, faulty: set<int>) returns (r: Outcome<RelayReply>)
      modifies this
      ensures initialized == old(initialized)
      ensures !old(initialized) ==> r == Uninitialized
      ensures old(initialized) && CheckRelayRequest(body).Invalid? ==> r == Rejected(CheckRelayRequest(body).reason)
      ensures r.Uninitialized? || r.Rejected? ==> levels == old(levels) && trace == old(trace)
      ensures old(initialized) && CheckRelayRequest(body).Valid? ==>
        var req := CheckRelayRequest(body).value;
        var relay := RelayInfoById(req.id).value.0;
        var role := RelayInfoById(req.id).value.1;
        var steps := [Write(relay.pin, LevelFor(req.state))];
        match InterlockCheck(relay, role, req.state, old(levels))
        case Some(reason) => r == Rejected(reason)
        case None =>
          && Performed(steps, faulty, old(levels), levels, old(trace), trace)
          && r == Finish(FaultOf(steps, faulty), RelayReply(req.id, relay.name, role, req.state))
      ensures Interlocked(old(levels)) ==> Interlocked(levels)
      ensures r.Done? ==>
        && RelayInfoById(r.value.id).Some?
        && var pin := RelayInfoById(r.value.id).value.0.pin;
        && StateOf(levels[pin]) == r.value.state
        && forall p :: p in PinSet && p != pin ==> levels[p] == old(levels)[p]
    {
      if !initialized {
        return Uninitialized;
      }
      var checked := CheckRelayRequest(body);
      if checked.Invalid? {
        return Rejected(checked.reason);
      }
      var id, state := checked.value.id, checked.value.state;
      var info := RelayInfoById(id).value;
      var relay, role := info.0, info.1;
      assert relay.pin in PinSet;
      if role == Input && state == On {
        var current := GetRelayStates();
        assert current[0].state == StateOf(levels[AcPin]) && current[1].state == StateOf(levels[BatteryPin]);
        if relay.key == "ac_supply" && current[1].state == On {
          return Rejected(AcWhileBatteryOn);
        } else if relay.key == "battery" && current[0].state == On {
          return Rejected(BatteryWhileAcOn);
        }
      }
      assert InterlockCheck(relay, role, state, old(levels)).None?;
      var ok := WriteLine(relay.pin, LevelFor(state), faulty);
      if !ok {
        return HwFailed(LineWriteFailed(relay.pin));
      }
      return Done(RelayReply(id, relay.name, role, state));
    }

    /** Move the supply from input line `off` to input line `on`, break
        before make: `off` driven to 1, a settle pause, then `on` driven to 0,
        stopping at the first write that fails; reports that line. */
    method Handover(off: int, on: int, faulty: set<int>) returns (failed: Option<int>)
      modifies this
      ensures initialized == old(initialized)
      ensures Performed([Write(off, 1), Settle, Write(on, 0)], faulty, old(levels), levels, old(trace), trace)
      ensures failed == FaultOf([Write(off, 1), Settle, Write(on, 0)], faulty)
    {
      ghost var steps := [Write(off, 1), Settle, Write(on, 0)];
      assert steps[..0] == [] && steps[..3] == steps;
      var ok := WriteLine(off, 1, faulty);
      if !ok {
        assert FirstFault(steps, faulty) == 0;
        return Some(off);
      }
      trace := trace + [Settle];
      ReplayNext(old(levels), steps, 0);
      ReplayNext(old(levels), steps, 1);
      assert old(trace) + steps[..2] == old(trace) + [steps[0]] + [Settle];
      ok := WriteLine(on, 0, faulty);
      if !ok {
        assert !Fails(steps[0], faulty) && !Fails(steps[1], faulty) && Fails(steps[2], faulty);
        assert FirstFault(steps, faulty) == 2;
        return Some(on);
      }
      ReplayNext(old(levels), steps, 2);
      assert FirstFault(steps, faulty) == 3;
      return None;
    }

    /** Turn both inputs off, AC supply first, stopping at the first write
        that fails; reports that line. */
    method ReleaseInputs(faulty: set<int>) returns (failed: Option<int>)
      modifies this
      ensures initialized == old(initialized)
      ensures Performed([Write(AcPin, 1), Write(BatteryPin, 1)], faulty, old(levels), levels, old(trace), trace)
      ensures failed == FaultOf([Write(AcPin, 1), Write(BatteryPin, 1)], faulty)
    {
      ghost var steps := [Write(AcPin, 1), Write(BatteryPin, 1)];
      assert steps[..0] == [] && steps[..2] == steps;
      var ok := WriteLine(AcPin, 1, faulty);
      if !ok {
        assert FirstFault(steps, faulty) == 0;
        return Some(AcPin);
      }
      ReplayNext(old(levels), steps, 0);
      assert old(trace) + steps[..1] == old(trace) + [steps[0]];
      ok := WriteLine(BatteryPin, 1, faulty);
      if !ok {
        assert FirstFault(steps, faulty) == 1;
        return Some(BatteryPin);
      }
      ReplayNext(old(levels), steps, 1);
      assert FirstFault(steps, faulty) == 2;
      return None;
    }

    /** The locked part of a source selection: the writes of ChangeoverSteps(src)
        in order, stopping at the first that fails; reports that line. */
    method Changeover(src: Source, faulty: set<int>) returns (failed: Option<int>)
      modifies this
      ensures initialized == old(initialized)
      ensures Performed(ChangeoverSteps(src), faulty, old(levels), levels, old(trace), trace)
      ensures failed == FaultOf(ChangeoverSteps(src), faulty)
      ensures Interlocked(old(levels)) ==> Interlocked(levels)
    {
      if src == Ac {
        failed := Handover(BatteryPin, AcPin, faulty);
      } else if src == Battery {
        failed := Handover(AcPin, BatteryPin, faulty);
      } else {
        failed := ReleaseInputs(faulty);
      }
      if Interlocked(old(levels)) {
        ChangeoverKeepsInterlock(old(levels), src, FirstFault(ChangeoverSteps(src), faulty));
      }
    }

    /** Select the input source break-before-make: the losing source off, a
        settle pause, the winning source on; 'off' turns both off. */
    method ControlInput(body: Option<Body>, faulty: set<int>) returns (r: Outcome<InputReply>)
      modifies this
      ensures initialized == old(initialized)
      ensures !old(initialized) ==> r == Uninitialized
      ensures old(initialized) && CheckInputRequest(body).Invalid? ==> r == Rejected(CheckInputRequest(body).reason)
      ensures r.Uninitialized? || r.Rejected? ==> levels == old(levels) && trace == old(trace)
      ensures old(initialized) && CheckInputRequest(body).Valid? ==>
        var src := CheckInputRequest(body).value;
        var steps := ChangeoverSteps(src);
        && Performed(steps, faulty, old(levels), levels, old(trace), trace)
        && r == Finish(FaultOf(steps, faulty), InputReply(src, if src == Ac then On else Off, if src == Battery then On else Off))
      ensures Interlocked(old(levels)) ==> Interlocked(levels)
    {
      if !initialized {
        return Uninitialized;
      }
      var checked := CheckInputRequest(body);
      if checked.Invalid? {
        return Rejected(checked.reason);
      }
      var src := checked.value;
      var failed := Changeover(src, faulty);
      if failed.Some? {
        return HwFailed(LineWriteFailed(failed.value));
      }
      return Done(InputReply(src, if src == Ac then On else Off, if src == Battery then On else Off));
    }

    /** Command one output relay; outputs are not subject to the interlock. */
    method ControlOutput(body: Option<Body>, faulty: set<int>) returns (r: Outcome<OutputReply>)
      modifies this
      ensures initialized == old(initialized)
      ensures !old(initialized) ==> r == Uninitialized
      ensures old(initialized) && CheckOutputRequest(body).Invalid? ==> r == Rejected(CheckOutputRequest(body).reason)
      ensures r.Uninitialized? || r.Rejected? ==> levels == old(levels) && trace == old(trace)
      ensures old(initialized) && CheckOutputRequest(body).Valid? ==>
        var req := CheckOutputRequest(body).value;
        var relay := OutputRelay(req.number);
        var steps := [Write(relay.pin, LevelFor(req.state))];
        && Performed(steps, faulty, old(levels), levels, old(trace), trace)
        && r == Finish(FaultOf(steps, faulty), OutputReply(req.number, relay.name, req.state))
      ensures IsOn(levels, AcPin) == IsOn(old(levels), AcPin) && IsOn(levels, BatteryPin) == IsOn(old(levels), BatteryPin)
      ensures r.Done? ==>
        && 1 <= r.value.number <= 2
        && var pin := OutputRelay(r.value.number).pin;
        && StateOf(levels[pin]) == r.value.state
        && forall p :: p in PinSet && p != pin ==> levels[p] == old(levels)[p]
    {
      if !initialized {
        return Uninitialized;
      }
      var checked := CheckOutputRequest(body);
      if checked.Invalid? {
        return Rejected(checked.reason);
      }
      var n, state := checked.value.number, checked.value.state;
      var relay := OutputRelay(n);
      var ok := WriteLine(relay.pin, LevelFor(state), faulty);
      if !ok {
        return HwFailed(LineWriteFailed(relay.pin));
      }
      return Done(OutputReply(n, relay.name, state));
    }
  }
}

/** Clients: a few requests in sequence, one at a time, with a driver that
    never fails. */
module RelayBankScenario {
  import opened RelayConfig
  import opened RelayRequests
  import opened RelayBank

  /** Selecting the AC supply turns it on and the battery off. */
  method SelectAc(bank: RelayController)
    requires bank.initialized
    modifies bank
  {
    var m0 := bank.levels;
    var body: Body := map["source" := JStr("ac")];
    assert Get(body, "source") == Some(JStr("ac"));
    assert CheckInputRequest(Some(body)) == Valid(Ac);
    var a := bank.ControlInput(Some(body), {});
    assert FirstFault(ChangeoverSteps(Ac), {}) == 3;
    assert ChangeoverSteps(Ac)[..3] == ChangeoverSteps(Ac);
    ChangeoverResult(m0, Ac);
    assert a == Done(InputReply(Ac, On, Off));
    assert IsOn(bank.levels, AcPin) && !IsOn(bank.levels, BatteryPin);
  }

  /** With the battery on, a request to turn the AC supply on is refused. */
  method RefuseAcWhileBattery(bank: RelayController)
    requires bank.initialized && IsOn(bank.levels, BatteryPin)
    modifies bank
  {
    var body: Body := map["relay_id" := JInt(1), "state" := JStr("on")];
    assert Get(body, "relay_id") == Some(JInt(1)) && Get(body, "state") == Some(JStr("on"));
    assert CheckRelayRequest(Some(body)) == Valid(RelayRequest(1, On));
    assert FindById(Relays, 1) == Some(Relays[0]);
    assert RelayInfoById(1) == Some((Relays[0], Input));
    var refused := bank.ControlRelay(Some(body), {});
    assert refused == Rejected(AcWhileBatteryOn);
  }

  /** Emergency-off with a healthy driver turns everything off. */
  method AllOff(bank: RelayController)
    requires bank.initialized
    modifies bank
  {
    var e := bank.EmergencyOff({});
    assert FirstFault(AllOffSteps(AllPins), {}) == 4;
    assert e == Done(());
    assert !IsOn(bank.levels, AcPin) && !IsOn(bank.levels, BatteryPin);
  }
}
