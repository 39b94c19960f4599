/** The three-source power switch: one active-high relay line per source
    (solar, battery, grid). Selecting a source drives its line high and every
    other line low. */
module PowerSwitch {

  datatype Level = Low | High

  /** One output call on a relay line. */
  datatype Write = Write(pin: int, level: Level)

  /** The relay table, in its iteration order: solar, battery, grid. */
  const Sources: seq<string> := ["solar", "battery", "grid"]
  const Pins: seq<int> := [17, 27, 22]

  /** The levels after the writes `ws`, in order. */
  function Apply(m: map<int, Level>, ws: seq<Write>): map<int, Level>
    decreases |ws|
  {
    if ws == [] then m else Apply(m, ws[..|ws| - 1])[ws[|ws| - 1].pin := ws[|ws| - 1].level]
  }

  /** Start-up: every relay line driven low, in table order. */
  function StartupWrites(): (ws: seq<Write>)
    ensures |ws| == |Pins| && forall i :: 0 <= i < |ws| ==> ws[i].pin == Pins[i]
    ensures forall w :: w in ws ==> w.level == Low
  {
    seq(|Pins|, i requires 0 <= i < |Pins| => Write(Pins[i], Low))
  }

  /** The writes that select `source`: every line once, in table order, high
      for the selected source and low for the others. */
  function SelectionWrites(source: string): (ws: seq<Write>)
    ensures |ws| == |Pins| && forall i :: 0 <= i < |ws| ==> ws[i].pin == Pins[i]
    ensures forall i :: 0 <= i < |ws| ==> (ws[i].level == High <==> Sources[i] == source)
  {
    seq(|Pins|, i requires 0 <= i < |Pins| => Write(Pins[i], if Sources[i] == source then High else Low))
  }

  /** Exactly the line of `source` is high (none, for a name not in the table). */
  ghost predicate Selected(m: map<int, Level>, source: string)
  {
    forall i :: 0 <= i < |Pins| ==> Pins[i] in m && (m[Pins[i]] == High <==> Sources[i] == source)
  }

  lemma ApplySnoc(m: map<int, Level>, ws: seq<Write>, w: Write)
    ensures Apply(m, ws + [w]) == Apply(m, ws)[w.pin := w.level]
  {
  }

  /** Three writes, one per relay line, amount to three map updates. */
  lemma ApplyThree(m: map<int, Level>, ws: seq<Write>)
    requires |ws| == 3
    ensures Apply(m, ws) == m[ws[0].pin := ws[0].level][ws[1].pin := ws[1].level][ws[2].pin := ws[2].level]
  {
    assert ws[..0] == [];
    assert ws[..1] == ws[..0] + [ws[0]];
    assert ws[..2] == ws[..1] + [ws[1]];
    assert ws == ws[..2] + [ws[2]];
    ApplySnoc(m, ws[..0], ws[0]);
    ApplySnoc(m, ws[..1], ws[1]);
    ApplySnoc(m, ws[..2], ws[2]);
  }

  /** Whatever the lines were before, selecting a source leaves exactly its
      line high and the other two low. */
  lemma {:induction false} SelectionIsOneHot(m: map<int, Level>, source: string)
    ensures Selected(Apply(m, SelectionWrites(source)), source)
  {
    ApplyThree(m, SelectionWrites(source));
  }

  /** Start-up leaves every line low: no source selected. */
  lemma StartupSelectsNothing(m: map<int, Level>)
    ensures forall i :: 0 <= i < |Pins| ==> Pins[i] in Apply(m, StartupWrites()) && Apply(m, StartupWrites())[Pins[i]] == Low
  {
  }

  /** Selecting the same source twice leaves the lines as selecting it once. */
  lemma {:induction false} SelectionIdempotent(m: map<int, Level>, source: string)
    ensures Apply(Apply(m, SelectionWrites(source)), SelectionWrites(source)) == Apply(m, SelectionWrites(source))
  {
    var ws := SelectionWrites(source);
    ApplyThree(m, ws);
    ApplyThree(Apply(m, ws), ws);
  }

  /** Selection is not break-before-make: switching from grid to solar drives
      the solar line high while the grid line is still high. */
  lemma {:induction false} SelectionMakesBeforeBreak(m: map<int, Level>)
    requires Selected(m, "grid")
    ensures var mid := Apply(m, SelectionWrites("solar")[..1]);
      17 in mid && 22 in mid && mid[17] == High && mid[22] == High
  {
    var ws := SelectionWrites("solar");
    assert ws[..1] == [] + [ws[0]];
    ApplySnoc(m, [], ws[0]);
    assert Pins[2] == 22 && Sources[2] == "grid";
  }

  class Switchboard {
    /** The level of every relay line configured so far. */
    var levels: map<int, Level>
    /** Every output call, in order. */
    ghost var writes: seq<Write>

    /** Module start-up: every relay line set up as an output and driven low. */
    constructor ()
      ensures levels == Apply(map[], StartupWrites()) && writes == StartupWrites()
    {
      levels := map[];
      writes := [];
      new;
      ghost var ws := StartupWrites();
      for i := 0 to |Pins|
        invariant levels == Apply(map[], ws[..i]) && writes == ws[..i]
      {
        levels := levels[Pins[i] := Low];
        writes := writes + [Write(Pins[i], Low)];
        assert ws[..i + 1] == ws[..i] + [ws[i]];
        ApplySnoc(map[], ws[..i], ws[i]);
      }
      assert ws[..|Pins|] == ws;
    }

    /** Select `source`: each relay line written once, in table order, high
        for `source` and low for the others. A name not in the table writes
        nothing. */
    method SwitchSource(source: string)
      modifies this
      ensures source in Sources ==>
        levels == Apply(old(levels), SelectionWrites(source)) && writes == old(writes) + SelectionWrites(source)
      ensures source in Sources ==> Selected(levels, source)
      ensures source !in Sources ==> levels == old(levels) && writes == old(writes)
    {
      if source in Sources {
        ghost var ws := SelectionWrites(source);
        for i := 0 to |Pins|
          invariant levels == Apply(old(levels), ws[..i]) && writes == old(writes) + ws[..i]
        {
          levels := levels[Pins[i] := if Sources[i] == source then High else Low];
          writes := writes + [Write(Pins[i], if Sources[i] == source then High else Low)];
          assert ws[..i + 1] == ws[..i] + [ws[i]];
          ApplySnoc(old(levels), ws[..i], ws[i]);
        }
        assert ws[..|Pins|] == ws;
        SelectionIsOneHot(old(levels), source);
      }
    }
  }

  /** A client: selecting the same source twice gives the levels of a single
      selection, and start-up followed by a selection has exactly one source on. */
  method SwitchTwice(source: string)
    requires source in Sources
  {
    var board := new Switchboard();
    var start := board.levels;
    board.SwitchSource(source);
    var once := board.levels;
    board.SwitchSource(source);
    SelectionIdempotent(start, source);
    assert board.levels == once;
    assert Selected(board.levels, source);
  }
}
