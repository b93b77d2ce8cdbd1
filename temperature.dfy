/**
 * The producers of the heating monitor that feed the recorder: the manual
 * temperature input driven by the display's buttons, the flame detector, the
 * one-wire state decoding and the display's underline geometry, and the
 * fixed column registration the producers perform.
 *
 * Hardware access is abstracted: a device read is an outcome handed in as a
 * parameter, clock readings are integer parameters, and the events a
 * producer hands to the recorder's `create_event` are collected in an
 * `emitted` log.
 */
module TemperatureRecording {
  import opened Results
  import opened Text
  import Recorder

  /** One `create_event(source, time, value)` call made by a producer. */
  datatype Event = Event(source: string, time: int, value: string)

  // ---------------------------------------------------------------------
  // W1_DS24S13.get_state
  // ---------------------------------------------------------------------

  /**
   * The two PIO lines of the DS2413 state byte: PIO A is bit 0 and PIO B is
   * bit 2 of the first byte read. An empty read has no first byte (the
   * program raises IndexError).
   */
  function GetState(contents: seq<bv8>): (r: Option<(bool, bool)>)
    ensures r.Some? <==> |contents| > 0
    ensures r.Some? ==> r.value.0 == (contents[0] % 2 == 1)
    ensures r.Some? ==> r.value.1 == ((contents[0] / 4) % 2 == 1)
  {
    if |contents| == 0 then None
    else Some((contents[0] & 0x1 != 0, contents[0] & 0x4 != 0))
  }

  // ---------------------------------------------------------------------
  // Bonnet_Display.underline
  // ---------------------------------------------------------------------

  const CharacterWidth: int := 8
  const SpaceWidth: int := 8
  /** Each text line of the display is a band of 16 pixel rows. */
  const LineHeight: int := 16

  /** A line segment from (x0, y0) to (x1, y1) in display pixels. */
  datatype Segment = Segment(x0: int, y0: int, x1: int, y1: int)

  /**
   * The segment `underline(line, start, len, fnum)` draws: `len` characters
   * wide, starting after `start` characters and `fnum` separating spaces,
   * on the bottom pixel row of text line `line`.
   */
  function Underline(line: int, start: int, len: int, fnum: int): (s: Segment)
    ensures s.y0 == s.y1
    ensures LineHeight * line <= s.y0 < LineHeight * (line + 1)
    ensures s.x1 - s.x0 == CharacterWidth * len
  {
    var y0 := 15 + line * 16;
    var x0 := start * CharacterWidth + fnum * SpaceWidth;
    var x1 := x0 + len * CharacterWidth;
    Segment(x0, y0, x1, y0)
  }

  // ---------------------------------------------------------------------
  // ManualThermInput
  // ---------------------------------------------------------------------

  /** The value of a slot that holds no manual reading. */
  const ManualDefault: int := 99
  /** The value PLUS gives an empty slot, and the lowest value a slot keeps. */
  const ManualLowest: int := 30
  const ManualNames: seq<string> := ["ManFlow", "ManReturn"]

  datatype Button = Up | Down | Left | Right | Ok | Plus | Minus

  /** What `update_display` puts on the third display line. */
  datatype Screen = Screen(line3: string, underline: Option<Segment>)

  predicate InRange(values: seq<int>) {
    forall k :: 0 <= k < |values| ==> ManualLowest <= values[k] <= ManualDefault
  }

  /** One slot as `update_display` renders it: `"{:2} "` or `"-- "`. */
  function SlotText(v: int): string {
    if v < ManualDefault then Pad2(IntToString(v)) + " " else "-- "
  }

  /** The strings of `parts`, one after the other. */
  function Concat(parts: seq<string>): string {
    if parts == [] then "" else Concat(parts[..|parts| - 1]) + parts[|parts| - 1]
  }

  function Slots(values: seq<int>): (parts: seq<string>)
    ensures |parts| == |values|
  {
    seq(|values|, k requires 0 <= k < |values| => SlotText(values[k]))
  }

  /** The two characters a slot shows: its value, or "--" when it holds the default. */
  function SlotDigits(v: int): string {
    if v < ManualDefault then IntToString(v) else "--"
  }

  /** The third display line: every slot in order. */
  function DisplayText(values: seq<int>): string {
    Concat(Slots(values))
  }

  /** What the display shows for the given slots, editing flag and current slot. */
  function ScreenOf(values: seq<int>, active: bool, current: int): Screen {
    Screen(DisplayText(values), if active then Some(Underline(2, current * 2, 2, current)) else None)
  }

  lemma TwoDigits(v: int)
    requires 10 <= v < 100
    ensures |IntToString(v)| == 2
  {
    assert IntToString(v) == NatToString(v / 10) + [DigitChar(v % 10)];
  }

  lemma SlotWidth(v: int)
    requires ManualLowest <= v <= ManualDefault
    ensures |SlotText(v)| == 3
    ensures SlotText(v)[2] == ' '
    ensures SlotText(v)[..2] == SlotDigits(v)
  {
    if v < ManualDefault {
      TwoDigits(v);
      var d := IntToString(v);
      assert Pad2(d) == d;
      assert SlotText(v) == d + " ";
    }
  }

  lemma ConcatSlices(a: string, b: string, i: int, j: int)
    requires 0 <= i <= j <= |a| + |b|
    requires j <= |a| || i == |a|
    ensures j <= |a| ==> (a + b)[i..j] == a[i..j]
    ensures i == |a| ==> (a + b)[i..j] == b[..j - i]
  {
  }

  /** Parts of three characters each sit at every third position of their concatenation. */
  lemma {:induction false} ConcatChunks(parts: seq<string>, c: int)
    requires forall k :: 0 <= k < |parts| ==> |parts[k]| == 3
    requires 0 <= c < |parts|
    ensures |Concat(parts)| == 3 * |parts|
    ensures Concat(parts)[3 * c..3 * c + 3] == parts[c]
  {
    var n := |parts| - 1;
    var init := Concat(parts[..n]);
    if c < n {
      ConcatChunks(parts[..n], c);
      ConcatSlices(init, parts[n], 3 * c, 3 * c + 3);
    } else if n > 0 {
      ConcatChunks(parts[..n], 0);
      ConcatSlices(init, parts[n], |init|, |init| + 3);
    }
  }

  lemma ConcatAppend(parts: seq<string>, x: string)
    ensures Concat(parts + [x]) == Concat(parts) + x
  {
    assert (parts + [x])[..|parts|] == parts;
  }

  lemma SlotsAppend(values: seq<int>, v: int)
    ensures Slots(values + [v]) == Slots(values) + [SlotText(v)]
  {
    var a := Slots(values + [v]);
    var b := Slots(values) + [SlotText(v)];
    assert |a| == |b|;
    forall k | 0 <= k < |a| ensures a[k] == b[k] {
      if k < |values| {
        assert (values + [v])[k] == values[k];
      }
    }
  }

  lemma DisplayTextAppend(values: seq<int>, i: int)
    requires 0 <= i < |values|
    ensures DisplayText(values[..i + 1]) == DisplayText(values[..i]) + SlotText(values[i])
  {
    assert values[..i + 1] == values[..i] + [values[i]];
    SlotsAppend(values[..i], values[i]);
    ConcatAppend(Slots(values[..i]), SlotText(values[i]));
  }


  lemma DisplayTextSlot(values: seq<int>, c: int)
    requires InRange(values)
    requires 0 <= c < |values|
    ensures |DisplayText(values)| == 3 * |values|
    ensures DisplayText(values)[3 * c..3 * c + 3] == SlotText(values[c])
  {
    var parts := Slots(values);
    forall k | 0 <= k < |parts| ensures |parts[k]| == 3 {
      SlotWidth(values[k]);
    }
    ConcatChunks(parts, c);
  }

  /** The underline of slot `c` covers character cells 3c and 3c+1 of line 2. */
  lemma UnderlineCells(c: int)
    ensures var s := Underline(2, c * 2, 2, c);
      && s.x0 == CharacterWidth * (3 * c) && s.x1 == CharacterWidth * (3 * c + 2)
      && s.x0 / CharacterWidth == 3 * c && s.x1 / CharacterWidth == 3 * c + 2
      && s.x0 % CharacterWidth == 0 && s.x1 % CharacterWidth == 0
      && 2 * LineHeight <= s.y0 == s.y1 < 3 * LineHeight
  {
  }

  lemma SubSlice(text: string, i: int, part: string)
    requires 0 <= i && i + 3 <= |text|
    requires text[i..i + 3] == part
    ensures text[i..i + 2] == part[..2] && text[i + 2] == part[2]
  {
  }

  /** Slot `c` occupies characters 3c and 3c+1 of the line, followed by a space. */
  lemma SlotOnLine(values: seq<int>, c: int)
    requires InRange(values)
    requires 0 <= c < |values|
    ensures |DisplayText(values)| == 3 * |values|
    ensures DisplayText(values)[3 * c..3 * c + 2] == SlotDigits(values[c])
    ensures DisplayText(values)[3 * c + 2] == ' '
  {
    DisplayTextSlot(values, c);
    SlotWidth(values[c]);
    SubSlice(DisplayText(values), 3 * c, SlotText(values[c]));
  }

  /**
   * Every slot takes three characters on the display line: its two-digit
   * value (or "--" when it holds the default) and a separating space. The
   * underline drawn for the current slot spans exactly that slot's two
   * characters, on the bottom row of the third line.
   */
  lemma UnderlineMarksSlot(values: seq<int>, c: int)
    requires InRange(values)
    requires 0 <= c < |values|
    ensures var screen := ScreenOf(values, true, c);
      var text := screen.line3;
      var s := screen.underline.value;
      && |text| == 3 * |values|
      && s.x0 % CharacterWidth == 0 && s.x1 % CharacterWidth == 0
      && 0 <= s.x0 / CharacterWidth < s.x1 / CharacterWidth < |text|
      && text[s.x0 / CharacterWidth..s.x1 / CharacterWidth] == SlotDigits(values[c])
      && text[s.x1 / CharacterWidth] == ' '
      && 2 * LineHeight <= s.y0 == s.y1 < 3 * LineHeight
  {
    UnderlineCells(c);
    SlotOnLine(values, c);
  }

  /** The part of the manual input that a button press changes. */
  datatype Panel = Panel(current: int, active: bool, values: seq<int>)

  predicate PanelValid(p: Panel) {
    |p.values| == |ManualNames| && 0 <= p.current < |p.values| && InRange(p.values)
  }

  /**
   * The `handler` table as a reference: the panel after one press of
   * `button` at time `time`, and the events the press reports, in order.
   */
  function Press(p: Panel, button: Button, time: int): (Panel, seq<Event>)
    requires 0 <= p.current < |p.values| == |ManualNames|
  {
    var c := p.current;
    var name := ManualNames[c];
    var reset := p.values[c := ManualDefault];
    var cleared := Event(name, time, IntToString(ManualDefault));
    match button
    case Up => (p, [])
    case Down => (p, [])
    case Left =>
      if !p.active then (p, [])
      else (p.(values := reset, current := (c - 1) % |p.values|), [cleared])
    case Right =>
      if !p.active then (p, [])
      else (p.(values := reset, current := (c + 1) % |p.values|), [cleared])
    case Ok => (p.(values := reset, active := !p.active), [cleared])
    case Plus =>
      if !p.active then (p, [])
      else
        var v := if p.values[c] == ManualDefault then ManualLowest else p.values[c] + 1;
        (p.(values := p.values[c := v]), [Event(name, time, IntToString(v))])
    case Minus =>
      if !p.active || p.values[c] == ManualDefault then (p, [])
      else
        var v := p.values[c] - 1;
        if v < ManualLowest then (p.(values := reset), [Event(name, time, IntToString(v)), cleared])
        else (p.(values := p.values[c := v]), [Event(name, time, IntToString(v))])
  }

  /**
   * A press keeps the cursor on a slot and every value in 30..99, changes
   * editing only on OK, leaves everything alone on UP and DOWN, and reports
   * at most two events, all for the slot under the cursor at the press time.
   */
  lemma PressBounds(p: Panel, button: Button, time: int)
    requires PanelValid(p)
    ensures var (q, es) := Press(p, button, time);
      && PanelValid(q)
      && (!button.Ok? ==> q.active == p.active)
      && ((button.Up? || button.Down?) ==> q == p && es == [])
      && |es| <= 2
      && (forall k :: 0 <= k < |es| ==> es[k].time == time && es[k].source == ManualNames[p.current])
  {
  }

  /** While editing, MINUS undoes PLUS on a value below 98, and PLUS undoes MINUS above 30. */
  lemma PlusMinusUndo(p: Panel, time: int)
    requires PanelValid(p) && p.active
    ensures p.values[p.current] < ManualDefault - 1 ==>
      Press(Press(p, Plus, time).0, Minus, time).0 == p
    ensures ManualLowest < p.values[p.current] < ManualDefault ==>
      Press(Press(p, Minus, time).0, Plus, time).0 == p
  {
    var c := p.current;
    var v := p.values[c];
    if v < ManualDefault - 1 {
      assert p.values[c := v + 1][c := v] == p.values;
    }
    if ManualLowest < v < ManualDefault {
      assert p.values[c := v - 1][c := v] == p.values;
    }
  }

  /** While editing, RIGHT after LEFT brings the cursor back to its slot. */
  lemma LeftRightReturn(p: Panel, time: int)
    requires PanelValid(p) && p.active
    ensures Press(Press(p, Left, time).0, Right, time).0.current == p.current
  {
  }

  /**
   * `ManualThermInput`: two manually entered temperatures (flow and return)
   * edited with the display's buttons. `current` selects a slot, `active`
   * says whether editing is on, and every change of a slot is reported to
   * the recorder.
   */
  class ManualThermInput {
    var current: int
    var active: bool
    /** `value_list`: one value per name in ManualNames. */
    var values: seq<int>
    /** `value_time`: the time of the button press being handled. */
    var valueTime: int
    var emitted: seq<Event>

    ghost predicate Valid()
      reads this
    {
      |values| == |ManualNames| && 0 <= current < |values| && InRange(values)
    }

    constructor (now: int)
      ensures Valid()
      ensures current == 0 && !active && values == [ManualDefault, ManualDefault]
      ensures valueTime == now && emitted == []
    {
      current := 0;
      active := false;
      values := [ManualDefault, ManualDefault];
      valueTime := now;
      emitted := [];
    }

    /**
     * `update_display`: build the third display line slot by slot, and
     * underline the current slot while editing.
     */
    method UpdateDisplay() returns (screen: Screen)
      requires Valid()
      ensures screen == ScreenOf(values, active, current)
    {
      var text := "";
      var i := 0;
      while i < |values|
        invariant i <= |values|
        invariant text == DisplayText(values[..i])
      {
        DisplayTextAppend(values, i);
        if values[i] < ManualDefault {
          text := text + (Pad2(IntToString(values[i])) + " ");
        } else {
          text := text + "-- ";
        }
        i := i + 1;
      }
      assert values[..i] == values;
      if active {
        screen := Screen(text, Some(Underline(2, current * 2, 2, current)));
      } else {
        screen := Screen(text, None);
      }
    }

    /** `update_value(num, value)`: store the value and report it. */
    method UpdateValue(num: int, value: int)
      requires 0 <= num < |values| == |ManualNames|
      modifies this`values, this`emitted
      ensures values == old(values)[num := value]
      ensures emitted == old(emitted) + [Event(ManualNames[num], valueTime, IntToString(value))]
    {
      values := values[num := value];
      emitted := emitted + [Event(ManualNames[num], valueTime, IntToString(values[num]))];
    }

    /** LEFT: clear the current slot and move to the previous one, wrapping around. */
    method Left()
      requires Valid()
      modifies this`current, this`values, this`emitted
      ensures Valid()
      ensures !old(active) ==> current == old(current) && values == old(values) && emitted == old(emitted)
      ensures old(active) ==>
        && values == old(values)[old(current) := ManualDefault]
        && current == (old(current) - 1) % |values|
        && emitted == old(emitted) + [Event(ManualNames[old(current)], valueTime, IntToString(ManualDefault))]
    {
      if active {
        UpdateValue(current, ManualDefault);
        current := current - 1;
        if current < 0 {
          current := |values| - 1;
        }
      }
    }

    /** RIGHT: clear the current slot and move to the next one, wrapping around. */
    method Right()
      requires Valid()
      modifies this`current, this`values, this`emitted
      ensures Valid()
      ensures !old(active) ==> current == old(current) && values == old(values) && emitted == old(emitted)
      ensures old(active) ==>
        && values == old(values)[old(current) := ManualDefault]
        && current == (old(current) + 1) % |values|
        && emitted == old(emitted) + [Event(ManualNames[old(current)], valueTime, IntToString(ManualDefault))]
    {
      if active {
        UpdateValue(current, ManualDefault);
        current := current + 1;
        if current >= |values| {
          current := 0;
        }
      }
    }

    /** OK: clear the current slot and toggle editing, whether or not it was on. */
    method Ok()
      requires Valid()
      modifies this`active, this`values, this`emitted
      ensures Valid()
      ensures active == !old(active)
      ensures values == old(values)[current := ManualDefault]
      ensures emitted == old(emitted) + [Event(ManualNames[current], valueTime, IntToString(ManualDefault))]
    {
      UpdateValue(current, ManualDefault);
      active := !active;
    }

    /** PLUS: an empty slot starts at 30, any other value goes up by one. */
    method Plus()
      requires Valid()
      modifies this`values, this`emitted
      ensures Valid()
      ensures !old(active) ==> values == old(values) && emitted == old(emitted)
      ensures old(active) ==>
        var v := old(values)[current];
        var v' := if v == ManualDefault then ManualLowest else v + 1;
        && values == old(values)[current := v']
        && emitted == old(emitted) + [Event(ManualNames[current], valueTime, IntToString(v'))]
    {
      if active {
        if values[current] != ManualDefault {
          UpdateValue(current, values[current] + 1);
        } else {
          UpdateValue(current, 30);
        }
      }
    }

    /**
     * MINUS: an empty slot stays empty; any other value goes down by one,
     * and a value that drops below 30 is reported and then cleared, which
     * reports the default as a second event at the same time.
     */
    method Minus()
      requires Valid()
      modifies this`values, this`emitted
      ensures Valid()
      ensures !old(active) || old(values)[current] == ManualDefault ==>
        values == old(values) && emitted == old(emitted)
      ensures old(active) && old(values)[current] != ManualDefault ==>
        var v := old(values)[current] - 1;
        var name := ManualNames[current];
        if v < ManualLowest then
          && values == old(values)[current := ManualDefault]
          && emitted == old(emitted) + [Event(name, valueTime, IntToString(v)), Event(name, valueTime, IntToString(ManualDefault))]
        else
          && values == old(values)[current := v]
          && emitted == old(emitted) + [Event(name, valueTime, IntToString(v))]
    {
      if active {
        if values[current] != ManualDefault {
          UpdateValue(current, values[current] - 1);
          if values[current] < 30 {
            UpdateValue(current, ManualDefault);
          }
        }
      }
    }

    /** The `handler` table: run the handler of a button (UP and DOWN do nothing). */
    method Handle(button: Button)
      requires Valid()
      modifies this`current, this`active, this`values, this`emitted
      ensures Valid()
      ensures !button.Ok? ==> active == old(active)
      ensures (button.Up? || button.Down?) ==>
        current == old(current) && values == old(values) && emitted == old(emitted)
      ensures |old(emitted)| <= |emitted| <= |old(emitted)| + 2
      ensures emitted[..|old(emitted)|] == old(emitted)
      ensures forall k :: |old(emitted)| <= k < |emitted| ==>
        emitted[k].time == valueTime && emitted[k].source == ManualNames[old(current)]
      ensures Press(Panel(old(current), old(active), old(values)), button, valueTime)
        == (Panel(current, active, values), emitted[|old(emitted)|..])
    {
      match button {
      case Up =>
        assert emitted[|emitted|..] == [];
      case Down =>
        assert emitted[|emitted|..] == [];
      case Left => Left();
      case Right => Right();
      case Ok => Ok();
      case Plus => Plus();
      case Minus => Minus();
      }
    }

    /**
     * `EventDispatcher` for one button press at time `now`: stamp the
     * press, run its handler and redraw.
     */
    method EventDispatcher(button: Button, now: int) returns (screen: Screen)
      requires Valid()
      modifies this`valueTime, this`current, this`active, this`values, this`emitted
      ensures Valid()
      ensures valueTime == now
      ensures screen == ScreenOf(values, active, current)
      ensures !button.Ok? ==> active == old(active)
      ensures (button.Up? || button.Down?) ==>
        current == old(current) && values == old(values) && emitted == old(emitted)
      ensures |old(emitted)| <= |emitted| <= |old(emitted)| + 2
      ensures emitted[..|old(emitted)|] == old(emitted)
      ensures forall k :: |old(emitted)| <= k < |emitted| ==>
        emitted[k].time == now && emitted[k].source == ManualNames[old(current)]
      ensures Press(Panel(old(current), old(active), old(values)), button, now)
        == (Panel(current, active, values), emitted[|old(emitted)|..])
    {
      valueTime := now;
      Handle(button);
      screen := UpdateDisplay();
    }
  }

  // ---------------------------------------------------------------------
  // FlameDetector
  // ---------------------------------------------------------------------

  const FlameSource: string := "Flame"
  /** The spinner shown in front of the flame state, one step per read. */
  const Progress: string := "|/-\\"

  /** The outcome of reading the DS2413 state file: PIO A, or the error raised. */
  datatype DeviceRead = FlameBit(pioa: bool) | FileNotFound | PermissionDenied

  /** The state reported to the recorder for a read: a set bit means the burner is off. */
  function ReportedState(read: DeviceRead): string {
    match read
    case FlameBit(pioa) => if pioa then "off" else "on"
    case FileNotFound => "device_error"
    case PermissionDenied => "permission_error"
  }

  /** The word the display shows for each reported state. */
  function DisplayWord(state: string): (w: string)
    ensures w != "" <==> state in {"off", "on", "device_error", "permission_error"}
  {
    if state == "off" then "aus"
    else if state == "on" then " an"
    else if state == "device_error" then "sens"
    else if state == "permission_error" then "perm"
    else ""
  }

  /**
   * Two reads show the same word exactly when they report the same state,
   * and no read shows the empty word the detector starts with; so the
   * detector's "display text changed" test is a "state changed" test.
   */
  lemma DisplayWordFaithful(a: DeviceRead, b: DeviceRead)
    ensures DisplayWord(ReportedState(a)) != ""
    ensures DisplayWord(ReportedState(a)) == DisplayWord(ReportedState(b)) <==> ReportedState(a) == ReportedState(b)
  {
  }

  lemma DisplayWordInjective(s1: string, s2: string)
    requires DisplayWord(s1) != ""
    ensures DisplayWord(s1) == DisplayWord(s2) ==> s1 == s2
  {
  }

  /** A log of flame reports: every entry is for the flame column, and no report repeats its predecessor. */
  predicate FlameLog(log: seq<Event>) {
    && (forall k :: 0 <= k < |log| ==> log[k].source == FlameSource)
    && (forall k :: 0 < k < |log| ==> log[k - 1].value != log[k].value)
  }

  lemma FlameLogAppend(log: seq<Event>, e: Event)
    requires FlameLog(log)
    requires e.source == FlameSource
    requires log != [] ==> log[|log| - 1].value != e.value
    ensures FlameLog(log + [e])
  {
    var log' := log + [e];
    forall k | 0 < k < |log'| ensures log'[k - 1].value != log'[k].value {
      if k < |log| {
        assert log'[k - 1] == log[k - 1] && log'[k] == log[k];
      }
    }
  }

  /**
   * `FlameDetector`: polls the flame state and reports it to the recorder
   * only when it changes.
   */
  class FlameDetector {
    var state: string
    /** The word currently on the display; empty before the first read. */
    var text: string
    var count: nat
    var valueTime: int
    var emitted: seq<Event>

    ghost predicate Valid()
      reads this
    {
      && (emitted == [] <==> text == "")
      && (text != "" ==> text == DisplayWord(state) && emitted[|emitted| - 1].value == state)
      && FlameLog(emitted)
    }

    constructor (now: int)
      ensures Valid()
      ensures state == "False" && text == "" && count == 0 && valueTime == now && emitted == []
    {
      state := "False";
      text := "";
      count := 0;
      valueTime := now;
      emitted := [];
    }

    /** The `try`/`except` part of `read_output_value`: the state and the word for a read. */
    method Sense(read: DeviceRead) returns (word: string)
      modifies this`state
      ensures state == ReportedState(read) && word == DisplayWord(state) && word != ""
    {
      match read {
        case FlameBit(flame) =>
          if flame {
            word := "aus";
            state := "off";
          } else {
            word := " an";
            state := "on";
          }
        case FileNotFound =>
          state := "device_error";
          word := "sens";
        case PermissionDenied =>
          state := "permission_error";
          word := "perm";
      }
    }

    /**
     * `read_output_value` with the device read's outcome and the time of
     * the read: update the state, return the display line, and report the
     * state when the displayed word changes.
     */
    method ReadOutputValue(read: DeviceRead, now: int) returns (line: string)
      requires Valid()
      modifies this
      ensures Valid()
      ensures valueTime == now && count == old(count) + 1
      ensures state == ReportedState(read) && text == DisplayWord(state)
      ensures line == [Progress[old(count) % 4]] + " " + text
      ensures emitted == old(emitted) + (if old(text) != text then [Event(FlameSource, now, state)] else [])
      ensures old(text) == "" ==> |emitted| == |old(emitted)| + 1
      ensures old(emitted) != [] ==> (|emitted| > |old(emitted)| <==> state != old(emitted)[|old(emitted)| - 1].value)
    {
      ghost var log, previous := emitted, state;
      valueTime := now;
      var word := Sense(read);
      line := [Progress[count % 4]] + " " + word;
      if text != word {
        assert log != [] ==> log[|log| - 1].value != state by {
          if text != "" {
            DisplayWordInjective(state, previous);
          }
        }
        FlameLogAppend(log, Event(FlameSource, now, state));
        emitted := emitted + [Event(FlameSource, valueTime, state)];
        text := word;
      } else {
        DisplayWordInjective(state, previous);
      }
      count := count + 1;
    }
  }

  // ---------------------------------------------------------------------
  // Column registration by the producers
  // ---------------------------------------------------------------------

  /** One `register_event_source(source, pos, default)` call. */
  datatype Registration = Registration(source: string, pos: nat, default: string)

  /** ManualThermInput's columns: ManFlow and ManReturn at 5 and 6, default "99". */
  function ManualRegistrations(): seq<Registration> {
    [Registration(ManualNames[0], 0 + 5, IntToString(ManualDefault)),
     Registration(ManualNames[1], 1 + 5, IntToString(ManualDefault))]
  }

  /** FlameDetector's column: Flame at 4, default "init". */
  function FlameRegistrations(): seq<Registration> {
    [Registration(FlameSource, 4, "init")]
  }

  const ThermNames: seq<string> := ["Flow", "Return", "Outside"]

  /** ThermSensors' columns: Flow, Return and Outside at 1 to 3, default "99.999". */
  function ThermRegistrations(): seq<Registration> {
    [Registration(ThermNames[0], 0 + 1, "99.999"),
     Registration(ThermNames[1], 1 + 1, "99.999"),
     Registration(ThermNames[2], 2 + 1, "99.999")]
  }

  /** A producer's registrations in order, stopping at the first that raises. */
  function RegisterAll(reg: Recorder.Registry, regs: seq<Registration>): (Recorder.Registry, Outcome<Recorder.RegisterError>)
    decreases |regs|
  {
    if regs == [] then (reg, Pass)
    else
      var (reg', out) := Recorder.Register(reg, regs[0].source, regs[0].pos, regs[0].default);
      if out.Fail? then (reg', out) else RegisterAll(reg', regs[1..])
  }

  /** The registration loop of a producer's constructor, run against a recorder. */
  method RegisterColumns(rec: Recorder.EventCollectRecorder, regs: seq<Registration>) returns (out: Outcome<Recorder.RegisterError>)
    requires rec.Valid()
    modifies rec`lookup, rec`template
    ensures rec.Valid()
    ensures (Recorder.Registry(rec.lookup, rec.template), out) == RegisterAll(old(Recorder.Registry(rec.lookup, rec.template)), regs)
  {
    var i := 0;
    while i < |regs|
      invariant i <= |regs|
      invariant rec.Valid()
      invariant RegisterAll(old(Recorder.Registry(rec.lookup, rec.template)), regs)
        == RegisterAll(Recorder.Registry(rec.lookup, rec.template), regs[i..])
    {
      assert regs[i..][1..] == regs[i + 1..];
      out := rec.RegisterEventSource(regs[i].source, regs[i].pos, regs[i].default);
      if out.Fail? {
        return;
      }
      i := i + 1;
    }
    out := Pass;
  }

  /** The columns of the log, in order. */
  const LogColumns: seq<string> := ["Time", "Flow", "Return", "Outside", "Flame", "ManFlow", "ManReturn"]

  /** One successful registration into a free column, as the layout below needs it. */
  lemma RegisterFree(reg: Recorder.Registry, source: string, pos: nat, default: string, lookup: seq<Option<string>>)
    requires pos >= |reg.lookup| ==> lookup == reg.lookup + seq(pos - |reg.lookup|, _ => None) + [Some(source)]
    requires pos < |reg.lookup| ==> reg.lookup[pos] == None && lookup == reg.lookup[pos := Some(source)]
    requires source != Recorder.TimeKey && source !in reg.template.fields
    ensures Recorder.Register(reg, source, pos, default)
      == (Recorder.Registry(lookup, reg.template.(fields := reg.template.fields[source := default])), Pass)
  {
    var padded := Recorder.Padded(reg.lookup, pos);
    if pos >= |reg.lookup| {
      assert padded[pos := Some(source)] == lookup;
    }
  }

  /** Registering a sequence of columns keeps the registry well formed, however it ends. */
  lemma {:induction false} RegisterAllWellFormed(reg: Recorder.Registry, regs: seq<Registration>)
    requires Recorder.WellFormed(reg)
    ensures Recorder.WellFormed(RegisterAll(reg, regs).0)
    decreases |regs|
  {
    if regs != [] {
      Recorder.RegisterWellFormed(reg, regs[0].source, regs[0].pos, regs[0].default);
      var (reg', out) := Recorder.Register(reg, regs[0].source, regs[0].pos, regs[0].default);
      if out.Pass? {
        RegisterAllWellFormed(reg', regs[1..]);
      }
    }
  }

  /** Every producer's registrations, in the order the program starts the producers. */
  function AppRegistrations(): seq<Registration> {
    ManualRegistrations() + FlameRegistrations() + ThermRegistrations()
  }

  /** The registry after all producers have registered. */
  function AppRegistry(): Recorder.Registry {
    Recorder.Registry(
      [Some("Time"), Some("Flow"), Some("Return"), Some("Outside"), Some("Flame"), Some("ManFlow"), Some("ManReturn")],
      Recorder.Record(0, map["ManFlow" := "99", "ManReturn" := "99", "Flame" := "init",
                             "Flow" := "99.999", "Return" := "99.999", "Outside" := "99.999"]))
  }

  /** One registration that succeeds moves the fold on to the rest. */
  lemma RegisterAllCons(reg: Recorder.Registry, x: Registration, rest: seq<Registration>, reg': Recorder.Registry)
    requires Recorder.Register(reg, x.source, x.pos, x.default) == (reg', Pass)
    ensures RegisterAll(reg, [x] + rest) == RegisterAll(reg', rest)
  {
    assert ([x] + rest)[1..] == rest;
  }

  lemma AppRegistrationList()
    ensures AppRegistrations() == [Registration("ManFlow", 5, "99"), Registration("ManReturn", 6, "99"),
                                   Registration("Flame", 4, "init"), Registration("Flow", 1, "99.999"),
                                   Registration("Return", 2, "99.999"), Registration("Outside", 3, "99.999")]
  {
    assert IntToString(ManualDefault) == "99" by {
      assert NatToString(99) == NatToString(9) + [DigitChar(9)];
    }
    assert ManualRegistrations() == [Registration("ManFlow", 5, "99"), Registration("ManReturn", 6, "99")];
    assert ThermRegistrations() == [Registration("Flow", 1, "99.999"), Registration("Return", 2, "99.999"),
                                    Registration("Outside", 3, "99.999")];
  }

  /** The registry after the first `k` of the program's registrations. */
  function AppStage(k: nat): Recorder.Registry
    requires k <= 6
  {
    if k == 0 then Recorder.Registry([Some(Recorder.TimeKey)],
                               Recorder.Record(0, map[]))
    else if k == 1 then Recorder.Registry([Some(Recorder.TimeKey), None, None, None, None, Some("ManFlow")],
                               Recorder.Record(0, map["ManFlow" := "99"]))
    else if k == 2 then Recorder.Registry([Some(Recorder.TimeKey), None, None, None, None, Some("ManFlow"), Some("ManReturn")],
                               Recorder.Record(0, map["ManFlow" := "99", "ManReturn" := "99"]))
    else if k == 3 then Recorder.Registry([Some(Recorder.TimeKey), None, None, None, Some("Flame"), Some("ManFlow"), Some("ManReturn")],
                               Recorder.Record(0, map["ManFlow" := "99", "ManReturn" := "99", "Flame" := "init"]))
    else if k == 4 then Recorder.Registry([Some(Recorder.TimeKey), Some("Flow"), None, None, Some("Flame"), Some("ManFlow"), Some("ManReturn")],
                               Recorder.Record(0, map["ManFlow" := "99", "ManReturn" := "99", "Flame" := "init",
                                 "Flow" := "99.999"]))
    else if k == 5 then Recorder.Registry([Some(Recorder.TimeKey), Some("Flow"), Some("Return"), None, Some("Flame"), Some("ManFlow"), Some("ManReturn")],
                               Recorder.Record(0, map["ManFlow" := "99", "ManReturn" := "99", "Flame" := "init",
                                 "Flow" := "99.999", "Return" := "99.999"]))
    else AppRegistry()
  }

  lemma AppStep0()
    ensures Recorder.Register(AppStage(0), "ManFlow", 5, "99") == (AppStage(1), Pass)
  {
    RegisterFree(AppStage(0), "ManFlow", 5, "99", AppStage(1).lookup);
  }

  lemma AppStep1()
    ensures Recorder.Register(AppStage(1), "ManReturn", 6, "99") == (AppStage(2), Pass)
  {
    RegisterFree(AppStage(1), "ManReturn", 6, "99", AppStage(2).lookup);
  }

  lemma AppStep2()
    ensures Recorder.Register(AppStage(2), "Flame", 4, "init") == (AppStage(3), Pass)
  {
    RegisterFree(AppStage(2), "Flame", 4, "init", AppStage(3).lookup);
  }

  lemma AppStep3()
    ensures Recorder.Register(AppStage(3), "Flow", 1, "99.999") == (AppStage(4), Pass)
  {
    RegisterFree(AppStage(3), "Flow", 1, "99.999", AppStage(4).lookup);
  }

  lemma AppStep4()
    ensures Recorder.Register(AppStage(4), "Return", 2, "99.999") == (AppStage(5), Pass)
  {
    RegisterFree(AppStage(4), "Return", 2, "99.999", AppStage(5).lookup);
  }

  lemma AppStep5()
    ensures Recorder.Register(AppStage(5), "Outside", 3, "99.999") == (AppStage(6), Pass)
  {
    RegisterFree(AppStage(5), "Outside", 3, "99.999", AppStage(6).lookup);
  }

  lemma AppFold0()
    ensures RegisterAll(AppStage(0), AppRegistrations()[0..]) == RegisterAll(AppStage(1), AppRegistrations()[1..])
  {
    var regs := AppRegistrations();
    AppRegistrationList();
    assert regs[0..] == [regs[0]] + regs[1..];
    AppStep0();
    RegisterAllCons(AppStage(0), regs[0], regs[1..], AppStage(1));
  }

  lemma AppFold1()
    ensures RegisterAll(AppStage(1), AppRegistrations()[1..]) == RegisterAll(AppStage(2), AppRegistrations()[2..])
  {
    var regs := AppRegistrations();
    AppRegistrationList();
    assert regs[1..] == [regs[1]] + regs[2..];
    AppStep1();
    RegisterAllCons(AppStage(1), regs[1], regs[2..], AppStage(2));
  }

  lemma AppFold2()
    ensures RegisterAll(AppStage(2), AppRegistrations()[2..]) == RegisterAll(AppStage(3), AppRegistrations()[3..])
  {
    var regs := AppRegistrations();
    AppRegistrationList();
    assert regs[2..] == [regs[2]] + regs[3..];
    AppStep2();
    RegisterAllCons(AppStage(2), regs[2], regs[3..], AppStage(3));
  }

  lemma AppFold3()
    ensures RegisterAll(AppStage(3), AppRegistrations()[3..]) == RegisterAll(AppStage(4), AppRegistrations()[4..])
  {
    var regs := AppRegistrations();
    AppRegistrationList();
    assert regs[3..] == [regs[3]] + regs[4..];
    AppStep3();
    RegisterAllCons(AppStage(3), regs[3], regs[4..], AppStage(4));
  }

  lemma AppFold4()
    ensures RegisterAll(AppStage(4), AppRegistrations()[4..]) == RegisterAll(AppStage(5), AppRegistrations()[5..])
  {
    var regs := AppRegistrations();
    AppRegistrationList();
    assert regs[4..] == [regs[4]] + regs[5..];
    AppStep4();
    RegisterAllCons(AppStage(4), regs[4], regs[5..], AppStage(5));
  }

  lemma AppFold5()
    ensures RegisterAll(AppStage(5), AppRegistrations()[5..]) == RegisterAll(AppStage(6), AppRegistrations()[6..])
  {
    var regs := AppRegistrations();
    AppRegistrationList();
    assert regs[5..] == [regs[5]] + regs[6..];
    AppStep5();
    RegisterAllCons(AppStage(5), regs[5], regs[6..], AppStage(6));
  }

  lemma AppRegistration()
    ensures RegisterAll(Recorder.InitialRegistry(), AppRegistrations()) == (AppRegistry(), Pass)
  {
    var regs := AppRegistrations();
    AppFold0();
    AppFold1();
    AppFold2();
    AppFold3();
    AppFold4();
    AppFold5();
    assert regs[0..] == regs;
    assert regs[6..] == [] by {
      AppRegistrationList();
    }
  }

  lemma AppColumns()
    ensures Recorder.Sources(AppRegistry().lookup) == LogColumns
  {
    var l := AppRegistry().lookup;
    assert Recorder.Sources(l[6..]) == ["ManReturn"];
    assert Recorder.Sources(l[5..]) == ["ManFlow", "ManReturn"];
    assert Recorder.Sources(l[4..]) == ["Flame", "ManFlow", "ManReturn"];
    assert Recorder.Sources(l[3..]) == ["Outside", "Flame", "ManFlow", "ManReturn"];
    assert Recorder.Sources(l[2..]) == ["Return", "Outside", "Flame", "ManFlow", "ManReturn"];
    assert Recorder.Sources(l[1..]) == ["Flow", "Return", "Outside", "Flame", "ManFlow", "ManReturn"];
    assert Recorder.Sources(l) == ["Time", "Flow", "Return", "Outside", "Flame", "ManFlow", "ManReturn"];
  }

  /**
   * Column layout: on a new recorder the three producers, started in the
   * order the program starts them (manual input, flame detector,
   * thermometers), all register without collision; the log's columns are
   * Time Flow Return Outside Flame ManFlow ManReturn, each source starts
   * from its default, and the registry is well formed.
   */
  lemma ProducerLayout()
    ensures var (reg, out) := RegisterAll(Recorder.InitialRegistry(), AppRegistrations());
      && out == Pass
      && Recorder.WellFormed(reg)
      && Recorder.Sources(reg.lookup) == LogColumns
      && reg.template == Recorder.Record(0, map["ManFlow" := "99", "ManReturn" := "99", "Flame" := "init",
                                                "Flow" := "99.999", "Return" := "99.999", "Outside" := "99.999"])
  {
    AppRegistration();
    AppColumns();
    Recorder.InitialRegistryWellFormed();
    RegisterAllWellFormed(Recorder.InitialRegistry(), AppRegistrations());
  }

  /**
   * Log line layout: once the producers have registered, a record holding
   * every source (with values free of spaces) is written as one line whose
   * space-separated fields are, in order, its time and the values of Flow,
   * Return, Outside, Flame, ManFlow and ManReturn.
   */
  lemma AppLogLine(r: Recorder.Record)
    requires forall k :: 1 <= k < |LogColumns| ==> LogColumns[k] in r.fields
    requires forall s :: s in r.fields ==> ' ' !in r.fields[s]
    ensures Recorder.FormatEvent(AppRegistry().lookup, r).Success?
    ensures var cols := Split(Recorder.FormatEvent(AppRegistry().lookup, r).value);
      && |cols| == |LogColumns|
      && cols[0] == IntToString(r.time)
      && forall k :: 1 <= k < |LogColumns| ==> cols[k] == r.fields[LogColumns[k]]
  {
    var reg := AppRegistry();
    assert Recorder.WellFormed(reg) && Recorder.Complete(reg.lookup, r) && Recorder.Sources(reg.lookup) == LogColumns by {
      AppWellFormed();
      AppComplete(r);
      AppColumns();
    }
    LogLineFields(reg, r, LogColumns);
  }

  /** The fields of a written line are the record's values for the registered sources, in column order. */
  lemma LogLineFields(reg: Recorder.Registry, r: Recorder.Record, names: seq<string>)
    requires Recorder.WellFormed(reg)
    requires Recorder.Complete(reg.lookup, r)
    requires forall s :: s in r.fields ==> ' ' !in r.fields[s]
    requires Recorder.Sources(reg.lookup) == names
    ensures Recorder.FormatEvent(reg.lookup, r).Success?
    ensures var cols := Split(Recorder.FormatEvent(reg.lookup, r).value);
      && |cols| == |names|
      && cols[0] == IntToString(r.time)
      && forall k :: 1 <= k < |names| && names[k] != Recorder.TimeKey && names[k] in r.fields ==>
           cols[k] == r.fields[names[k]]
  {
    Recorder.FormatEventSplits(reg, r);
    var cols := Split(Recorder.FormatEvent(reg.lookup, r).value);
    forall k | 1 <= k < |names| && names[k] != Recorder.TimeKey && names[k] in r.fields
      ensures cols[k] == r.fields[names[k]]
    {
      assert Some(cols[k]) == Recorder.Get(r, names[k]);
    }
  }

  lemma AppWellFormed()
    ensures Recorder.WellFormed(AppRegistry())
  {
    AppRegistration();
    Recorder.InitialRegistryWellFormed();
    RegisterAllWellFormed(Recorder.InitialRegistry(), AppRegistrations());
  }

  lemma AppComplete(r: Recorder.Record)
    requires forall k :: 1 <= k < |LogColumns| ==> LogColumns[k] in r.fields
    ensures Recorder.Complete(AppRegistry().lookup, r)
  {
    var l := AppRegistry().lookup;
    forall i | 0 <= i < |l| && Recorder.Occupied(l[i]) ensures Recorder.Has(r, l[i].value) {
      assert l[i].value == LogColumns[i];
    }
  }
}
