/** The display controller: it owns the current UI state and a draw target,
    and on every tick redraws the whole frame for that state. */
module Display {
  import opened Graphics
  import opened Heapless

  type u32 = x: int | 0 <= x < 0x1_0000_0000
  type u64 = x: int | 0 <= x < 0x1_0000_0000_0000_0000

  /** Display state as requested by higher-level logic. */
  datatype State = Idle | PIN(digits: u32) | Wrong | Correct

  /** Anchor of every text: the centre of the 128x64 panel. */
  const CenterPoint := Point(64, 32)
  const SmallStyle := MonoTextStyle(Font6x10, On)
  const LargeStyle := MonoTextStyle(Font10x20, On)

  const IdleText := "You shall not pass!"
  const PinTemplate := "_ _ _ _"
  const WrongText := "Wrong PIN,"
  const CorrectText := "Welcome back!"

  /** Number of PIN slots on screen, and capacity of the stars buffer. */
  const PinSlots := 4
  const StarsCapacity := 8

  /** The two characters written for slot `i`: a star when that digit has
      been entered, blank otherwise. */
  function Slot(digits: u32, i: nat): string
  {
    if digits > i then "* " else "  "
  }

  /** The stars buffer after the first `n` slots have been pushed. */
  function Slots(digits: u32, n: nat): (r: string)
    ensures |r| == 2 * n
    ensures forall k :: 0 <= k < |r| ==> r[k] == (if k % 2 == 0 && digits > k / 2 then '*' else ' ')
  {
    if n == 0 then "" else Slots(digits, n - 1) + Slot(digits, n - 1)
  }

  /** The masking string drawn over the "_ _ _ _" template: all slots pushed,
      then the trailing character dropped. Position 2i holds a star exactly
      when more than i digits were entered; every odd position is blank. */
  function Stars(digits: u32): (r: string)
    ensures |r| == 2 * PinSlots - 1
    ensures forall k :: 0 <= k < |r| ==> r[k] == (if k % 2 == 0 && digits > k / 2 then '*' else ' ')
  {
    var full := Slots(digits, PinSlots);
    full[..|full| - 1]
  }

  /** Builds the masking string in a fresh capacity-8 buffer, one slot per
      iteration, and drops the last character. `pushed` reports whether every
      push fitted and `popped` what the final pop removed (both results the
      renderer discards). */
  method BuildStars(digits: u32) returns (text: string, pushed: bool, popped: Option<char>)
    ensures pushed
    ensures popped == Some(' ')
    ensures text == Stars(digits)
  {
    var stars := new FixedString(StarsCapacity);
    pushed := true;
    for i := 0 to PinSlots
      invariant fresh(stars.buf) && stars.Valid() && stars.buf.Length == StarsCapacity
      invariant stars.Contents() == Slots(digits, i)
      invariant pushed
    {
      var ok;
      if digits > i {
        ok := stars.PushStr("* ");
      } else {
        ok := stars.PushStr("  ");
      }
      pushed := pushed && ok;
    }
    popped := stars.Pop();
    text := stars.Contents();
  }

  function DrawCentered(s: string, style: MonoTextStyle): Cmd
  {
    DrawText(Text(s, CenterPoint, style, Center))
  }

  /** The draws that make up the view of one state. */
  function View(st: State): seq<Cmd>
  {
    match st
    case Idle => [DrawCentered(IdleText, SmallStyle)]
    case PIN(digits) => [DrawCentered(PinTemplate, LargeStyle), DrawCentered(Stars(digits), LargeStyle)]
    case Correct => [DrawCentered(CorrectText, SmallStyle)]
    case Wrong => [DrawCentered(WrongText, SmallStyle)]
  }

  /** The commands one tick sends to the target in state `st`. */
  function Frame(st: State): seq<Cmd>
  {
    [Cmd.Clear(Off)] + View(st) + [Cmd.Flush]
  }

  /** Main display controller logic. */
  class Controller {
    var state: State
    const target: Target
    const textStyleSmall: MonoTextStyle
    const textStyleLarge: MonoTextStyle

    ghost predicate Valid()
    {
      textStyleSmall == SmallStyle && textStyleLarge == LargeStyle
    }

    /** Wrap an already initialised display; nothing is drawn. */
    constructor (target: Target)
      ensures Valid()
      ensures state == Idle && this.target == target
      ensures unchanged(target)
    {
      this.state := Idle;
      this.target := target;
      this.textStyleSmall := MonoTextStyle(Font6x10, On);
      this.textStyleLarge := MonoTextStyle(Font10x20, On);
    }

    /** Replace the state; rendering waits for the next tick. */
    method SetState(st: State)
      modifies this`state
      ensures state == st
      ensures unchanged(target)
    {
      state := st;
    }

    /** Redraw the whole frame for the current state. The elapsed time `us`
        is not used. */
    method Tick(us: u64)
      requires Valid()
      modifies target
      ensures state == old(state)
      ensures target.log == old(target.log) + Frame(state)
    {
      target.Clear(Off);
      match state {
        case Idle =>
          target.Draw(Text(IdleText, CenterPoint, textStyleSmall, Center));
        case PIN(digits) =>
          target.Draw(Text(PinTemplate, CenterPoint, textStyleLarge, Center));
          var stars, _, _ := BuildStars(digits);
          target.Draw(Text(stars, CenterPoint, textStyleLarge, Center));
        case Correct =>
          target.Draw(Text(CorrectText, CenterPoint, textStyleSmall, Center));
        case Wrong =>
          target.Draw(Text(WrongText, CenterPoint, textStyleSmall, Center));
      }
      target.Flush();
    }
  }
}
