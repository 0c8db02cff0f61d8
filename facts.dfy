/** Properties of the frames the display controller renders and of the
    masking string it builds for PIN entry. */
module DisplayFacts {
  import opened Graphics
  import opened Display

  /** How many slots show a star for `digits` entered digits. */
  function FilledSlots(digits: u32): nat
  {
    if digits < PinSlots then digits else PinSlots
  }

  /** Occurrences of `c` in `s`. */
  function Count(s: string, c: char): nat
  {
    if s == [] then 0 else (if s[0] == c then 1 else 0) + Count(s[1..], c)
  }

  /** `n` copies of `s`, one after another. */
  function Repeat(s: string, n: nat): (r: string)
    ensures |r| == n * |s|
  {
    if n == 0 then "" else s + Repeat(s, n - 1)
  }

  /** The state as it appears on screen: digit counts past the last slot look
      the same as a full PIN. */
  function Shown(st: State): State
  {
    match st
    case PIN(digits) => PIN(FilledSlots(digits))
    case _ => st
  }

  lemma {:induction false} CountConcat(a: string, b: string, c: char)
    ensures Count(a + b, c) == Count(a, c) + Count(b, c)
  {
    if a == [] {
      assert a + b == b;
    } else {
      assert (a + b)[1..] == a[1..] + b;
      CountConcat(a[1..], b, c);
    }
  }

  lemma {:induction false} SlotsStarCount(digits: u32, n: nat)
    ensures Count(Slots(digits, n), '*') == if digits < n then digits else n
  {
    if n > 0 {
      SlotsStarCount(digits, n - 1);
      CountConcat(Slots(digits, n - 1), Slot(digits, n - 1), '*');
      var slot := Slot(digits, n - 1);
      assert Count(slot, '*') == if digits > n - 1 then 1 else 0 by {
        assert |slot| == 2 && slot[1] == ' ';
        assert Count(slot[1..], '*') == 0 by {
          assert slot[1..][1..] == [];
        }
      }
    }
  }

  /** The masking string shows one star per entered digit, at most four. */
  lemma StarCount(digits: u32)
    ensures Count(Stars(digits), '*') == FilledSlots(digits)
  {
    var full := Slots(digits, PinSlots);
    assert full == Stars(digits) + [full[|full| - 1]];
    CountConcat(Stars(digits), [full[|full| - 1]], '*');
    SlotsStarCount(digits, PinSlots);
  }

  lemma {:induction false} RepeatPairAt(s: string, n: nat)
    requires |s| == 2
    ensures |Repeat(s, n)| == 2 * n
    ensures forall k :: 0 <= k < 2 * n ==> Repeat(s, n)[k] == s[k % 2]
  {
    if n > 0 {
      RepeatPairAt(s, n - 1);
      var r := Repeat(s, n);
      assert r == s + Repeat(s, n - 1);
      forall k | 2 <= k < 2 * n
        ensures r[k] == s[k % 2]
      {
        assert r[k] == Repeat(s, n - 1)[k - 2];
      }
    }
  }

  /** The masking string is "* " once per entered digit, then "  " for each
      remaining slot, with the single trailing character trimmed. */
  lemma StarsAsDescribed(digits: u32)
    ensures var m := FilledSlots(digits);
            Stars(digits) == (Repeat("* ", m) + Repeat("  ", PinSlots - m))[..2 * PinSlots - 1]
  {
    var m := FilledSlots(digits);
    RepeatPairAt("* ", m);
    RepeatPairAt("  ", PinSlots - m);
    var full := Repeat("* ", m) + Repeat("  ", PinSlots - m);
    forall k | 0 <= k < 2 * PinSlots - 1
      ensures Stars(digits)[k] == full[k]
    {
      if k < 2 * m {
        assert full[k] == "* "[k % 2];
      } else {
        assert full[k] == "  "[(k - 2 * m) % 2];
      }
    }
  }

  /** Entering more digits than there are slots renders like a full PIN. */
  lemma StarsSaturate(digits: u32)
    requires digits >= PinSlots
    ensures Stars(digits) == Stars(PinSlots)
  {
  }

  /** Two digit counts give the same masking string exactly when they fill the
      same number of slots. */
  lemma StarsInjective(d1: u32, d2: u32)
    ensures Stars(d1) == Stars(d2) <==> FilledSlots(d1) == FilledSlots(d2)
  {
    if Stars(d1) == Stars(d2) {
      StarCount(d1);
      StarCount(d2);
    }
    if FilledSlots(d1) == FilledSlots(d2) {
      StarsAsDescribed(d1);
      StarsAsDescribed(d2);
    }
  }

  /** Every frame is one clear to Off, then only centred texts, then one
      flush; the PIN view draws two large texts, every other view one small
      text. */
  lemma FrameLayout(st: State)
    ensures var f := Frame(st);
            && |f| == (if st.PIN? then 4 else 3)
            && f[0] == Cmd.Clear(Off)
            && f[|f| - 1] == Cmd.Flush
            && (forall k :: 0 <= k < |f| ==> (f[k].Clear? <==> k == 0) && (f[k].Flush? <==> k == |f| - 1))
            && (forall k :: 0 < k < |f| - 1 ==>
                  && f[k].DrawText?
                  && f[k].t.position == Point(64, 32)
                  && f[k].t.alignment == Center
                  && f[k].t.style == (if st.PIN? then LargeStyle else SmallStyle))
  {
  }

  /** The texts each view draws, in order. */
  lemma FrameTexts(st: State)
    ensures st == Idle ==> Frame(st)[1].t.text == "You shall not pass!"
    ensures st == Correct ==> Frame(st)[1].t.text == "Welcome back!"
    ensures st == Wrong ==> Frame(st)[1].t.text == "Wrong PIN,"
    ensures st.PIN? ==> Frame(st)[1].t.text == "_ _ _ _" && Frame(st)[2].t.text == Stars(st.digits)
  {
  }

  /** Two states render the same frame exactly when they look the same on
      screen: the frame depends on nothing but the shown state, and distinct
      shown states give distinct frames. */
  lemma FrameInjective(s1: State, s2: State)
    ensures Frame(s1) == Frame(s2) <==> Shown(s1) == Shown(s2)
  {
    if Frame(s1) == Frame(s2) {
      assert Frame(s1)[1] == Frame(s2)[1];
      assert |Frame(s1)| == |Frame(s2)|;
      if s1.PIN? && s2.PIN? {
        assert Frame(s1)[2] == Frame(s2)[2];
        StarsInjective(s1.digits, s2.digits);
      }
    }
    if Shown(s1) == Shown(s2) && s1.PIN? {
      StarsInjective(s1.digits, s2.digits);
    }
  }
}
