/**
 * The search bar's debounce. Every keystroke is forwarded at once, untrimmed,
 * to the optional immediate callback; it also replaces the single pending
 * timer with one that, `delay` milliseconds later, hands the trimmed value to
 * the settled callback. Time is an integer clock in milliseconds that advances
 * only through Elapse steps; a timer fires during the Elapse that reaches its
 * due time.
 */
module Debounce {
  import opened Wrappers
  import opened Text

  const DefaultDelay: int := 400

  /** The scheduled settled call: when it fires and the raw value it will trim. */
  datatype Timer = Timer(fireAt: int, value: string)

  /** The controller: the clock and the one timer handle (at most one pending call). */
  datatype Bar = Bar(now: int, pending: Option<Timer>)

  datatype Input = Keystroke(value: string) | Elapse(dt: nat)

  /** What the callbacks observe: an immediate `onChange(value)` or a settled `onSearch(term)` at a time. */
  datatype Effect = Changed(value: string) | Searched(at: int, term: string)

  /** setTimeout runs a negative delay as 0. */
  function EffectiveDelay(delay: int): nat {
    if delay < 0 then 0 else delay
  }

  /** The delay the component uses: the `delay` prop, 400 when it is not given. */
  function DelayOf(prop: Option<int>): int {
    prop.GetOr(DefaultDelay)
  }

  /** The controller after one input. */
  function Next(b: Bar, i: Input, delay: int): Bar {
    match i
    case Keystroke(v) => Bar(b.now, Some(Timer(b.now + EffectiveDelay(delay), v)))
    case Elapse(dt) =>
      if b.pending.Some? && b.pending.value.fireAt <= b.now + dt then Bar(b.now + dt, None)
      else Bar(b.now + dt, b.pending)
  }

  /** What the callbacks observe during one input. */
  function Emitted(b: Bar, i: Input, delay: int, hasOnChange: bool): seq<Effect> {
    match i
    case Keystroke(v) => if hasOnChange then [Changed(v)] else []
    case Elapse(dt) =>
      if b.pending.Some? && b.pending.value.fireAt <= b.now + dt then
        [Searched(b.pending.value.fireAt, Trim(b.pending.value.value))]
      else []
  }

  /** The controller after a sequence of inputs. */
  function Final(b: Bar, inputs: seq<Input>, delay: int): Bar
    decreases |inputs|
  {
    if inputs == [] then b else Final(Next(b, inputs[0], delay), inputs[1..], delay)
  }

  /** Everything the callbacks observe during a sequence of inputs, in order. */
  function Effects(b: Bar, inputs: seq<Input>, delay: int, hasOnChange: bool): seq<Effect>
    decreases |inputs|
  {
    if inputs == [] then []
    else Emitted(b, inputs[0], delay, hasOnChange) + Effects(Next(b, inputs[0], delay), inputs[1..], delay, hasOnChange)
  }

  /** A pending timer is due no earlier than now and no later than one delay from now. */
  ghost predicate WellTimed(b: Bar, delay: int) {
    b.pending.Some? ==> b.now <= b.pending.value.fireAt <= b.now + EffectiveDelay(delay)
  }

  class SearchBar {
    const delay: int
    const hasOnChange: bool
    var now: int
    var pending: Option<Timer>

    function State(): Bar
      reads this
    {
      Bar(now, pending)
    }

    ghost predicate Valid()
      reads this
    {
      WellTimed(State(), delay)
    }

    constructor (delayProp: Option<int>, hasOnChange: bool)
      ensures delay == DelayOf(delayProp) && this.hasOnChange == hasOnChange
      ensures State() == Bar(0, None) && Valid()
    {
      delay := delayProp.GetOr(DefaultDelay);
      this.hasOnChange := hasOnChange;
      now, pending := 0, None;
    }

    /** handleChange: forward the raw value, cancel the pending timer, schedule a new one. */
    method HandleChange(value: string) returns (changed: Option<string>)
      requires Valid()
      modifies this
      ensures Valid()
      ensures State() == Next(old(State()), Keystroke(value), delay)
      ensures (if changed.Some? then [Changed(changed.value)] else [])
           == Emitted(old(State()), Keystroke(value), delay, hasOnChange)
    {
      if hasOnChange {
        changed := Some(value);
      } else {
        changed := None;
      }
      var wait := if delay < 0 then 0 else delay;
      pending := Some(Timer(now + wait, value));
    }

    /**
     * Let `dt` milliseconds pass; the pending timer fires if it falls due
     * meanwhile, and then at a time within this pause, never one already past.
     */
    method Wait(dt: nat) returns (searched: Option<(int, string)>)
      requires Valid()
      modifies this
      ensures Valid()
      ensures State() == Next(old(State()), Elapse(dt), delay)
      ensures (if searched.Some? then [Searched(searched.value.0, searched.value.1)] else [])
           == Emitted(old(State()), Elapse(dt), delay, hasOnChange)
      ensures searched.Some? ==> old(now) <= searched.value.0 <= now
    {
      var t := now + dt;
      searched := None;
      if pending.Some? && pending.value.fireAt <= t {
        searched := Some((pending.value.fireAt, Trim(pending.value.value)));
        pending := None;
      }
      now := t;
    }
  }

  // ---------------------------------------------------------------------------
  // Single steps

  /** The default delay is 400 milliseconds. */
  lemma DefaultDelayIs400()
    ensures DelayOf(None) == 400
    ensures forall d :: DelayOf(Some(d)) == d
  {
  }

  /**
   * A keystroke forwards the raw, untrimmed value at once (when an immediate
   * callback is given), fires nothing, and leaves exactly one pending timer,
   * for this value, in place of any earlier one.
   */
  lemma KeystrokeReplacesTimer(b: Bar, v: string, delay: int, hasOnChange: bool)
    ensures Next(b, Keystroke(v), delay) == Bar(b.now, Some(Timer(b.now + EffectiveDelay(delay), v)))
    ensures Emitted(b, Keystroke(v), delay, hasOnChange) == (if hasOnChange then [Changed(v)] else [])
  {
  }

  /** Every step keeps the pending timer within one delay of the clock. */
  lemma StepKeepsWellTimed(b: Bar, i: Input, delay: int)
    requires WellTimed(b, delay)
    ensures WellTimed(Next(b, i, delay), delay)
  {
  }

  /** An Elapse fires at most once, and what it hands over is the trimmed value of the pending timer. */
  lemma ElapseFiresPendingOnly(b: Bar, dt: nat, delay: int, hasOnChange: bool)
    ensures var out := Emitted(b, Elapse(dt), delay, hasOnChange);
      && |out| <= 1
      && (out != [] <==> b.pending.Some? && b.pending.value.fireAt <= b.now + dt)
      && (out != [] ==> out[0] == Searched(b.pending.value.fireAt, Trim(b.pending.value.value))
                        && Next(b, Elapse(dt), delay).pending == None)
  {
  }

  // ---------------------------------------------------------------------------
  // Runs

  lemma {:induction false} FinalAppend(b: Bar, xs: seq<Input>, ys: seq<Input>, delay: int)
    ensures Final(b, xs + ys, delay) == Final(Final(b, xs, delay), ys, delay)
    decreases |xs|
  {
    if xs == [] {
      assert xs + ys == ys;
    } else {
      assert (xs + ys)[0] == xs[0];
      assert (xs + ys)[1..] == xs[1..] + ys;
      FinalAppend(Next(b, xs[0], delay), xs[1..], ys, delay);
    }
  }

  lemma {:induction false} EffectsAppend(b: Bar, xs: seq<Input>, ys: seq<Input>, delay: int, hasOnChange: bool)
    ensures Effects(b, xs + ys, delay, hasOnChange)
         == Effects(b, xs, delay, hasOnChange) + Effects(Final(b, xs, delay), ys, delay, hasOnChange)
    decreases |xs|
  {
    if xs == [] {
      assert xs + ys == ys;
      assert [] + Effects(b, ys, delay, hasOnChange) == Effects(b, ys, delay, hasOnChange);
    } else {
      var c := Next(b, xs[0], delay);
      var o := Emitted(b, xs[0], delay, hasOnChange);
      assert (xs + ys)[0] == xs[0];
      assert (xs + ys)[1..] == xs[1..] + ys;
      EffectsAppend(c, xs[1..], ys, delay, hasOnChange);
      var p1 := Effects(c, xs[1..], delay, hasOnChange);
      var p2 := Effects(Final(c, xs[1..], delay), ys, delay, hasOnChange);
      assert o + (p1 + p2) == (o + p1) + p2;
    }
  }

  lemma {:induction false} RunKeepsWellTimed(b: Bar, inputs: seq<Input>, delay: int)
    requires WellTimed(b, delay)
    ensures WellTimed(Final(b, inputs, delay), delay)
    decreases |inputs|
  {
    if inputs != [] {
      StepKeepsWellTimed(b, inputs[0], delay);
      RunKeepsWellTimed(Next(b, inputs[0], delay), inputs[1..], delay);
    }
  }

  /** Keystrokes `vs`, separated by the pauses `gaps`, followed by a final pause of `last` milliseconds. */
  function Burst(vs: seq<string>, gaps: seq<nat>, last: nat): (inputs: seq<Input>)
    requires |vs| == |gaps| + 1
    decreases |gaps|
  {
    if gaps == [] then [Keystroke(vs[0]), Elapse(last)]
    else [Keystroke(vs[0]), Elapse(gaps[0])] + Burst(vs[1..], gaps[1..], last)
  }

  function Sum(gaps: seq<nat>): nat {
    if gaps == [] then 0 else gaps[0] + Sum(gaps[1..])
  }

  function ChangedAll(vs: seq<string>): (out: seq<Effect>)
    ensures |out| == |vs| && forall i :: 0 <= i < |vs| ==> out[i] == Changed(vs[i])
  {
    if vs == [] then [] else [Changed(vs[0])] + ChangedAll(vs[1..])
  }

  /** A keystroke followed by a pause: where the controller ends up and what is observed. */
  lemma KeystrokeThenPause(b: Bar, v: string, gap: nat, delay: int, hasOnChange: bool)
    ensures var d := EffectiveDelay(delay);
      Final(b, [Keystroke(v), Elapse(gap)], delay)
        == (if d <= gap then Bar(b.now + gap, None) else Bar(b.now + gap, Some(Timer(b.now + d, v))))
    ensures var d := EffectiveDelay(delay);
      Effects(b, [Keystroke(v), Elapse(gap)], delay, hasOnChange)
        == (if hasOnChange then [Changed(v)] else [])
           + (if d <= gap then [Searched(b.now + d, Trim(v))] else [])
  {
    var ins := [Keystroke(v), Elapse(gap)];
    assert ins[1..] == [Elapse(gap)];
    assert ins[1..][1..] == [];
    var b1 := Next(b, Keystroke(v), delay);
    var b2 := Next(b1, Elapse(gap), delay);
    assert Final(b1, [Elapse(gap)], delay) == Final(b2, [], delay) == b2;
    var fired := Emitted(b1, Elapse(gap), delay, hasOnChange);
    assert Effects(b1, [Elapse(gap)], delay, hasOnChange) == fired + [];
    assert fired + [] == fired;
  }

  /** A keystroke followed by a pause shorter than the delay: the value is pending and nothing has fired. */
  lemma KeystrokeThenShortPause(b: Bar, v: string, gap: nat, delay: int, hasOnChange: bool)
    requires gap < EffectiveDelay(delay)
    ensures Final(b, [Keystroke(v), Elapse(gap)], delay)
         == Bar(b.now + gap, Some(Timer(b.now + EffectiveDelay(delay), v)))
    ensures Effects(b, [Keystroke(v), Elapse(gap)], delay, hasOnChange)
         == (if hasOnChange then [Changed(v)] else [])
  {
    KeystrokeThenPause(b, v, gap, delay, hasOnChange);
    var head := if hasOnChange then [Changed(v)] else [];
    assert head + [] == head;
  }

  lemma RegroupEffects(a: seq<Effect>, b: seq<Effect>, c: seq<Effect>)
    ensures a + (b + c) == (a + b) + c
  {
  }

  /** What a burst whose pauses are all shorter than the delay shows the callbacks. */
  function BurstEffects(at: int, vs: seq<string>, term: string, d: int, hasOnChange: bool): seq<Effect> {
    (if hasOnChange then ChangedAll(vs) else []) + [Searched(at + d, term)]
  }

  /**
   * Only the last keystroke of a burst fires: when every pause between
   * keystrokes is shorter than the delay and the final pause reaches it, the
   * settled callback runs exactly once, one delay after the last keystroke,
   * with that keystroke's trimmed value; every keystroke was forwarded raw.
   */
  lemma {:induction false} BurstSettlesOnce(b: Bar, vs: seq<string>, gaps: seq<nat>, last: nat, delay: int, hasOnChange: bool)
    requires |vs| == |gaps| + 1
    requires forall i :: 0 <= i < |gaps| ==> gaps[i] < EffectiveDelay(delay)
    requires last >= EffectiveDelay(delay)
    ensures Effects(b, Burst(vs, gaps, last), delay, hasOnChange)
         == BurstEffects(b.now + Sum(gaps), vs, Trim(vs[|vs| - 1]), EffectiveDelay(delay), hasOnChange)
    ensures Final(b, Burst(vs, gaps, last), delay) == Bar(b.now + Sum(gaps) + last, None)
    decreases |gaps|
  {
    if gaps == [] {
      BurstOfOne(b, vs, last, delay, hasOnChange);
    } else {
      var b2 := Bar(b.now + gaps[0], Some(Timer(b.now + EffectiveDelay(delay), vs[0])));
      assert forall i :: 0 <= i < |gaps[1..]| ==> gaps[1..][i] == gaps[i + 1];
      BurstSettlesOnce(b2, vs[1..], gaps[1..], last, delay, hasOnChange);
      assert vs[1..][|vs[1..]| - 1] == vs[|vs| - 1];
      BurstExtendFinal(b, vs, gaps, last, delay);
      BurstExtendEffects(b, vs, gaps, last, delay, hasOnChange, Trim(vs[|vs| - 1]));
    }
  }

  /** A burst with at least one pause is its first keystroke and pause followed by the rest of the burst. */
  lemma BurstCons(vs: seq<string>, gaps: seq<nat>, last: nat)
    requires |vs| == |gaps| + 1 && gaps != []
    ensures Burst(vs, gaps, last) == [Keystroke(vs[0]), Elapse(gaps[0])] + Burst(vs[1..], gaps[1..], last)
    ensures Sum(gaps) == gaps[0] + Sum(gaps[1..])
  {
  }

  /** The controller after `first + rest`, from where `first` leaves it and where `rest` takes it from there. */
  lemma FinalChain(b: Bar, first: seq<Input>, rest: seq<Input>, delay: int, b2: Bar, b3: Bar)
    requires Final(b, first, delay) == b2
    requires Final(b2, rest, delay) == b3
    ensures Final(b, first + rest, delay) == b3
  {
    FinalAppend(b, first, rest, delay);
  }

  /** One more keystroke and short pause in front of a burst that settles once leaves nothing pending. */
  lemma BurstExtendFinal(b: Bar, vs: seq<string>, gaps: seq<nat>, last: nat, delay: int)
    requires |vs| == |gaps| + 1 && gaps != []
    requires gaps[0] < EffectiveDelay(delay)
    requires var b2 := Bar(b.now + gaps[0], Some(Timer(b.now + EffectiveDelay(delay), vs[0])));
      Final(b2, Burst(vs[1..], gaps[1..], last), delay) == Bar(b2.now + Sum(gaps[1..]) + last, None)
    ensures Final(b, Burst(vs, gaps, last), delay) == Bar(b.now + Sum(gaps) + last, None)
  {
    var b2 := Bar(b.now + gaps[0], Some(Timer(b.now + EffectiveDelay(delay), vs[0])));
    BurstCons(vs, gaps, last);
    KeystrokeThenShortPause(b, vs[0], gaps[0], delay, false);
    FinalChain(b, [Keystroke(vs[0]), Elapse(gaps[0])], Burst(vs[1..], gaps[1..], last), delay,
               b2, Bar(b2.now + Sum(gaps[1..]) + last, None));
  }

  /** A burst of one keystroke and a pause that reaches the delay fires that keystroke's trimmed value. */
  lemma BurstOfOne(b: Bar, vs: seq<string>, last: nat, delay: int, hasOnChange: bool)
    requires |vs| == 1 && last >= EffectiveDelay(delay)
    ensures Effects(b, Burst(vs, [], last), delay, hasOnChange)
         == BurstEffects(b.now + Sum([]), vs, Trim(vs[|vs| - 1]), EffectiveDelay(delay), hasOnChange)
    ensures Final(b, Burst(vs, [], last), delay) == Bar(b.now + Sum([]) + last, None)
  {
    KeystrokeThenPause(b, vs[0], last, delay, hasOnChange);
    assert ChangedAll(vs) == [Changed(vs[0])];
  }

  /** The effects of a burst: those of its first keystroke and short pause, then those of the rest. */
  lemma BurstEffectsStep(b: Bar, vs: seq<string>, gaps: seq<nat>, last: nat, delay: int, hasOnChange: bool)
    requires |vs| == |gaps| + 1 && gaps != []
    requires gaps[0] < EffectiveDelay(delay)
    ensures Effects(b, Burst(vs, gaps, last), delay, hasOnChange)
         == (if hasOnChange then [Changed(vs[0])] else [])
            + Effects(Bar(b.now + gaps[0], Some(Timer(b.now + EffectiveDelay(delay), vs[0]))),
                      Burst(vs[1..], gaps[1..], last), delay, hasOnChange)
  {
    var first := [Keystroke(vs[0]), Elapse(gaps[0])];
    var rest := Burst(vs[1..], gaps[1..], last);
    BurstCons(vs, gaps, last);
    KeystrokeThenShortPause(b, vs[0], gaps[0], delay, hasOnChange);
    EffectsAppend(b, first, rest, delay, hasOnChange);
  }

  /** One more keystroke and short pause in front of a burst that settles once still fires once. */
  lemma BurstExtendEffects(b: Bar, vs: seq<string>, gaps: seq<nat>, last: nat, delay: int, hasOnChange: bool, term: string)
    requires |vs| == |gaps| + 1 && gaps != []
    requires gaps[0] < EffectiveDelay(delay)
    requires var b2 := Bar(b.now + gaps[0], Some(Timer(b.now + EffectiveDelay(delay), vs[0])));
      Effects(b2, Burst(vs[1..], gaps[1..], last), delay, hasOnChange)
      == BurstEffects(b2.now + Sum(gaps[1..]), vs[1..], term, EffectiveDelay(delay), hasOnChange)
    ensures Effects(b, Burst(vs, gaps, last), delay, hasOnChange)
         == BurstEffects(b.now + Sum(gaps), vs, term, EffectiveDelay(delay), hasOnChange)
  {
    var d := EffectiveDelay(delay);
    var at := b.now + Sum(gaps);
    BurstCons(vs, gaps, last);
    BurstEffectsStep(b, vs, gaps, last, delay, hasOnChange);
    BurstEffectsCons(at, vs, term, d, hasOnChange);
  }

  /** The expected effects of a burst, split after its first keystroke. */
  lemma BurstEffectsCons(at: int, vs: seq<string>, term: string, d: int, hasOnChange: bool)
    requires vs != []
    ensures BurstEffects(at, vs, term, d, hasOnChange)
         == (if hasOnChange then [Changed(vs[0])] else []) + BurstEffects(at, vs[1..], term, d, hasOnChange)
  {
    var head := if hasOnChange then [Changed(vs[0])] else [];
    var tail := if hasOnChange then ChangedAll(vs[1..]) else [];
    assert hasOnChange ==> ChangedAll(vs) == head + tail;
    RegroupEffects(head, tail, [Searched(at + d, term)]);
  }

  /**
   * Keystrokes at t = 0, 100 and 200 with the default delay: the settled
   * callback fires once, at t = 600, with the trimmed value typed at t = 200.
   */
  lemma ThreeKeystrokeSchedule(x: string, y: string, z: string, hasOnChange: bool)
    ensures Effects(Bar(0, None), Burst([x, y, z], [100, 100], 1000), DefaultDelay, hasOnChange)
         == (if hasOnChange then [Changed(x), Changed(y), Changed(z)] else []) + [Searched(600, Trim(z))]
    ensures Final(Bar(0, None), Burst([x, y, z], [100, 100], 1000), DefaultDelay).pending == None
  {
    BurstSettlesOnce(Bar(0, None), [x, y, z], [100, 100], 1000, DefaultDelay, hasOnChange);
    assert Sum([100, 100]) == 200 by {
      assert [100, 100][1..] == [100];
      assert [100][1..] == [];
    }
    if hasOnChange {
      assert ChangedAll([x, y, z]) == [Changed(x), Changed(y), Changed(z)];
    }
  }

  /** A whitespace-only value is still delivered, as the empty string. */
  lemma WhitespaceOnlyStillDelivered(b: Bar, v: string, delay: int, hasOnChange: bool)
    requires AllWhitespace(v)
    ensures var out := Effects(b, [Keystroke(v), Elapse(EffectiveDelay(delay))], delay, hasOnChange);
      out != [] && out[|out| - 1] == Searched(b.now + EffectiveDelay(delay), "")
  {
    KeystrokeThenPause(b, v, EffectiveDelay(delay), delay, hasOnChange);
    TrimWhitespaceOnly(v);
  }
}
