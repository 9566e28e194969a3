/** Runs of the dialer over sequences of input events (key presses, pointer
    presses and frames), and what holds over every run: the invariant, the
    address bound, lock accounting, and the scenarios of a full episode. */
module Traces {
  import opened Config
  import opened Dialer
  import C = Controls

  /** One input to the dialer: a key press, a left-button press at a screen
      point, or a frame. Each carries the clock reading `now` in milliseconds;
      a frame also carries the seconds elapsed since the previous frame. */
  datatype Event = KeyDown(key: int, now: int) | Pointer(x: int, y: int, now: int) | Frame(now: int, dt: real)

  function Step(g: Gate, e: Event): (r: Gate)
    ensures Inv(g) ==> Inv(r)
    ensures e.Frame? && g.state == Idle ==> r == g
  {
    match e
    case KeyDown(key, now) => HandleKey(g, key, now)
    case Pointer(x, y, now) => PointerPress(g, x, y, now)
    case Frame(now, dt) => Update(g, now, dt)
  }

  /** A left-button press on the panel, tested against the buttons as laid out. */
  function PointerPress(g: Gate, x: int, y: int, now: int): (r: Gate)
    ensures Inv(g) ==> Inv(r)
    ensures C.FirstHit(C.ClickTargets(), x, y).None? ==> r == g
    ensures C.FirstHit(C.ClickTargets(), x, y).Some? ==>
              C.WellFormed(C.ClickTargets()[C.FirstHit(C.ClickTargets(), x, y).value].action) &&
              r == Activate(g, C.ClickTargets()[C.FirstHit(C.ClickTargets(), x, y).value].action, now)
  {
    C.ClickTargetsWellFormed();
    Click(g, C.ClickTargets(), x, y, now)
  }

  function Run(g: Gate, es: seq<Event>): Gate
    decreases |es|
  {
    if es == [] then g else Run(Step(g, es[0]), es[1..])
  }

  lemma {:induction false} RunAppend(g: Gate, a: seq<Event>, b: seq<Event>)
    ensures Run(g, a + b) == Run(Run(g, a), b)
    decreases |a|
  {
    if a == [] {
      assert a + b == b;
    } else {
      assert (a + b)[0] == a[0];
      assert (a + b)[1..] == a[1..] + b;
      RunAppend(Step(g, a[0]), a[1..], b);
    }
  }

  /** Every run from a state satisfying the invariant ends in one that does;
      in particular the composed address never holds more than nine symbols. */
  lemma {:induction false} RunPreservesInv(g: Gate, es: seq<Event>)
    requires Inv(g)
    ensures Inv(Run(g, es))
    ensures |Run(g, es).entered| <= MaxAddressLength
    decreases |es|
  {
    if es != [] {
      RunPreservesInv(Step(g, es[0]), es[1..]);
    }
  }

  /** The cue log only grows, and unless the gate was closed, the lock count
      grew by exactly the number of lock cues played. */
  predicate LocksAccounted(g: Gate, r: Gate) {
    |g.cues| <= |r.cues| && r.cues[..|g.cues|] == g.cues &&
    (Close !in r.cues[|g.cues|..] ==> r.locked == g.locked + multiset(r.cues[|g.cues|..])[Lock])
  }

  /** One event: the lock count rises by at most one, with a lock cue, and
      falls only when a close cue resets the gate. */
  lemma StepAccounting(g: Gate, e: Event)
    requires Inv(g)
    ensures LocksAccounted(g, Step(g, e))
    ensures Step(g, e).locked <= g.locked + 1
    ensures Step(g, e).locked < g.locked ==>
              Step(g, e).state == Idle && Step(g, e).locked == 0 && Close in Step(g, e).cues[|g.cues|..]
  {
    match e
    case KeyDown(key, now) => KeyAccounting(g, key, now);
    case Pointer(x, y, now) => {
      match C.FirstHit(C.ClickTargets(), x, y)
      case None => {
        assert Step(g, e).cues[|g.cues|..] == [];
      }
      case Some(k) => {
        ActivateAccounting(g, C.ClickTargets()[k].action, now);
      }
    }
    case Frame(now, dt) => FrameAccounting(g, now, dt);
  }

  lemma KeyAccounting(g: Gate, key: int, now: int)
    requires Inv(g)
    ensures var r := HandleKey(g, key, now);
      LocksAccounted(g, r) && r.locked <= g.locked &&
      (r.locked < g.locked ==> r.state == Idle && r.locked == 0 && Close in r.cues[|g.cues|..])
  {
    var a: C.Action;
    if Key1 <= key <= Key9 {
      a := C.Glyph(key - Key1);
    } else if key == KeyReturn {
      a := C.Dial;
    } else if key == KeyBackspace {
      a := C.Back;
    } else if key == KeyDelete {
      a := C.Clear;
    } else if key == KeyEscape {
      a := C.Close;
    } else {
      assert HandleKey(g, key, now).cues[|g.cues|..] == [];
      return;
    }
    assert HandleKey(g, key, now) == Activate(g, a, now);
    ActivateAccounting(g, a, now);
  }

  lemma FrameAccounting(g: Gate, now: int, dt: real)
    requires Inv(g)
    ensures var r := Update(g, now, dt);
      LocksAccounted(g, r) && r.locked <= g.locked + 1 && g.locked <= r.locked
  {
    var r := Update(g, now, dt);
    if g.state == Dialing && now >= g.nextLockAt {
      if r.state == Opening {
        assert r.cues[|g.cues|..] == [Lock, Kawoosh];
        assert multiset([Lock, Kawoosh])[Lock] == 1;
      } else {
        assert r.cues[|g.cues|..] == [Lock];
      }
    } else {
      assert r.cues == g.cues && r.locked == g.locked;
      assert r.cues[|g.cues|..] == [];
    }
  }

  lemma ActivateAccounting(g: Gate, a: C.Action, now: int)
    requires Inv(g)
    requires a.Preset? ==> a.name in KnownAddresses
    ensures var r := Activate(g, a, now);
      LocksAccounted(g, r) && r.locked <= g.locked &&
      (r.locked < g.locked ==> r.state == Idle && r.locked == 0 && Close in r.cues[|g.cues|..])
  {
    var r := Activate(g, a, now);
    if r.cues == g.cues {
      assert r.cues[|g.cues|..] == [];
    } else if r.cues == g.cues + [Press] {
      assert r.cues[|g.cues|..] == [Press];
    } else if r.cues == g.cues + [Error] {
      assert r.cues[|g.cues|..] == [Error];
    } else {
      assert r.cues == g.cues + [Close];
      assert r.cues[|g.cues|..] == [Close];
    }
  }

  /** Lock accounting composes along a run. */
  lemma AccountedTrans(g: Gate, m: Gate, r: Gate)
    requires LocksAccounted(g, m) && LocksAccounted(m, r)
    ensures LocksAccounted(g, r)
  {
    var n1 := m.cues[|g.cues|..];
    var n2 := r.cues[|m.cues|..];
    assert m.cues == g.cues + n1;
    assert r.cues == m.cues + n2;
    assert r.cues[..|g.cues|] == g.cues;
    assert r.cues[|g.cues|..] == n1 + n2;
    if Close !in n1 + n2 {
      assert Close !in n1 && Close !in n2;
      assert multiset(n1 + n2) == multiset(n1) + multiset(n2);
    }
  }

  /** Over any run, unless the gate is closed along the way, the lock count
      rises by exactly one per lock cue and never falls. */
  lemma {:induction false} RunAccounting(g: Gate, es: seq<Event>)
    requires Inv(g)
    ensures LocksAccounted(g, Run(g, es))
    ensures Close !in Run(g, es).cues[|g.cues|..] ==> g.locked <= Run(g, es).locked
    decreases |es|
  {
    if es == [] {
      assert Run(g, es).cues[|g.cues|..] == [];
    } else {
      var m := Step(g, es[0]);
      StepAccounting(g, es[0]);
      RunAccounting(m, es[1..]);
      assert Run(g, es) == Run(m, es[1..]);
      AccountedTrans(g, m, Run(m, es[1..]));
    }
  }

  /** After a close, frames alone never lock a chevron: an idle gate ignores them. */
  lemma {:induction false} IdleIgnoresFrames(g: Gate, es: seq<Event>)
    requires g.state == Idle
    requires forall i :: 0 <= i < |es| ==> es[i].Frame?
    ensures Run(g, es) == g
    decreases |es|
  {
    if es != [] {
      IdleIgnoresFrames(Step(g, es[0]), es[1..]);
    }
  }

  /** Frames at each chevron deadline of an undisturbed dialing sequence:
      the first at t, then one every LockIntervalMs. */
  function LockFrames(t: int, k: nat, dt: real): (es: seq<Event>)
    ensures |es| == k
    ensures forall i :: 0 <= i < k ==> es[i] == Frame(t + LockIntervalMs * i, dt)
    decreases k
  {
    if k == 0 then [] else [Frame(t, dt)] + LockFrames(t + LockIntervalMs, k - 1, dt)
  }

  /** Dialing locks the remaining chevrons one per deadline and, with the
      last one, starts opening the wormhole. */
  lemma {:induction false} DialingOpens(g: Gate, dt: real)
    requires Inv(g) && g.state == Dialing
    ensures var r := Run(g, LockFrames(g.nextLockAt, |g.current| - g.locked, dt));
      r.state == Opening && r.locked == |g.current| && r.current == g.current && r.entered == g.entered &&
      r.openFinishAt == g.nextLockAt + LockIntervalMs * (|g.current| - g.locked - 1) + OpenDurationMs
    decreases |g.current| - g.locked
  {
    var k := |g.current| - g.locked;
    var es := LockFrames(g.nextLockAt, k, dt);
    var m := Step(g, es[0]);
    assert Run(g, es) == Run(m, es[1..]);
    if k == 1 {
      assert es[1..] == [];
    } else {
      assert m.state == Dialing && m.nextLockAt == g.nextLockAt + LockIntervalMs;
      assert es[1..] == LockFrames(m.nextLockAt, |m.current| - m.locked, dt);
      DialingOpens(m, dt);
    }
  }

  /** A complete episode: started at time t, an address of n symbols is
      connected after n lock frames and one more frame at the opening deadline. */
  lemma EpisodeConnects(g: Gate, t: int, dt: real)
    requires Inv(g) && g.state == Idle && |g.entered| >= MinAddressLength
    ensures var n := |g.entered|;
      var finish := t + FirstLockDelayMs + LockIntervalMs * (n - 1) + OpenDurationMs;
      var r := Run(g, [KeyDown(KeyReturn, t)] + LockFrames(t + FirstLockDelayMs, n, dt) + [Frame(finish, dt)]);
      r.state == Connected && r.locked == n && r.current == g.entered && r.connectedSince == finish
  {
    var n := |g.entered|;
    var finish := t + FirstLockDelayMs + LockIntervalMs * (n - 1) + OpenDurationMs;
    var d := EnterDials(g, t);
    var frames := LockFrames(t + FirstLockDelayMs, n, dt);
    DialingOpens(d, dt);
    var o := Run(d, frames);
    RunAppend(g, [KeyDown(KeyReturn, t)], frames);
    RunAppend(g, [KeyDown(KeyReturn, t)] + frames, [Frame(finish, dt)]);
    OpeningConnects(o, finish, dt);
  }

  /** Enter on an idle gate with a long enough address starts dialing it. */
  lemma EnterDials(g: Gate, t: int) returns (d: Gate)
    requires Inv(g) && g.state == Idle && |g.entered| >= MinAddressLength
    ensures d == Run(g, [KeyDown(KeyReturn, t)])
    ensures Inv(d) && d.state == Dialing && d.locked == 0 && d.current == g.entered &&
            d.entered == g.entered && d.nextLockAt == t + FirstLockDelayMs
  {
    d := Step(g, KeyDown(KeyReturn, t));
    assert Run(g, [KeyDown(KeyReturn, t)]) == Run(d, []);
  }

  /** A frame at or after the opening deadline connects the gate. */
  lemma OpeningConnects(o: Gate, now: int, dt: real)
    requires o.state == Opening && now >= o.openFinishAt
    ensures Run(o, [Frame(now, dt)]) == o.(state := Connected, connectedSince := now, status := Established)
  {
    assert Run(o, [Frame(now, dt)]) == Run(Step(o, Frame(now, dt)), []);
  }

  /** Pressing the first preset button loads that preset. */
  lemma PressFirstPreset(g: Gate, now: int)
    ensures Step(g, Pointer(C.PresetLeft, C.PresetTop, now)) == LoadPreset(g, PresetNames[0])
  {
    C.ClickTargetsWellFormed();
    C.TargetAt(0);
  }

  /** Scenario: starting at time t, load Abydos with the pointer, dial it,
      and let the frames run: the gate connects with all seven chevrons locked. */
  lemma AbydosConnects(t: int, dt: real)
    ensures var r := Run(Initial(),
                         [Pointer(760, 38, t), KeyDown(KeyReturn, t)] + LockFrames(t + 450, 7, dt) + [Frame(t + 4910, dt)]);
      r.state == Connected && r.locked == 7 && r.current == KnownAddresses["Abydos"]
  {
    var g := Step(Initial(), Pointer(760, 38, t));
    PressFirstPreset(Initial(), t);
    assert g.entered == KnownAddresses["Abydos"] && g.state == Idle && Inv(g);
    EpisodeConnects(g, t, dt);
    var rest := [KeyDown(KeyReturn, t)] + LockFrames(t + 450, 7, dt) + [Frame(t + 4910, dt)];
    assert [Pointer(760, 38, t), KeyDown(KeyReturn, t)] + LockFrames(t + 450, 7, dt) + [Frame(t + 4910, dt)]
        == [Pointer(760, 38, t)] + rest;
    RunAppend(Initial(), [Pointer(760, 38, t)], rest);
    assert Run(Initial(), [Pointer(760, 38, t)]) == g;
  }

  /** Key presses of the digit keys 1..9, all at time `now`. */
  function DigitKeys(ks: seq<int>, now: int): (es: seq<Event>)
    ensures |es| == |ks|
    ensures forall i :: 0 <= i < |ks| ==> es[i] == KeyDown(ks[i], now)
  {
    seq(|ks|, i requires 0 <= i < |ks| => KeyDown(ks[i], now))
  }

  /** The glyph indices that a sequence of digit keys selects. */
  function KeySymbols(ks: seq<int>): (s: seq<int>)
    ensures |s| == |ks|
    ensures forall i :: 0 <= i < |ks| ==> s[i] == ks[i] - Key1
  {
    if ks == [] then [] else [ks[0] - Key1] + KeySymbols(ks[1..])
  }

  function Min(a: int, b: int): int {
    if a <= b then a else b
  }

  /** One digit key on an idle gate. */
  lemma TypeDigit(g: Gate, k: int, now: int)
    requires Inv(g) && g.state == Idle && Key1 <= k <= Key9
    ensures var m := Step(g, KeyDown(k, now));
      Inv(m) && m.state == Idle &&
      m.entered == if |g.entered| < MaxAddressLength then g.entered + [k - Key1] else g.entered
  {
  }

  lemma FillStep(e: seq<int>, x: int, tail: seq<int>)
    requires |e| <= MaxAddressLength
    ensures var e' := if |e| < MaxAddressLength then e + [x] else e;
      (e' + tail)[..Min(MaxAddressLength, |e'| + |tail|)] ==
      (e + ([x] + tail))[..Min(MaxAddressLength, |e| + 1 + |tail|)]
  {
    if |e| < MaxAddressLength {
      assert e + [x] + tail == e + ([x] + tail);
    } else {
      assert (e + ([x] + tail))[..MaxAddressLength] == e;
      assert (e + tail)[..MaxAddressLength] == e;
    }
  }

  /** Typing digit keys on an idle gate appends their glyphs until the address
      holds nine symbols; every further digit is dropped. */
  lemma {:induction false} TypingFillsToNine(g: Gate, ks: seq<int>, now: int)
    requires Inv(g) && g.state == Idle
    requires forall i :: 0 <= i < |ks| ==> Key1 <= ks[i] <= Key9
    ensures var r := Run(g, DigitKeys(ks, now));
      r.state == Idle && r.entered == (g.entered + KeySymbols(ks))[..Min(MaxAddressLength, |g.entered| + |ks|)]
    decreases |ks|
  {
    if ks == [] {
      assert DigitKeys(ks, now) == [];
      assert g.entered + KeySymbols(ks) == g.entered;
    } else {
      var m := TypeFirstDigit(g, ks, now);
      TypingFillsToNine(m, ks[1..], now);
      var x, tail := ks[0] - Key1, KeySymbols(ks[1..]);
      assert KeySymbols(ks) == [x] + tail;
      FillStep(g.entered, x, tail);
    }
  }

  /** Peels the first key off a run of digit keys. */
  lemma TypeFirstDigit(g: Gate, ks: seq<int>, now: int) returns (m: Gate)
    requires Inv(g) && g.state == Idle && ks != []
    requires forall i :: 0 <= i < |ks| ==> Key1 <= ks[i] <= Key9
    ensures Inv(m) && m.state == Idle
    ensures m.entered == if |g.entered| < MaxAddressLength then g.entered + [ks[0] - Key1] else g.entered
    ensures Run(g, DigitKeys(ks, now)) == Run(m, DigitKeys(ks[1..], now))
  {
    var es := DigitKeys(ks, now);
    m := Step(g, es[0]);
    TypeDigit(g, ks[0], now);
    assert es[1..] == DigitKeys(ks[1..], now);
  }

  /** Scenario: six glyphs are not enough to dial. */
  lemma SixSymbolsRejected(ks: seq<int>, now: int)
    requires |ks| == 6 && forall i :: 0 <= i < 6 ==> Key1 <= ks[i] <= Key9
    ensures var r := Run(Initial(), DigitKeys(ks, now) + [KeyDown(KeyReturn, now)]);
      r.state == Idle && r.status == NeedMoreSymbols && |r.entered| == 6 &&
      |r.cues| > 0 && r.cues[|r.cues| - 1] == Error
  {
    TypingFillsToNine(Initial(), ks, now);
    RunAppend(Initial(), DigitKeys(ks, now), [KeyDown(KeyReturn, now)]);
    var m := Run(Initial(), DigitKeys(ks, now));
    assert Run(m, [KeyDown(KeyReturn, now)]) == Step(m, KeyDown(KeyReturn, now));
  }

  /** Scenario: with nine glyphs entered, a tenth is rejected and the address stays at nine. */
  lemma TenthSymbolRejected(ks: seq<int>, now: int)
    requires |ks| == 10 && forall i :: 0 <= i < 10 ==> Key1 <= ks[i] <= Key9
    ensures var r := Run(Initial(), DigitKeys(ks, now));
      r.entered == KeySymbols(ks[..9]) && r.status == AddressFull &&
      |r.cues| > 0 && r.cues[|r.cues| - 1] == Error
  {
    var first := DigitKeys(ks[..9], now);
    assert DigitKeys(ks, now) == first + [KeyDown(ks[9], now)];
    TypingFillsToNine(Initial(), ks[..9], now);
    RunAppend(Initial(), first, [KeyDown(ks[9], now)]);
    var m := Run(Initial(), first);
    assert m.entered == KeySymbols(ks[..9]);
    assert Run(m, [KeyDown(ks[9], now)]) == Step(m, KeyDown(ks[9], now));
  }

  /** Scenario: closing mid-dial returns to idle at once with both addresses
      emptied, and a later frame past the stale deadline locks nothing. */
  lemma CloseMidDial(g: Gate, now: int, dt: real)
    requires Inv(g) && g.state == Dialing && now >= g.nextLockAt
    ensures var r := Run(g, [KeyDown(KeyEscape, now), Frame(now, dt)]);
      r.state == Idle && r.entered == [] && r.current == [] && r.locked == 0 &&
      r.cues == g.cues + [Close]
  {
    var c := Step(g, KeyDown(KeyEscape, now));
    assert [KeyDown(KeyEscape, now), Frame(now, dt)] == [KeyDown(KeyEscape, now)] + [Frame(now, dt)];
    RunAppend(g, [KeyDown(KeyEscape, now)], [Frame(now, dt)]);
    assert Run(g, [KeyDown(KeyEscape, now)]) == c;
    IdleIgnoresFrames(c, [Frame(now, dt)]);
  }
}
