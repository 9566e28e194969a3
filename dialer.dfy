/** The dialing state machine as values: the gate's state, one function per
    command (address editing, dialing, closing, the per-frame update and the
    key and button dispatch), and the invariant every command keeps. */
module Dialer {
  import opened Config
  import C = Controls

  datatype State = Idle | Dialing | Opening | Connected

  /** Sound cues, in the order the gate asks for them. */
  datatype Cue = Press | Lock | Error | Close | Kawoosh

  /** The status line shown under the address. */
  datatype Status =
    | IdlePrompt
    | AddressFull
    | Selected(count: int)
    | AddressCleared
    | LoadedPreset(name: string)
    | NeedMoreSymbols
    | DialStarted
    | AlreadyIdle
    | GateClosed
    | ChevronLocked(chevron: int, total: int)
    | OpeningWormhole
    | Established
    | ActiveFor(elapsedMs: int)

  /** Everything the dialer keeps between frames. Deadlines are absolute
      times in milliseconds; `cues` is the log of sound cues played so far. */
  datatype Gate = Gate(
    state: State,
    entered: seq<int>,
    current: seq<int>,
    locked: int,
    ringAngle: real,
    nextLockAt: int,
    openFinishAt: int,
    connectedSince: int,
    status: Status,
    cues: seq<Cue>)

  /** The dialing part of the gate is the same in g and r: only the editable
      address, the status line and the cue log may differ. */
  predicate SameDial(g: Gate, r: Gate) {
    r.state == g.state && r.current == g.current && r.locked == g.locked &&
    r.ringAngle == g.ringAngle && r.nextLockAt == g.nextLockAt &&
    r.openFinishAt == g.openFinishAt && r.connectedSince == g.connectedSince
  }

  /** The invariant linking the state, the lock count and the two addresses. */
  predicate Inv(g: Gate) {
    |g.entered| <= MaxAddressLength && AllSymbols(g.entered) &&
    0 <= g.locked <= |g.current| <= MaxAddressLength && AllSymbols(g.current) &&
    0.0 <= g.ringAngle < 360.0 &&
    (g.state == Idle ==> g.locked == 0 && g.current == []) &&
    (g.state != Idle ==> MinAddressLength <= |g.current|) &&
    (g.state == Dialing ==> g.locked < |g.current|) &&
    (g.state == Opening || g.state == Connected ==> g.locked == |g.current|)
  }

  function Initial(): (g: Gate)
    ensures Inv(g) && g.state == Idle && g.entered == [] && g.cues == [] && g.status == IdlePrompt
  {
    Gate(Idle, [], [], 0, 0.0, 0, 0, 0, IdlePrompt, [])
  }

  /** The floating-point remainder by 360 with the sign of the divisor. */
  function Wrap360(x: real): (r: real)
    ensures 0.0 <= r < 360.0
    ensures ((x - r) / 360.0).Floor as real == (x - r) / 360.0
    ensures 0.0 <= x < 360.0 ==> r == x
  {
    var k := (x / 360.0).Floor;
    assert x - 360.0 * (k as real) == x - (k as real) * 360.0;
    x - 360.0 * (k as real)
  }

  /** Appends a glyph to the address being composed. */
  function AddSymbol(g: Gate, idx: int): (r: Gate)
    ensures r.entered == g.entered + [idx] <==>
              g.state == Idle && |g.entered| < MaxAddressLength && IsSymbol(idx)
    ensures r.entered == g.entered || r.entered == g.entered + [idx]
    ensures SameDial(g, r)
    ensures r.entered != g.entered ==> r.status == Selected(|r.entered|) && r.cues == g.cues + [Press]
    ensures g.state != Idle ==> r == g.(cues := g.cues + [Error])
    ensures g.state == Idle && |g.entered| >= MaxAddressLength ==>
              r == g.(status := AddressFull, cues := g.cues + [Error])
    ensures g.state == Idle && |g.entered| < MaxAddressLength && !IsSymbol(idx) ==> r == g
    ensures Inv(g) ==> Inv(r)
  {
    if g.state != Idle then
      g.(cues := g.cues + [Error])
    else if |g.entered| >= MaxAddressLength then
      g.(status := AddressFull, cues := g.cues + [Error])
    else if idx < 0 || idx >= SymbolCount then
      g
    else
      var entered := g.entered + [idx];
      g.(entered := entered, status := Selected(|entered|), cues := g.cues + [Press])
  }

  /** Drops the last glyph of the address being composed. */
  function RemoveSymbol(g: Gate): (r: Gate)
    ensures g.state == Idle && g.entered != [] ==>
              r.entered + [g.entered[|g.entered| - 1]] == g.entered &&
              r.status == Selected(|r.entered|) && r.cues == g.cues + [Press]
    ensures g.state != Idle || g.entered == [] ==> r == g
    ensures SameDial(g, r)
    ensures Inv(g) ==> Inv(r)
  {
    if g.state != Idle then
      g
    else if g.entered != [] then
      var entered := g.entered[..|g.entered| - 1];
      g.(entered := entered, status := Selected(|entered|), cues := g.cues + [Press])
    else
      g
  }

  /** Empties the address being composed. */
  function ClearSymbols(g: Gate): (r: Gate)
    ensures g.state == Idle ==> r.entered == [] && r.status == AddressCleared && r.cues == g.cues + [Press]
    ensures g.state != Idle ==> r == g
    ensures SameDial(g, r)
    ensures Inv(g) ==> Inv(r)
  {
    if g.state != Idle then
      g
    else
      g.(entered := [], status := AddressCleared, cues := g.cues + [Press])
  }

  /** Replaces the address being composed by a copy of a preset. An unknown
      name is a lookup failure in the source, so callers must not pass one
      while the gate is idle. */
  function LoadPreset(g: Gate, name: string): (r: Gate)
    requires g.state != Idle || name in KnownAddresses
    ensures g.state == Idle ==>
              r.entered == KnownAddresses[name] && r.status == LoadedPreset(name) && r.cues == g.cues + [Press]
    ensures g.state == Idle ==>
              MinAddressLength <= |r.entered| <= MaxAddressLength && AllSymbols(r.entered)
    ensures g.state != Idle ==> r == g.(cues := g.cues + [Error])
    ensures SameDial(g, r)
    ensures Inv(g) ==> Inv(r)
  {
    if g.state != Idle then
      g.(cues := g.cues + [Error])
    else
      PresetIsDialable(name);
      g.(entered := KnownAddresses[name], status := LoadedPreset(name), cues := g.cues + [Press])
  }

  /** Starts dialing the composed address at time `now`. Only the minimum
      length is checked; the maximum is kept by AddSymbol and the presets. */
  function StartDial(g: Gate, now: int): (r: Gate)
    ensures r.state != g.state <==> g.state == Idle && |g.entered| >= MinAddressLength
    ensures r.state != g.state ==>
              r.state == Dialing && r.current == g.entered && r.locked == 0 &&
              r.nextLockAt == now + FirstLockDelayMs && r.entered == g.entered &&
              r.ringAngle == g.ringAngle && r.openFinishAt == g.openFinishAt &&
              r.connectedSince == g.connectedSince &&
              r.status == DialStarted && r.cues == g.cues + [Press]
    ensures r.state == g.state ==> SameDial(g, r) && r.entered == g.entered && r.cues == g.cues + [Error]
    ensures r.state == g.state && g.state == Idle ==> r.status == NeedMoreSymbols
    ensures r.state == g.state && g.state != Idle ==> r.status == g.status
    ensures Inv(g) ==>
              (r.state != g.state <==>
                 g.state == Idle && MinAddressLength <= |g.entered| <= MaxAddressLength)
    ensures Inv(g) ==> Inv(r)
  {
    if g.state != Idle then
      g.(cues := g.cues + [Error])
    else if |g.entered| < MinAddressLength then
      g.(status := NeedMoreSymbols, cues := g.cues + [Error])
    else
      g.(current := g.entered, locked := 0, state := Dialing,
         nextLockAt := now + FirstLockDelayMs, status := DialStarted, cues := g.cues + [Press])
  }

  /** A preset loaded on an idle gate can always be dialed at once. */
  lemma LoadedPresetDials(g: Gate, name: string, now: int)
    requires Inv(g) && g.state == Idle && name in KnownAddresses
    ensures var d := StartDial(LoadPreset(g, name), now);
      d.state == Dialing && d.current == KnownAddresses[name] && d.locked == 0 && Inv(d)
  {
    var l := LoadPreset(g, name);
    assert l.state == Idle && |l.entered| >= MinAddressLength && Inv(l);
  }

  /** Aborts or ends an episode: back to idle with both addresses emptied. */
  function CloseGate(g: Gate): (r: Gate)
    ensures g.state != Idle ==>
              r.state == Idle && r.locked == 0 && r.current == [] && r.entered == [] &&
              r.ringAngle == 0.0 && r.status == GateClosed && r.cues == g.cues + [Close]
    ensures g.state != Idle ==>
              r.nextLockAt == g.nextLockAt && r.openFinishAt == g.openFinishAt &&
              r.connectedSince == g.connectedSince
    ensures g.state == Idle ==> r == g.(status := AlreadyIdle)
    ensures Inv(g) ==> Inv(r)
  {
    if g.state == Idle then
      g.(status := AlreadyIdle)
    else
      g.(state := Idle, locked := 0, current := [], entered := [], ringAngle := 0.0,
         status := GateClosed, cues := g.cues + [Close])
  }

  /** One frame at time `now`, `dt` seconds after the previous one: turns the
      ring and locks the next chevron once its deadline has passed; opens the
      wormhole after the last chevron and connects once it has opened. */
  function Update(g: Gate, now: int, dt: real): (r: Gate)
    ensures r.entered == g.entered && r.current == g.current
    ensures g.state == Idle ==> r == g
    ensures g.state == Connected ==> r == g.(status := ActiveFor(now - g.connectedSince))
    ensures g.state == Opening ==> (r.state == Connected <==> now >= g.openFinishAt)
    ensures g.state == Opening && now >= g.openFinishAt ==>
              r == g.(state := Connected, connectedSince := now, status := Established)
    ensures g.state == Opening && now < g.openFinishAt ==> r == g
    ensures g.state == Dialing ==> r.ringAngle == Wrap360(g.ringAngle + RingDegreesPerSecond * dt)
    ensures g.state == Dialing && now < g.nextLockAt ==> r == g.(ringAngle := r.ringAngle)
    ensures g.state == Dialing && now >= g.nextLockAt ==>
              r.locked == g.locked + 1 && (r.state == Opening <==> r.locked >= |g.current|)
    ensures g.state == Dialing && r.state == Opening ==>
              r.openFinishAt == now + OpenDurationMs && r.status == OpeningWormhole &&
              r.cues == g.cues + [Lock, Kawoosh] && r.nextLockAt == g.nextLockAt
    ensures g.state == Dialing && now >= g.nextLockAt && r.state == Dialing ==>
              r.nextLockAt == now + LockIntervalMs && r.openFinishAt == g.openFinishAt &&
              r.status == ChevronLocked(r.locked, |g.current|) && r.cues == g.cues + [Lock]
    ensures g.state == Dialing ==>
              r.connectedSince == g.connectedSince && (r.state == Dialing || r.state == Opening)
    ensures Inv(g) && g.state == Dialing && r.locked == |r.current| ==> r.state == Opening
    ensures Inv(g) ==> Inv(r)
  {
    match g.state
    case Dialing =>
      var angle := Wrap360(g.ringAngle + RingDegreesPerSecond * dt);
      if now >= g.nextLockAt then
        var locked := g.locked + 1;
        if locked >= |g.current| then
          g.(ringAngle := angle, locked := locked, state := Opening,
             openFinishAt := now + OpenDurationMs, status := OpeningWormhole,
             cues := g.cues + [Lock, Kawoosh])
        else
          g.(ringAngle := angle, locked := locked, nextLockAt := now + LockIntervalMs,
             status := ChevronLocked(locked, |g.current|), cues := g.cues + [Lock])
      else
        g.(ringAngle := angle)
    case Opening =>
      if now >= g.openFinishAt then
        g.(state := Connected, connectedSince := now, status := Established)
      else
        g
    case Connected =>
      g.(status := ActiveFor(now - g.connectedSince))
    case Idle =>
      g
  }

  // Key codes of the windowing library for the keys the dialer listens to.
  const KeyBackspace: int := 8
  const KeyReturn: int := 13
  const KeyEscape: int := 27
  const Key1: int := 49
  const Key9: int := 57
  const KeyDelete: int := 127

  /** Keyboard shortcuts: 1..9 add the first nine glyphs, Enter dials,
      Backspace and Delete edit, Escape closes; other keys are ignored. */
  function HandleKey(g: Gate, key: int, now: int): (r: Gate)
    ensures Key1 <= key <= Key9 ==> SameDial(g, r)
    ensures Key1 <= key <= Key9 && g.state == Idle && |g.entered| < MaxAddressLength ==>
              r.entered == g.entered + [key - Key1]
    ensures key == KeyBackspace || key == KeyDelete ==> SameDial(g, r)
    ensures Key1 <= key <= Key9 && (g.state != Idle || |g.entered| >= MaxAddressLength) ==>
              r.entered == g.entered && r.cues == g.cues + [Error]
    ensures key == KeyReturn && g.state == Idle && |g.entered| >= MinAddressLength ==>
              r.state == Dialing && r.current == g.entered && r.locked == 0 &&
              r.nextLockAt == now + FirstLockDelayMs
    ensures key == KeyReturn && (g.state != Idle || |g.entered| < MinAddressLength) ==>
              SameDial(g, r) && r.entered == g.entered && r.cues == g.cues + [Error]
    ensures key == KeyBackspace && g.state == Idle && g.entered != [] ==>
              r.entered == g.entered[..|g.entered| - 1]
    ensures key == KeyDelete && g.state == Idle ==> r.entered == []
    ensures key == KeyReturn && g.state == Idle && |g.entered| >= MinAddressLength ==>
              r.entered == g.entered && r.ringAngle == g.ringAngle &&
              r.openFinishAt == g.openFinishAt && r.connectedSince == g.connectedSince
    ensures (key == KeyBackspace || key == KeyDelete) && g.state != Idle ==> r == g
    ensures key == KeyBackspace && g.state == Idle && g.entered == [] ==> r == g
    ensures key == KeyEscape ==> r.state == Idle
    ensures key == KeyEscape && g.state == Idle ==> r == g.(status := AlreadyIdle)
    ensures Key1 <= key <= Key9 && g.state != Idle ==> r == g.(cues := g.cues + [Error])
    ensures Key1 <= key <= Key9 && g.state == Idle && |g.entered| >= MaxAddressLength ==>
              r == g.(status := AddressFull, cues := g.cues + [Error])
    ensures Key1 <= key <= Key9 && g.state == Idle && |g.entered| < MaxAddressLength ==>
              r.status == Selected(|r.entered|) && r.cues == g.cues + [Press]
    ensures key == KeyReturn && g.state == Idle && |g.entered| >= MinAddressLength ==>
              r.status == DialStarted && r.cues == g.cues + [Press]
    ensures key == KeyReturn && g.state == Idle && |g.entered| < MinAddressLength ==>
              r.status == NeedMoreSymbols
    ensures key == KeyReturn && g.state != Idle ==> r == g.(cues := g.cues + [Error])
    ensures key == KeyBackspace && g.state == Idle && g.entered != [] ==>
              r.status == Selected(|r.entered|) && r.cues == g.cues + [Press]
    ensures key == KeyDelete && g.state == Idle ==> r.status == AddressCleared && r.cues == g.cues + [Press]
    ensures key == KeyEscape && g.state != Idle ==>
              r.ringAngle == 0.0 && r.status == GateClosed && r.cues == g.cues + [Close] &&
              r.nextLockAt == g.nextLockAt && r.openFinishAt == g.openFinishAt &&
              r.connectedSince == g.connectedSince
    ensures key == KeyEscape && g.state != Idle ==> r.entered == [] && r.current == [] && r.locked == 0
    ensures (!(Key1 <= key <= Key9) && key != KeyReturn && key != KeyBackspace &&
             key != KeyDelete && key != KeyEscape) ==> r == g
    ensures r.state != g.state ==> key == KeyReturn || key == KeyEscape
    ensures Inv(g) ==> Inv(r)
  {
    if Key1 <= key <= Key9 then
      AddSymbol(g, key - Key1)
    else if key == KeyReturn then
      StartDial(g, now)
    else if key == KeyBackspace then
      RemoveSymbol(g)
    else if key == KeyDelete then
      ClearSymbols(g)
    else if key == KeyEscape then
      CloseGate(g)
    else
      g
  }

  /** What pressing a button does. */
  function Activate(g: Gate, a: C.Action, now: int): (r: Gate)
    requires a.Preset? ==> g.state != Idle || a.name in KnownAddresses
    ensures a.Glyph? ==> SameDial(g, r)
    ensures a.Glyph? ==>
              (r.entered == g.entered + [a.index] <==>
                 g.state == Idle && |g.entered| < MaxAddressLength && IsSymbol(a.index))
    ensures a.Back? || a.Clear? || a.Preset? ==> SameDial(g, r)
    ensures a.Preset? && g.state == Idle ==> r.entered == KnownAddresses[a.name]
    ensures a.Preset? && g.state != Idle ==> r.entered == g.entered && r.cues == g.cues + [Error]
    ensures a.Back? && g.state == Idle && g.entered != [] ==> r.entered == g.entered[..|g.entered| - 1]
    ensures a.Clear? && g.state == Idle ==> r.entered == []
    ensures a.Glyph? && !(g.state == Idle && |g.entered| < MaxAddressLength && IsSymbol(a.index)) ==>
              r.entered == g.entered
    ensures (a.Back? || a.Clear?) && g.state != Idle ==> r == g
    ensures a.Back? && g.state == Idle && g.entered == [] ==> r == g
    ensures a.Dial? && g.state == Idle && |g.entered| >= MinAddressLength ==>
              r.entered == g.entered && r.ringAngle == g.ringAngle &&
              r.openFinishAt == g.openFinishAt && r.connectedSince == g.connectedSince
    ensures a.Close? && g.state == Idle ==> r == g.(status := AlreadyIdle)
    ensures a.Glyph? && g.state != Idle ==> r == g.(cues := g.cues + [Error])
    ensures a.Glyph? && g.state == Idle && |g.entered| >= MaxAddressLength ==>
              r == g.(status := AddressFull, cues := g.cues + [Error])
    ensures a.Glyph? && g.state == Idle && |g.entered| < MaxAddressLength && !IsSymbol(a.index) ==> r == g
    ensures a.Glyph? && r.entered != g.entered ==> r.status == Selected(|r.entered|) && r.cues == g.cues + [Press]
    ensures a.Dial? && g.state == Idle && |g.entered| >= MinAddressLength ==>
              r.status == DialStarted && r.cues == g.cues + [Press]
    ensures a.Dial? && g.state == Idle && |g.entered| < MinAddressLength ==> r.status == NeedMoreSymbols
    ensures a.Dial? && g.state != Idle ==> r == g.(cues := g.cues + [Error])
    ensures a.Back? && g.state == Idle && g.entered != [] ==>
              r.status == Selected(|r.entered|) && r.cues == g.cues + [Press]
    ensures a.Clear? && g.state == Idle ==> r.status == AddressCleared && r.cues == g.cues + [Press]
    ensures a.Close? && g.state != Idle ==>
              r.ringAngle == 0.0 && r.status == GateClosed && r.cues == g.cues + [Close] &&
              r.nextLockAt == g.nextLockAt && r.openFinishAt == g.openFinishAt &&
              r.connectedSince == g.connectedSince
    ensures a.Preset? && g.state == Idle ==> r.status == LoadedPreset(a.name) && r.cues == g.cues + [Press]
    ensures a.Preset? && g.state != Idle ==> r == g.(cues := g.cues + [Error])
    ensures a.Dial? && g.state == Idle && |g.entered| >= MinAddressLength ==>
              r.state == Dialing && r.current == g.entered && r.locked == 0 &&
              r.nextLockAt == now + FirstLockDelayMs
    ensures a.Dial? && (g.state != Idle || |g.entered| < MinAddressLength) ==>
              SameDial(g, r) && r.entered == g.entered && r.cues == g.cues + [Error]
    ensures a.Close? ==> r.state == Idle
    ensures a.Close? && g.state != Idle ==> r.entered == [] && r.current == [] && r.locked == 0
    ensures r.state != g.state ==> a.Dial? || a.Close?
    ensures Inv(g) ==> Inv(r)
  {
    match a
    case Glyph(i) => AddSymbol(g, i)
    case Dial => StartDial(g, now)
    case Back => RemoveSymbol(g)
    case Clear => ClearSymbols(g)
    case Close => CloseGate(g)
    case Preset(name) => LoadPreset(g, name)
  }

  /** Each keyboard shortcut does exactly what its on-screen button does:
      1..9 press the first nine glyphs, Enter is DIAL, Backspace is BACK,
      Delete is CLEAR and Escape is CLOSE GATE. */
  lemma KeysAreButtons(g: Gate, key: int, now: int)
    ensures Key1 <= key <= Key9 ==> HandleKey(g, key, now) == Activate(g, C.Glyph(key - Key1), now)
    ensures key == KeyReturn ==> HandleKey(g, key, now) == Activate(g, C.Dial, now)
    ensures key == KeyBackspace ==> HandleKey(g, key, now) == Activate(g, C.Back, now)
    ensures key == KeyDelete ==> HandleKey(g, key, now) == Activate(g, C.Clear, now)
    ensures key == KeyEscape ==> HandleKey(g, key, now) == Activate(g, C.Close, now)
  {
  }

  /** A pointer press at (px, py): the first button in `targets` that
      contains the point is activated; a press on no button is ignored. */
  function Click(g: Gate, targets: seq<C.Button>, px: int, py: int, now: int): (r: Gate)
    requires C.AllWellFormed(targets)
    ensures C.FirstHit(targets, px, py).None? ==> r == g
    ensures C.FirstHit(targets, px, py).Some? ==>
              r == Activate(g, targets[C.FirstHit(targets, px, py).value].action, now)
    ensures r.state != g.state ==> C.FirstHit(targets, px, py).Some?
    ensures Inv(g) ==> Inv(r)
  {
    match C.FirstHit(targets, px, py)
    case None => g
    case Some(k) => Activate(g, targets[k].action, now)
  }
}
