/** The application object: the dialer's state as mutable fields, updated in
    place by the command handlers, each proved against its counterpart in
    Dialer. */
module App {
  import opened Config
  import opened Dialer
  import C = Controls

  class StargateApp {
    var buttons: seq<C.Button>
    var presetButtons: seq<C.Button>
    var status: Status
    var enteredSymbols: seq<int>
    var currentAddress: seq<int>
    var lockedCount: int
    var state: State
    var ringAngle: real
    var nextLockAt: int
    var openFinishAt: int
    var connectedSince: int
    /** The sound cues played so far. */
    var cues: seq<Cue>

    /** The dialer state held by the fields. */
    function Model(): Gate
      reads this
    {
      Gate(state, enteredSymbols, currentAddress, lockedCount, ringAngle,
           nextLockAt, openFinishAt, connectedSince, status, cues)
    }

    ghost predicate Valid()
      reads this
    {
      Inv(Model()) &&
      buttons == C.GlyphTable() + C.ControlButtons() &&
      presetButtons == C.PresetTable()
    }

    constructor ()
      ensures Valid() && Model() == Initial()
      ensures presetButtons + buttons == C.ClickTargets()
    {
      var glyphsAndControls, presets := C.BuildButtons();
      buttons := glyphsAndControls;
      presetButtons := presets;
      status := IdlePrompt;
      enteredSymbols := [];
      currentAddress := [];
      lockedCount := 0;
      state := Idle;
      ringAngle := 0.0;
      nextLockAt := 0;
      openFinishAt := 0;
      connectedSince := 0;
      cues := [];
    }

    method AddSymbol(idx: int)
      requires Valid()
      modifies this
      ensures Valid() && Model() == Dialer.AddSymbol(old(Model()), idx)
    {
      if state != Idle {
        cues := cues + [Error];
        return;
      }
      if |enteredSymbols| >= MaxAddressLength {
        status := AddressFull;
        cues := cues + [Error];
        return;
      }
      if idx < 0 || idx >= SymbolCount {
        return;
      }
      enteredSymbols := enteredSymbols + [idx];
      cues := cues + [Press];
      status := Selected(|enteredSymbols|);
    }

    method RemoveSymbol()
      requires Valid()
      modifies this
      ensures Valid() && Model() == Dialer.RemoveSymbol(old(Model()))
    {
      if state != Idle {
        return;
      }
      if enteredSymbols != [] {
        enteredSymbols := enteredSymbols[..|enteredSymbols| - 1];
        cues := cues + [Press];
        status := Selected(|enteredSymbols|);
      }
    }

    method ClearSymbols()
      requires Valid()
      modifies this
      ensures Valid() && Model() == Dialer.ClearSymbols(old(Model()))
    {
      if state != Idle {
        return;
      }
      enteredSymbols := [];
      cues := cues + [Press];
      status := AddressCleared;
    }

    method LoadPreset(name: string)
      requires Valid()
      requires state != Idle || name in KnownAddresses
      modifies this
      ensures Valid() && Model() == Dialer.LoadPreset(old(Model()), name)
    {
      if state != Idle {
        cues := cues + [Error];
        return;
      }
      enteredSymbols := KnownAddresses[name];
      cues := cues + [Press];
      status := LoadedPreset(name);
    }

    method StartDial(now: int)
      requires Valid()
      modifies this
      ensures Valid() && Model() == Dialer.StartDial(old(Model()), now)
    {
      if state != Idle {
        cues := cues + [Error];
        return;
      }
      if |enteredSymbols| < MinAddressLength {
        status := NeedMoreSymbols;
        cues := cues + [Error];
        return;
      }
      currentAddress := enteredSymbols;
      lockedCount := 0;
      state := Dialing;
      nextLockAt := now + FirstLockDelayMs;
      status := DialStarted;
      cues := cues + [Press];
    }

    method CloseGate()
      requires Valid()
      modifies this
      ensures Valid() && Model() == Dialer.CloseGate(old(Model()))
    {
      if state == Idle {
        status := AlreadyIdle;
        return;
      }
      state := Idle;
      lockedCount := 0;
      currentAddress := [];
      enteredSymbols := [];
      ringAngle := 0.0;
      status := GateClosed;
      cues := cues + [Close];
    }

    method Update(now: int, dt: real)
      requires Valid()
      modifies this
      ensures Valid() && Model() == Dialer.Update(old(Model()), now, dt)
    {
      ghost var g := Model();
      if state == Dialing {
        ringAngle := Wrap360(ringAngle + RingDegreesPerSecond * dt);
        if now >= nextLockAt {
          lockedCount := lockedCount + 1;
          cues := cues + [Lock];
          if lockedCount >= |currentAddress| {
            state := Opening;
            openFinishAt := now + OpenDurationMs;
            status := OpeningWormhole;
            cues := cues + [Kawoosh];
          } else {
            nextLockAt := now + LockIntervalMs;
            status := ChevronLocked(lockedCount, |currentAddress|);
          }
        }
      } else if state == Opening {
        if now >= openFinishAt {
          state := Connected;
          connectedSince := now;
          status := Established;
        }
      } else if state == Connected {
        status := ActiveFor(now - connectedSince);
      }
      assert Model() == Dialer.Update(g, now, dt);
    }

    method HandleKey(key: int, now: int)
      requires Valid()
      modifies this
      ensures Valid() && Model() == Dialer.HandleKey(old(Model()), key, now)
    {
      if Key1 <= key <= Key9 {
        AddSymbol(key - Key1);
      } else if key == KeyReturn {
        StartDial(now);
      } else if key == KeyBackspace {
        RemoveSymbol();
      } else if key == KeyDelete {
        ClearSymbols();
      } else if key == KeyEscape {
        CloseGate();
      }
    }

    method Activate(btn: C.Button, now: int)
      requires Valid()
      requires btn.action.Preset? ==> state != Idle || btn.action.name in KnownAddresses
      modifies this
      ensures Valid() && Model() == Dialer.Activate(old(Model()), btn.action, now)
    {
      match btn.action
      case Glyph(i) => AddSymbol(i);
      case Dial => StartDial(now);
      case Back => RemoveSymbol();
      case Clear => ClearSymbols();
      case Close => CloseGate();
      case Preset(name) => LoadPreset(name);
    }

    /** A left-button press at (px, py): the first preset button, then the
        first other button, containing the point is activated. */
    method HandleClick(px: int, py: int, now: int)
      requires Valid()
      modifies this
      ensures Valid() && Model() == Dialer.Click(old(Model()), C.ClickTargets(), px, py, now)
    {
      C.ClickTargetsWellFormed();
      var targets := presetButtons + buttons;
      assert targets == C.ClickTargets();
      var i := 0;
      while i < |targets| && !C.Collides(targets[i].rect, px, py)
        invariant 0 <= i <= |targets|
        invariant forall j :: 0 <= j < i ==> !C.Collides(targets[j].rect, px, py)
      {
        i := i + 1;
      }
      if i < |targets| {
        assert C.FirstHit(targets, px, py) == C.Some(i);
        Activate(targets[i], now);
      }
    }
  }
}
