/** Properties of the browser window over whole sequences of events: one-shot
    flags, the fullscreen round trip, idempotent writes, and the constructor. */
module FormProperties {
  import opened Toolkit
  import opened BrowserForm

  /** The browser control is shown exactly when its first load has completed. */
  predicate LoadCoherent(f: Form) {
    f.browserVisible == !f.firstLoad
  }

  predicate IsBackspace(e: Event) {
    e.KeyDown? && e.key.keyCode == BackKey
  }

  predicate NoBackspace(events: seq<Event>) {
    forall i | 0 <= i < |events| :: !IsBackspace(events[i])
  }

  /** How many navigations a list of effects cancels. */
  function Cancellations(effects: seq<Effect>): nat
    decreases |effects|
  {
    if effects == [] then 0
    else (if effects[0] == CancelNavigation then 1 else 0) + Cancellations(effects[1..])
  }

  lemma {:induction false} CancellationsAppend(a: seq<Effect>, b: seq<Effect>)
    ensures Cancellations(a + b) == Cancellations(a) + Cancellations(b)
    decreases |a|
  {
    if a == [] {
      assert a + b == b;
    } else {
      assert (a + b)[0] == a[0];
      assert (a + b)[1..] == a[1..] + b;
      CancellationsAppend(a[1..], b);
    }
  }

  /** Running two event sequences back to back is running their concatenation. */
  lemma {:induction false} RunAppend(f: Form, a: seq<Event>, b: seq<Event>)
    ensures var first := Run(f, a);
            var second := Run(first.form, b);
            Run(f, a + b) == Step(second.form, first.effects + second.effects)
    decreases |a|
  {
    if a == [] {
      assert a + b == b;
    } else {
      assert (a + b)[0] == a[0];
      assert (a + b)[1..] == a[1..] + b;
      RunAppend(Dispatch(f, a[0]).form, a[1..], b);
    }
  }

  /** `ready` ends set exactly when it was set already or the window was shown:
      no other event sets it and none clears it. */
  lemma {:induction false} ReadyExactlyAfterShown(f: Form, events: seq<Event>)
    ensures Run(f, events).form.ready <==> f.ready || Shown in events
    decreases |events|
  {
    if events != [] {
      assert events == [events[0]] + events[1..];
      ReadyExactlyAfterShown(Dispatch(f, events[0]).form, events[1..]);
    }
  }

  /** The browser becomes visible exactly when a load completes, and never
      becomes invisible again; every event keeps visibility and the first-load
      flag in step. */
  lemma {:induction false} VisibleExactlyAfterFirstLoad(f: Form, events: seq<Event>)
    requires LoadCoherent(f)
    ensures LoadCoherent(Run(f, events).form)
    ensures Run(f, events).form.browserVisible <==> f.browserVisible || DocumentCompleted in events
    decreases |events|
  {
    if events != [] {
      assert events == [events[0]] + events[1..];
      VisibleExactlyAfterFirstLoad(Dispatch(f, events[0]).form, events[1..]);
    }
  }

  /** One event that is not Backspace cancels a navigation exactly when it is a
      navigation meeting an armed flag, and disarms the flag exactly then. */
  lemma DispatchCancels(f: Form, e: Event)
    requires !IsBackspace(e)
    ensures Cancellations(Dispatch(f, e).effects) == (if e.Navigating? && f.cancelBack then 1 else 0)
    ensures Dispatch(f, e).form.cancelBack == (f.cancelBack && !e.Navigating?)
  {
  }

  /** With no further Backspace, an armed flag cancels exactly one navigation if
      one comes, and stays armed only if none comes; an unarmed flag cancels none. */
  lemma {:induction false} ArmedFlagCancelsOnce(f: Form, events: seq<Event>)
    requires NoBackspace(events)
    ensures Cancellations(Run(f, events).effects) == (if f.cancelBack && Navigating in events then 1 else 0)
    ensures Run(f, events).form.cancelBack == (f.cancelBack && Navigating !in events)
    decreases |events|
  {
    if events != [] {
      assert events == [events[0]] + events[1..];
      assert !IsBackspace(events[0]);
      var first := Dispatch(f, events[0]);
      DispatchCancels(f, events[0]);
      assert NoBackspace(events[1..]) by {
        forall i | 0 <= i < |events[1..]|
          ensures !IsBackspace(events[1..][i])
        {
          assert events[1..][i] == events[i + 1];
        }
      }
      ArmedFlagCancelsOnce(first.form, events[1..]);
      CancellationsAppend(first.effects, Run(first.form, events[1..]).effects);
    }
  }

  /** After a Backspace (any modifiers), the first navigation that follows is
      cancelled, and no later one is until Backspace is pressed again. */
  lemma OnlyFirstNavigationCancelled(f: Form, modifiers: int, before: seq<Event>, after: seq<Event>)
    requires Navigating !in before
    requires NoBackspace(before) && NoBackspace(after)
    ensures var upTo := Run(f, [KeyDown(KeyEvent(BackKey, modifiers))] + before + [Navigating]);
            && Cancellations(upTo.effects) == 1
            && !upTo.form.cancelBack
            && Cancellations(Run(upTo.form, after).effects) == 0
  {
    var press := [KeyDown(KeyEvent(BackKey, modifiers))];
    var tail := before + [Navigating];
    assert NoBackspace(tail) by {
      forall i | 0 <= i < |tail|
        ensures !IsBackspace(tail[i])
      {
        if i < |before| { assert tail[i] == before[i]; }
      }
    }
    assert Navigating in tail by { assert tail[|before|] == Navigating; }
    RunAppend(f, press, tail);
    assert press + before + [Navigating] == press + tail;
    var armed := Run(f, press);
    assert armed.form.cancelBack && Cancellations(armed.effects) == 0;
    ArmedFlagCancelsOnce(armed.form, tail);
    var upTo := Run(armed.form, tail);
    CancellationsAppend(armed.effects, upTo.effects);
    ArmedFlagCancelsOnce(upTo.form, after);
  }

  /** Running a single event is dispatching it. */
  lemma RunOne(f: Form, e: Event)
    ensures Run(f, [e]) == Dispatch(f, e)
  {
  }

  /** Running two events is dispatching one after the other. */
  lemma RunTwo(f: Form, a: Event, b: Event)
    ensures var first := Dispatch(f, a);
            var second := Dispatch(first.form, b);
            Run(f, [a, b]) == Step(second.form, first.effects + second.effects)
  {
    RunAppend(f, [a], [b]);
    assert [a] + [b] == [a, b];
    RunOne(f, a);
    RunOne(Dispatch(f, a).form, b);
  }

  /** Entering and then leaving fullscreen gives back the window exactly as it
      was, whatever screens were involved. */
  lemma ToggleTwiceRestores(f: Form, enter: Screens, leave: Screens)
    requires !f.IsFullscreen()
    ensures Run(f, [ToggleFullscreenCall(enter), ToggleFullscreenCall(leave)]).form == f
    ensures Run(f, [ToggleFullscreenCall(enter), ToggleFullscreenCall(leave)]).effects
            == [PositionWindow(enter.current, f.flags)]
  {
    RunTwo(f, ToggleFullscreenCall(enter), ToggleFullscreenCall(leave));
    var entered := ToggleFullscreen(f, enter);
    var left := ToggleFullscreen(entered.form, leave);
    assert left.effects == [];
    assert entered.effects + left.effects == entered.effects;
  }

  /** Setting the same topmost value twice writes `TopMost` at most once: once if
      it differed, never if it already held. */
  lemma SetTopMostTwice(f: Form, topMost: bool)
    ensures var r := Run(f, [SetTopMostCall(topMost), SetTopMostCall(topMost)]);
            && r.form == f.(topMost := topMost)
            && r.effects == (if f.topMost == topMost then [] else [AssignTopMost(topMost)])
  {
    RunTwo(f, SetTopMostCall(topMost), SetTopMostCall(topMost));
    var once := SetTopMost(f, topMost);
    var twice := SetTopMost(once.form, topMost);
    assert twice == Step(once.form, []);
    assert once.effects + twice.effects == once.effects;
  }

  /** Leaving the fullscreen a window was created in yields the window that the
      same configuration without fullscreen would have created, wherever the
      window was placed: so for the constructor as written and as corrected. */
  lemma LeavingInitialFullscreen(cfg: Config, enter: Screens, leave: Screens, location: Point)
    requires cfg.fullscreen
    ensures ToggleFullscreen(Construct(cfg, enter, location).form, leave).form
            == Construct(cfg.(fullscreen := false), leave, location).form
  {
  }

  /** The corrected constructor places the window at the configured position,
      directly or once the initial fullscreen is left. */
  lemma InitPlacesWindow(cfg: Config, enter: Screens, leave: Screens)
    ensures !cfg.fullscreen ==> GetWindowPos(Init(cfg, enter).form) == [cfg.x, cfg.y]
    ensures cfg.fullscreen ==> GetWindowPos(ToggleFullscreen(Init(cfg, enter).form, leave).form) == [cfg.x, cfg.y]
  {
  }

  /** As written, the constructor's result does not depend on the configured
      position at all. */
  lemma InitAsWrittenIgnoresPosition(cfg: Config, screens: Screens, toolkitLocation: Point, x: int, y: int)
    ensures InitAsWritten(cfg.(x := x, y := y), screens, toolkitLocation) == InitAsWritten(cfg, screens, toolkitLocation)
  {
  }

  /** A window configured at (100, 50) that the toolkit puts at (0, 0) reports
      (0, 0) as written, where the corrected constructor reports (100, 50). */
  lemma InitAsWrittenMisplaces(screens: Screens)
    ensures var cfg := Config("title", "", 800, 600, true, false, Size(200, 100), false, "#FFFFFF", 64, 100, 50, false);
            && GetWindowPos(InitAsWritten(cfg, screens, Point(0, 0)).form) == [0, 0]
            && GetWindowPos(Init(cfg, screens).form) == [100, 50]
  {
  }
}
