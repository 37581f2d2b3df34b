/**
 * Properties of the driver's handlers that relate several calls or hold for
 * every firmware answer: the order and multiplicity of the kernel calls made
 * for one notification, and that a device's whole life (attach, any number of
 * notifications, detach) uses the kernel's resources correctly and leaves
 * nothing behind.
 */
module HbtnProperties {
  import opened Wrappers
  import opened StatusWord
  import opened SparseKeymap
  import opened KernelServices
  import opened Hbtn

  /** A failed HINF query stops the handler: no broadcast, no decode, no report. */
  lemma QueryFailureStops(b: Binding)
    ensures KeyinputEffects(b, None) == [EvaluateInteger(b.handle, MethodHbtnQuery)]
  {
  }

  /**
   * After a successful query exactly one broadcast is made, right after the
   * query and before any report, whatever the scancode turns out to be.
   */
  lemma BroadcastOnceBeforeReport(b: Binding, raw: U64)
    ensures var t := KeyinputEffects(b, Some(raw));
            2 <= |t| && t[0] == EvaluateInteger(b.handle, MethodHbtnQuery) &&
            t[1] == NetlinkEvent(b.deviceClass, b.busId, HbtnNotify, raw) &&
            (forall i :: 0 <= i < |t| && t[i].NetlinkEvent? ==> i == 1) &&
            (forall i :: 0 <= i < |t| && t[i].ReportKey? ==> i > 1)
  {
  }

  /**
   * After a successful query a key is reported exactly when the scancode is
   * in the keymap, and then exactly once, as the looked-up key with the
   * decoded press state.
   */
  lemma ReportOnceIffKnown(b: Binding, raw: U64)
    ensures var t := KeyinputEffects(b, Some(raw));
            var s := Decode(raw);
            ((exists i :: 0 <= i < |t| && t[i].ReportKey?) <==> Lookup(b.keymap, s.scancode).Some?) &&
            (Lookup(b.keymap, s.scancode).None? ==> |t| == 2) &&
            (Lookup(b.keymap, s.scancode).Some? ==> t == t[..2] + [ReportKey(Lookup(b.keymap, s.scancode).value, s.pressed)])
  {
    var t := KeyinputEffects(b, Some(raw));
    if Lookup(b.keymap, Decode(raw).scancode).Some? {
      assert t[2].ReportKey?;
    }
  }

  /**
   * With the driver's keymap installed, the key reported for a status word
   * is the table's key for its scancode, with the decoded press state.
   */
  lemma {:induction false} ReportFollowsTable(b: Binding, raw: U64, key: KeyCode, pressed: bool)
    requires b.keymap == PanasonicKeymap
    ensures ReportKey(key, pressed) in KeyinputEffects(b, Some(raw)) <==>
              KeyFor(Decode(raw).scancode) == Some(key) && pressed == Decode(raw).pressed
  {
    PanasonicLookup(Decode(raw).scancode);
  }

  /**
   * The release flag is forwarded, never filtered: the two words that differ
   * only in bit 0 report the same key, once pressed and once released.
   */
  lemma {:induction false} PressAndReleaseBothReported(b: Binding, raw: U64, key: KeyCode)
    requires Lookup(b.keymap, Decode(raw).scancode) == Some(key)
    ensures var t := KeyinputEffects(b, Some(raw));
            var t' := KeyinputEffects(b, Some(FlipBit0(raw)));
            t[2] == ReportKey(key, Decode(raw).pressed) && t'[2] == ReportKey(key, !Decode(raw).pressed)
  {
    FlipReleaseFlag(raw);
  }

  /** Raw 0x09 reports Esc released; 0x36 reports A1 pressed; 0x7F reports nothing. */
  lemma {:induction false} Scenarios(b: Binding)
    requires b.keymap == PanasonicKeymap
    ensures KeyinputEffects(b, Some(0x09))[2..] == [ReportKey(KeyEsc, false)]
    ensures KeyinputEffects(b, Some(0x36))[2..] == [ReportKey(KeyProg1, true)]
    ensures KeyinputEffects(b, Some(0x7F))[2..] == []
  {
    DecodeExamples();
    PanasonicLookup(0x08);
    PanasonicLookup(0x36);
    PanasonicLookup(0x7E);
  }

  /** Handling one notification on an attached device only uses what it holds and keeps it. */
  lemma NotifyKeepsAttached(b: Binding, n: Notification)
    ensures Run(Attached, NotifyEffects(b, n)) == Some(Attached)
  {
    var t := NotifyEffects(b, n);
    assert forall i :: 0 <= i < |t| ==> t[i].EvaluateInteger? || t[i].NetlinkEvent? || t[i].ReportKey?;
    RunStable(Attached, t);
  }

  /** The kernel calls of a series of notifications, handled one after the other. */
  function NotifyAll(b: Binding, ns: seq<Notification>): (effects: seq<Effect>)
    decreases |ns|
  {
    if ns == [] then [] else NotifyEffects(b, ns[0]) + NotifyAll(b, ns[1..])
  }

  /** Any series of notifications leaves an attached device attached. */
  lemma {:induction false} NotifyAllKeepsAttached(b: Binding, ns: seq<Notification>)
    ensures Run(Attached, NotifyAll(b, ns)) == Some(Attached)
    decreases |ns|
  {
    if ns != [] {
      NotifyKeepsAttached(b, ns[0]);
      RunAppend(Attached, NotifyEffects(b, ns[0]), NotifyAll(b, ns[1..]));
      NotifyAllKeepsAttached(b, ns[1..]);
    }
  }

  /**
   * A device's whole life: attach (whatever the kernel answers), then, if the
   * attach succeeded, any series of notifications and a detach. The trace is
   * a correct use of the kernel, and nothing is left allocated or registered.
   */
  lemma {:induction false} LifecycleLeavesNothing(pccAlloc: bool, inputAlloc: bool, setupError: int, registerError: int,
                                                  b: Binding, ns: seq<Notification>)
    ensures var add := AddSpec(false, pccAlloc, inputAlloc, setupError, registerError);
            Run(Detached, add.effects + (if add.result == 0 then NotifyAll(b, ns) + DetachEffects else [])) == Some(Detached)
  {
    var add := AddSpec(false, pccAlloc, inputAlloc, setupError, registerError);
    if add.result == 0 {
      NotifyAllKeepsAttached(b, ns);
      RunAppend(Attached, NotifyAll(b, ns), DetachEffects);
      RunAppend(Detached, add.effects, NotifyAll(b, ns) + DetachEffects);
    } else {
      assert add.effects + [] == add.effects;
    }
  }
}
