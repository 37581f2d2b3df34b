/**
 * The kernel services the driver calls, as events of a trace, and the
 * bookkeeping of what one attached device holds: whether its context
 * (`struct pcc_acpi`) is allocated, and whether its input device is
 * allocated or registered. Replaying a trace with Run gives those ownership
 * flags and rejects (None) a trace that misuses the kernel: among other
 * things, one that frees something not held, allocates or registers twice,
 * releases the context while its input device still exists, or reports a key
 * to an input device that is not registered.
 */
module KernelServices {
  import opened Wrappers
  import opened StatusWord
  import opened SparseKeymap

  /** An ACPI handle; only its identity matters here. */
  type Handle = nat

  datatype Effect =
    | EvaluateInteger(handle: Handle, pathname: string)                 // acpi_evaluate_integer
    | NetlinkEvent(deviceClass: string, busId: string, eventType: U32, data: U64)
                                                                        // acpi_bus_generate_netlink_event
    | ReportKey(key: KeyCode, pressed: bool)                            // sparse_keymap_report_entry
    | AllocPcc                                                          // kzalloc succeeded
    | FreePcc                                                           // kfree
    | AllocInput                                                        // input_allocate_device succeeded
    | FreeInput                                                         // input_free_device
    | RegisterInput                                                     // input_register_device succeeded
    | UnregisterInput                                                   // input_unregister_device

  datatype InputState = NoInput | InputAllocated | InputRegistered

  /** The ownership flags of one device. */
  datatype Held = Held(pcc: bool, input: InputState)

  /** Nothing held: before attach, and after a clean detach. */
  const Detached := Held(false, NoInput)

  /** What a successfully attached device holds. */
  const Attached := Held(true, InputRegistered)

  /** One kernel call, or None when it would be a misuse. */
  function Step(h: Held, e: Effect): (r: Option<Held>)
  {
    match e
    case EvaluateInteger(_, _) => if h.pcc then Some(h) else None
    case NetlinkEvent(_, _, _, _) => if h.pcc then Some(h) else None
    case ReportKey(_, _) => if h.input == InputRegistered then Some(h) else None
    case AllocPcc => if !h.pcc && h.input == NoInput then Some(h.(pcc := true)) else None
    case FreePcc => if h.pcc && h.input == NoInput then Some(h.(pcc := false)) else None
    case AllocInput => if h.pcc && h.input == NoInput then Some(h.(input := InputAllocated)) else None
    case FreeInput => if h.input == InputAllocated then Some(h.(input := NoInput)) else None
    case RegisterInput => if h.input == InputAllocated then Some(h.(input := InputRegistered)) else None
    case UnregisterInput => if h.input == InputRegistered then Some(h.(input := NoInput)) else None
  }

  /** Replays a trace from `h`; None as soon as one call is a misuse. */
  function Run(h: Held, trace: seq<Effect>): (r: Option<Held>)
    decreases |trace|
  {
    if trace == [] then Some(h)
    else match Step(h, trace[0])
      case None => None
      case Some(h') => Run(h', trace[1..])
  }

  /** Replaying two traces one after the other is replaying their concatenation. */
  lemma {:induction false} RunAppend(h: Held, a: seq<Effect>, b: seq<Effect>)
    ensures Run(h, a + b) == match Run(h, a) case None => None case Some(h') => Run(h', b)
    decreases |a|
  {
    if a == [] {
      assert a + b == b;
    } else {
      assert (a + b)[0] == a[0];
      assert (a + b)[1..] == a[1..] + b;
      match Step(h, a[0])
      case None =>
      case Some(h') => RunAppend(h', a[1..], b);
    }
  }

  /** A trace made only of calls that leave the flags as they are leaves them as they are. */
  lemma {:induction false} RunStable(h: Held, trace: seq<Effect>)
    requires forall i :: 0 <= i < |trace| ==> Step(h, trace[i]) == Some(h)
    ensures Run(h, trace) == Some(h)
    decreases |trace|
  {
    if trace != [] {
      assert Step(h, trace[0]) == Some(h);
      assert forall i :: 0 <= i < |trace[1..]| ==> trace[1..][i] == trace[i + 1];
      RunStable(h, trace[1..]);
    }
  }
}
