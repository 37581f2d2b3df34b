# Panasonic tablet-button driver, modelled in Dafny

This project models the core of `panasonic-hbtn.c`, a Linux ACPI driver for
the tablet buttons of Panasonic CF-18/19 and FZ-G1 machines. When the firmware
sends notification 0x80, the driver does the following:

1. It evaluates the ACPI method `HINF` to read a 64-bit status word.
2. It broadcasts the raw word over ACPI netlink.
3. It decodes the word. Bit 0 is the release flag, so a clear bit means pressed. The word with bit 0 cleared, truncated to 32 bits, is the scancode.
4. It looks the scancode up in an eight-entry sparse keymap.
5. If the scancode is in the keymap, it reports that key to the input layer once.

The model also covers the attach and detach handlers. They allocate the
driver's context (`struct pcc_acpi`), allocate an input device, give it its
identity, install the keymap and register it. On failure they unwind in the
reverse order.

Layout:

- `wrappers.dfy`: `Option`.
- `status_word.dfy` (`StatusWord`): decoding of the status word, a firmware-side `Encode` that is its inverse, and lemmas about both.
- `sparse_keymap.dfy` (`SparseKeymap`): the keymap as a constant sequence that ends in the `KE_END` sentinel. The first-match lookup is a recursive function, and `KeyFor` gives the same table as a case analysis.
- `kernel_services.dfy` (`KernelServices`): the kernel calls the driver makes, recorded as trace events. `Step`/`Run` replay a trace into the ownership flags of one device: context allocated, and input device absent, allocated or registered. Any misuse yields `None`. The misuses are:
  - querying the firmware or broadcasting without an allocated context;
  - allocating the context, or its input device, a second time;
  - allocating an input device without a context;
  - registering an input device that is not freshly allocated (for instance, registering twice);
  - freeing an input device that is registered or absent, or unregistering one that is not registered;
  - freeing a context that is not held, or releasing the context while its input device still exists;
  - reporting a key to an input device that is not registered.
- `hbtn.dfy` (`Hbtn`): the driver.
  - Classes: `AcpiDevice`, `InputDev` and `PccAcpi`, with the fields the driver writes.
  - Handlers: `GenerateKeyinput`, `Notify`, `InitInput`, `DestroyInput`, `Add` and `Remove`.
  - Specification functions for these handlers: `KeyinputEffects`, `InitInputSpec` and `AddSpec`.
- `hbtn_properties.dfy` (`HbtnProperties`): lemmas that relate several calls. They cover:
  - the order and count of broadcasts and reports;
  - the worked scenarios;
  - one full device life (attach, any number of notifications, detach), which leaves nothing allocated or registered.

Collaborators are parameters:

- The answer to the `HINF` query is an `Option<U64>`, where `None` means the evaluation failed.
- The results of `kzalloc` and `input_allocate_device` are booleans.
- The return codes of `sparse_keymap_setup` and `input_register_device` are integers, where 0 means success.

Each handler returns the sequence of kernel calls it made.

Integers: the status word is a `U64` and the scancode a `U32` (subset types of
`int`). Clearing bit 0 is `x - x % 2`. Storing into the 32-bit
`unsigned int` is `% 2^32`. Flipping bit 0 (`raw ^ 1`) is `FlipBit0`, which is
characterised by its effect on bit 0 and on the rest of the word.

The model reproduces four behaviours of the code as written:

- The scancode is not the full 64-bit word with bit 0 cleared. It is assigned to an `unsigned int` (panasonic-hbtn.c:89), so bits 32 to 63 are dropped (`UpperHalfIgnored`).
- A failed attach does not hide the partial context. `device->driver_data` is set at :191 and is not cleared when `kfree(pcc)` runs at :198. `Add` ensures that `driverData` still refers to the released context.
- Detach is not safe to call with a null device. `acpi_pcc_hbtn_remove` reads `device->driver_data` (:210) before its `!device` test (:212), so `Remove` reports a fault for a null device. Remove clears nothing, and it is not listed in the driver's `ops` (:55-58), so the ACPI core never calls it.
- Any non-zero code from `sparse_keymap_setup` or `input_register_device` counts as a failure and is returned unchanged (`if (error)`, `if (result)`).

## Model

| member | source | states |
|---|---|---|
| `StatusWord.Decode` | panasonic-hbtn.c:102-104 | the scancode is even, and the low 32 bits of the raw word equal the scancode for a press and the scancode plus one for a release (inverted polarity of bit 0) |
| `StatusWord.Encode` | panasonic-hbtn.c:102 | a word built from a press flag, an even scancode and an upper half has bit 0 clear exactly when pressed, and its low 32 bits carry scancode and flag |
| `StatusWord.DecodeEncode` | panasonic-hbtn.c:102-104 | decoding an encoded word gives back exactly the press flag and scancode that were encoded |
| `StatusWord.EncodeDecode` | panasonic-hbtn.c:102-104 | every 64-bit word is the encoding of its decoded pair and its upper 32 bits: decoding loses nothing below bit 32 |
| `StatusWord.FlipReleaseFlag` | panasonic-hbtn.c:102-104 | two words that differ only in bit 0 give the same scancode and opposite press states |
| `StatusWord.UpperHalfIgnored` | panasonic-hbtn.c:89-104 | words that agree in their low 32 bits decode identically (the `unsigned int` store drops the upper half) |
| `StatusWord.DecodeExamples` | panasonic-hbtn.c:102-104 | 0x09 decodes to released 0x08, 0x36 to pressed 0x36, 0x7F to released 0x7E, 0x1_0000_0036 to pressed 0x36 |
| `SparseKeymap.ScanLength` | panasonic-hbtn.c:61-73 | the scan covers the entries before the first `KE_END` sentinel: all of them are key entries and the next one, if any, is the sentinel |
| `SparseKeymap.Lookup` | panasonic-hbtn.c:109 | the first-match scan up to the sentinel; its meaning is stated by `LookupFindsFirstMatch` and `LookupNoneIffAbsent` below |
| `SparseKeymap.LookupFindsFirstMatch` | panasonic-hbtn.c:109 | a found key is that of a scanned entry with the scancode, and no earlier scanned entry has the scancode (first match wins) |
| `SparseKeymap.LookupNoneIffAbsent` | panasonic-hbtn.c:109-114 | lookup fails exactly when no entry before the sentinel has the scancode, in both directions |
| `SparseKeymap.PanasonicLookup` | panasonic-hbtn.c:61-73 | for every scancode, the lookup in the driver's table gives 0x0 reserved, 0x4 screen lock, 0x6 MS-DOS, 0x8 Esc, 0xA menu, 0x36 prog1, 0x38 prog2, 0x42 left meta, and nothing for any other code |
| `SparseKeymap.PanasonicCodesDistinct` | panasonic-hbtn.c:61-73 | the table has eight key entries before the sentinel and no two share a scancode |
| `SparseKeymap.EveryKeyReachable` | panasonic-hbtn.c:61-73 | every table scancode is even, so some status word decodes to it and resolves to its key, pressed or released |
| `SparseKeymap.UnknownScancodeExample` | panasonic-hbtn.c:109-114 | scancode 0x7E is not in the table |
| `Hbtn.PccAcpi.constructor` | panasonic-hbtn.c:183 | `kzalloc` yields a context with null device and input device |
| `Hbtn.InputDev.constructor` | panasonic-hbtn.c:137 | a freshly allocated input device has no identity and no keymap |
| `Hbtn.PccAcpi.GenerateKeyinput` | panasonic-hbtn.c:83-117 | the calls made are the HINF query, then (on success) one broadcast of the raw word, then a report of the looked-up key with the decoded press state only when the lookup succeeds (`KeyinputEffects`) |
| `Hbtn.Notify` | panasonic-hbtn.c:119-130 | an event other than 0x80 makes no call at all; event 0x80 makes exactly the calls of `acpi_pcc_generate_keyinput` on the device's context |
| `Hbtn.InitInputSpec` | panasonic-hbtn.c:132-168 | init succeeds exactly when allocation, keymap setup and registration all succeed; a failed allocation returns -ENOMEM, otherwise the first non-zero code of `sparse_keymap_setup` then `input_register_device` is returned unchanged; from a held context it ends with a registered input device on success and none on failure, never misusing the input layer |
| `Hbtn.InitInput` | panasonic-hbtn.c:132-168 | returns the code and calls of `InitInputSpec`; on success the context's new input device carries the driver name, `panasonic/hbtn0`, BUS_HOST, 0x0001/0x0001/0x0100 and the driver's keymap; on failure the context is untouched |
| `Hbtn.DestroyInput` | panasonic-hbtn.c:170-173 | one unregistration, which takes an attached device to a context without input device |
| `Hbtn.AddSpec` | panasonic-hbtn.c:175-206 | null device gives -EINVAL and no call; failed `kzalloc` gives -ENOMEM and no call; after the context is allocated the code is that of `acpi_pcc_init_input`, unchanged; success exactly when every step succeeds; every outcome is a correct use of the kernel that ends attached on success and holding nothing on failure (input freed before the context) |
| `Hbtn.Add` | panasonic-hbtn.c:175-206 | returns the code and calls of `AddSpec`; with an allocated context, sets driver_data, context device and handle, and device name "TabletButton" and class "pcc"; on success the context is bound to a configured, fresh input device; on failure its input device stays null while driver_data still refers to it |
| `Hbtn.Remove` | panasonic-hbtn.c:208-217 | a null device faults (read at :210 before the test at :212); a device without context makes no call; otherwise it unregisters the input device and then frees the context, which takes an attached device to holding nothing |
| `HbtnProperties.QueryFailureStops` | panasonic-hbtn.c:92-97 | a failed HINF query makes no broadcast and no report |
| `HbtnProperties.BroadcastOnceBeforeReport` | panasonic-hbtn.c:99-116 | after a successful query there is exactly one broadcast (device class, bus id, 0x80, raw word), right after the query and before any report |
| `HbtnProperties.ReportOnceIffKnown` | panasonic-hbtn.c:109-116 | after a successful query a report happens if and only if the scancode resolves, and then exactly once, as the resolved key with the decoded press state |
| `HbtnProperties.ReportFollowsTable` | panasonic-hbtn.c:102-116 | with the driver's keymap, a report of a given key and state appears exactly when the table maps the decoded scancode to that key and the state is the decoded one |
| `HbtnProperties.PressAndReleaseBothReported` | panasonic-hbtn.c:102-116 | a word and the word with bit 0 flipped both report the same key, with opposite states (no transition filtered) |
| `HbtnProperties.Scenarios` | panasonic-hbtn.c:102-116 | raw 0x09 reports Esc released, raw 0x36 reports prog1 (A1) pressed, raw 0x7F reports nothing |
| `HbtnProperties.NotifyKeepsAttached` | panasonic-hbtn.c:119-130 | handling any notification on an attached device only uses resources it holds and leaves it attached |
| `HbtnProperties.NotifyAllKeepsAttached` | panasonic-hbtn.c:119-130 | any series of notifications leaves an attached device attached |
| `HbtnProperties.LifecycleLeavesNothing` | panasonic-hbtn.c:175-217 | attach under any kernel answers, then (if attached) any notifications and a detach, is a correct use of the kernel that leaves no context allocated and no input device allocated or registered |

## Left out

- ACPI method evaluation (`acpi_evaluate_integer`) is a parameter: the query's answer, or `None` for failure.
- The internals of `acpi_bus_generate_netlink_event` are not modelled. The broadcast event records the raw 64-bit word as the driver passes it. Any narrowing done by that function's parameter types is outside this model.
- `sparse_keymap_setup` is not modelled beyond its return code. On success the input device's keymap becomes the driver's table, sentinel included, and the model treats it as a value rather than a copy in memory.
- `sparse_keymap_report_entry` appears as one report event. The model does not separate the key event from the sync that follows it.
- `input_register_device`, `input_free_device`, `input_unregister_device`, `kzalloc` and `kfree` appear as success/failure inputs and trace events. Real memory is not modelled. The trace replay in `KernelServices.Run` plays the role of the allocated/registered flags.
- Logging (`pr_err`, `pr_warn`, `pr_debug`, `pr_info`) is left out because it has no effect on state.
- Module init/exit, driver registration and the device-ID table (panasonic-hbtn.c:43-59, 219-241) are platform plumbing and are not modelled.
- The `strcpy` calls at panasonic-hbtn.c:192-193 become plain string assignments. Buffer sizes are not modelled.
- Concurrency is not modelled. The platform serialises notifications per device, and the driver has no locking.
- Kernel constants come from the Linux headers: EINVAL = 22, ENOMEM = 12, BUS_HOST = 0x19. Key identifiers are named, but their numeric KEY_* values are not modelled.
- Hbtn.Notify: requires that, for event 0x80, the device's context and the context's device and input device are non-null, because the handler dereferences them. The platform sends notifications only to attached devices. A null context is not modelled as a fault.
- Hbtn.Remove: requires that a non-null `driver_data` has an input device. This excludes calling it after a failed attach, where `driver_data` refers to a freed context. Such a use-after-free is not modelled.
- Hbtn.DestroyInput: requires a non-null input device. `input_unregister_device(NULL)` is input-core behaviour, not part of this model.
