/**
 * The driver's sparse keymap (panasonic-hbtn.c:61-73) and the first-match scan
 * the input layer runs over it when the driver asks for the entry of a
 * scancode (`sparse_keymap_entry_from_scancode`, used at panasonic-hbtn.c:109):
 * walk the entries in order until the KE_END sentinel, and return the first
 * whose code equals the scancode.
 */
module SparseKeymap {
  import opened Wrappers
  import opened StatusWord

  /** The logical keys the table names (Linux KEY_* identifiers). */
  datatype KeyCode =
    | KeyReserved   // KEY_RESERVED
    | KeyScreenLock // KEY_SCREENLOCK
    | KeyMsDos      // KEY_MSDOS
    | KeyEsc        // KEY_ESC
    | KeyMenu       // KEY_MENU
    | KeyProg1      // KEY_PROG1, the A1 button
    | KeyProg2      // KEY_PROG2, the A2 button
    | KeyLeftMeta   // KEY_LEFTMETA, the Windows button

  /** A `struct key_entry`: a KE_KEY entry or the KE_END sentinel (whose code is 0). */
  datatype KeyEntry = KeKey(code: U32, key: KeyCode) | KeEnd

  /** `panasonic_keymap[]`, in source order, sentinel included. */
  const PanasonicKeymap: seq<KeyEntry> := [
    KeKey(0x0, KeyReserved),
    KeKey(0x4, KeyScreenLock),
    KeKey(0x6, KeyMsDos),
    KeKey(0x8, KeyEsc),
    KeKey(0xA, KeyMenu),
    KeKey(0x36, KeyProg1),
    KeKey(0x38, KeyProg2),
    KeKey(0x42, KeyLeftMeta),
    KeEnd
  ]

  /**
   * How many entries the scan may visit: every entry before the first
   * sentinel (all of them when there is none).
   */
  function ScanLength(keymap: seq<KeyEntry>): (n: nat)
    ensures n <= |keymap|
    ensures forall i :: 0 <= i < n ==> keymap[i].KeKey?
    ensures n < |keymap| ==> keymap[n].KeEnd?
  {
    if keymap == [] || keymap[0].KeEnd? then 0 else 1 + ScanLength(keymap[1..])
  }

  /**
   * `sparse_keymap_entry_from_scancode`: the key of the first entry before
   * the sentinel whose code is `scancode`, or None. What this means is stated
   * by LookupFindsFirstMatch and LookupNoneIffAbsent below.
   */
  function Lookup(keymap: seq<KeyEntry>, scancode: U32): (r: Option<KeyCode>)
  {
    if keymap == [] || keymap[0].KeEnd? then None
    else if keymap[0].code == scancode then Some(keymap[0].key)
    else Lookup(keymap[1..], scancode)
  }

  /** A found key belongs to the first scanned entry carrying the scancode. */
  lemma {:induction false} LookupFindsFirstMatch(keymap: seq<KeyEntry>, scancode: U32)
    requires Lookup(keymap, scancode).Some?
    ensures exists i :: 0 <= i < ScanLength(keymap) && keymap[i] == KeKey(scancode, Lookup(keymap, scancode).value)
                        && forall j :: 0 <= j < i ==> keymap[j].code != scancode
  {
    if keymap[0].code != scancode {
      LookupFindsFirstMatch(keymap[1..], scancode);
      var i :| 0 <= i < ScanLength(keymap[1..]) && keymap[1..][i] == KeKey(scancode, Lookup(keymap, scancode).value)
               && forall j :: 0 <= j < i ==> keymap[1..][j].code != scancode;
      assert keymap[i + 1] == keymap[1..][i];
      forall j | 0 <= j < i + 1 ensures keymap[j].code != scancode {
        if j > 0 { assert keymap[j] == keymap[1..][j - 1]; }
      }
    }
  }

  /** Lookup fails exactly when no scanned entry carries the scancode. */
  lemma {:induction false} LookupNoneIffAbsent(keymap: seq<KeyEntry>, scancode: U32)
    ensures Lookup(keymap, scancode).None? <==> forall i :: 0 <= i < ScanLength(keymap) ==> keymap[i].code != scancode
  {
    if keymap != [] && keymap[0].KeKey? {
      LookupNoneIffAbsent(keymap[1..], scancode);
      assert forall i :: 0 <= i < ScanLength(keymap[1..]) ==> keymap[1..][i] == keymap[i + 1];
    }
  }

  /** The table written as a case analysis on the scancode. */
  function KeyFor(scancode: U32): (r: Option<KeyCode>)
  {
    if scancode == 0x0 then Some(KeyReserved)
    else if scancode == 0x4 then Some(KeyScreenLock)
    else if scancode == 0x6 then Some(KeyMsDos)
    else if scancode == 0x8 then Some(KeyEsc)
    else if scancode == 0xA then Some(KeyMenu)
    else if scancode == 0x36 then Some(KeyProg1)
    else if scancode == 0x38 then Some(KeyProg2)
    else if scancode == 0x42 then Some(KeyLeftMeta)
    else None
  }

  /** The scan over the driver's table agrees with the case analysis for every scancode. */
  lemma PanasonicLookup(scancode: U32)
    ensures Lookup(PanasonicKeymap, scancode) == KeyFor(scancode)
  {
    var t := PanasonicKeymap;
    assert Lookup(t[8..], scancode) == None;
    assert Lookup(t[7..], scancode) == if scancode == 0x42 then Some(KeyLeftMeta) else None;
    assert Lookup(t[6..], scancode) == if scancode == 0x38 then Some(KeyProg2) else Lookup(t[7..], scancode);
    assert Lookup(t[5..], scancode) == if scancode == 0x36 then Some(KeyProg1) else Lookup(t[6..], scancode);
    assert Lookup(t[4..], scancode) == if scancode == 0xA then Some(KeyMenu) else Lookup(t[5..], scancode);
    assert Lookup(t[3..], scancode) == if scancode == 0x8 then Some(KeyEsc) else Lookup(t[4..], scancode);
    assert Lookup(t[2..], scancode) == if scancode == 0x6 then Some(KeyMsDos) else Lookup(t[3..], scancode);
    assert Lookup(t[1..], scancode) == if scancode == 0x4 then Some(KeyScreenLock) else Lookup(t[2..], scancode);
  }

  /** No two entries of the table share a scancode, so which match is first never matters. */
  lemma PanasonicCodesDistinct()
    ensures ScanLength(PanasonicKeymap) == 8
    ensures forall i, j :: 0 <= i < j < 8 ==> PanasonicKeymap[i].code != PanasonicKeymap[j].code
  {
    var t := PanasonicKeymap;
    assert t[1..][1..][1..][1..][1..][1..][1..][1..] == [KeEnd];
  }

  /**
   * Every button of the table can be reported: its scancode is even, so some
   * status word decodes to it, pressed and released alike.
   */
  lemma EveryKeyReachable(scancode: U32, key: KeyCode, pressed: bool)
    requires KeyFor(scancode) == Some(key)
    ensures var raw := Encode(pressed, scancode, 0);
            Decode(raw) == Status(pressed, scancode) && Lookup(PanasonicKeymap, Decode(raw).scancode) == Some(key)
  {
    DecodeEncode(pressed, scancode, 0);
    PanasonicLookup(scancode);
  }

  /** Worked example: 0x7E, the scancode of status word 0x7F, is not in the table. */
  lemma UnknownScancodeExample()
    ensures Lookup(PanasonicKeymap, 0x7E) == None
  {
    PanasonicLookup(0x7E);
  }
}
