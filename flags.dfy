/** Channel flag bits and the `has_flag` test on a flags word. */
module Flags {

  /** The flags of an ATTACH/ATTACHED frame: attach-state flags and channel-mode flags. */
  datatype Flag =
    | HasPresence | HasBacklog | Resumed | Transient | AttachResume
    | Presence | Publish | Subscribe | PresenceSubscribe

  /** The bit position of each flag. */
  function BitIndex(f: Flag): nat {
    match f
    case HasPresence => 0
    case HasBacklog => 1
    case Resumed => 2
    case Transient => 4
    case AttachResume => 5
    case Presence => 16
    case Publish => 17
    case Subscribe => 18
    case PresenceSubscribe => 19
  }

  /** The integer value of each flag, as the enumeration declares it. */
  function Value(f: Flag): nat {
    match f
    case HasPresence => 1
    case HasBacklog => 2
    case Resumed => 4
    case Transient => 16
    case AttachResume => 32
    case Presence => 65536
    case Publish => 131072
    case Subscribe => 262144
    case PresenceSubscribe => 524288
  }

  function Pow2(k: nat): (r: nat)
    ensures r > 0
  {
    if k == 0 then 1 else 2 * Pow2(k - 1)
  }

  /** Bit `k` of `a`, i.e. `(a >> k) & 1`. */
  function TestBit(a: nat, k: nat): (r: nat)
    ensures r <= 1
  {
    if k == 0 then a % 2 else TestBit(a / 2, k - 1)
  }

  /** Python's `&` on non-negative integers, bit by bit from the least significant.
      The result never exceeds either operand. */
  function BitAnd(a: nat, b: nat): (r: nat)
    ensures r <= a && r <= b
    decreases a
  {
    if a == 0 || b == 0 then 0
    else 2 * BitAnd(a / 2, b / 2) + (if a % 2 == 1 && b % 2 == 1 then 1 else 0)
  }

  /** `has_flag(message_flags, flag)`: `message_flags & flag > 0`, which holds
      exactly when the flag's own bit is set in the word. */
  predicate HasFlag(flags: nat, f: Flag): (b: bool)
    ensures b <==> TestBit(flags, BitIndex(f)) == 1
  {
    ValueIsPowerOfTwo(f);
    BitAndPow2(flags, BitIndex(f));
    BitAnd(flags, Value(f)) > 0
  }

  /** Each flag is the power of two of its bit position. */
  lemma ValueIsPowerOfTwo(f: Flag)
    ensures Value(f) == Pow2(BitIndex(f))
  {
    assert Pow2(4) == 16;
    assert Pow2(16) == 65536;
    assert Pow2(19) == 524288;
  }

  /** The flags occupy distinct bits. */
  lemma BitIndexInjective(f: Flag, g: Flag)
    ensures BitIndex(f) == BitIndex(g) ==> f == g
  {
  }

  lemma {:induction false} TestBitOfZero(k: nat)
    ensures TestBit(0, k) == 0
  {
    if k > 0 { TestBitOfZero(k - 1); }
  }

  /** Masking with a single power of two isolates that one bit. */
  lemma {:induction false} BitAndPow2(a: nat, k: nat)
    ensures BitAnd(a, Pow2(k)) == Pow2(k) * TestBit(a, k)
    decreases a
  {
    if a == 0 {
      TestBitOfZero(k);
    } else if k == 0 {
      assert BitAnd(a / 2, 0) == 0;
    } else {
      var p := Pow2(k);
      assert p / 2 == Pow2(k - 1) && p % 2 == 0;
      assert BitAnd(a, p) == 2 * BitAnd(a / 2, p / 2);
      BitAndPow2(a / 2, k - 1);
      assert TestBit(a, k) == TestBit(a / 2, k - 1);
    }
  }

  /** Bit `k` of `2^i` is set exactly when `k == i`. */
  lemma {:induction false} TestBitOfPow2(i: nat, k: nat)
    ensures TestBit(Pow2(i), k) == if i == k then 1 else 0
  {
    if i == 0 {
      if k > 0 { TestBitOfZero(k - 1); }
    } else if k > 0 {
      assert Pow2(i) / 2 == Pow2(i - 1);
      TestBitOfPow2(i - 1, k - 1);
    }
  }

  /** A word holding one flag tests positive for that flag and no other. */
  lemma SingleFlagWord(f: Flag, g: Flag)
    ensures HasFlag(Value(f), g) <==> f == g
  {
    ValueIsPowerOfTwo(f);
    TestBitOfPow2(BitIndex(f), BitIndex(g));
    BitIndexInjective(f, g);
  }

  /** An empty flags word has no flag. */
  lemma NoFlagInZero(f: Flag)
    ensures !HasFlag(0, f)
  {
  }
}
