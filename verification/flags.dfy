/** The pyload status bit table and the meaning of testing one bit of a status
    word with Python's `&`. */
module StatusFlags {

  /** The eight status flags, in the order of their bit positions. */
  datatype Flag = Started | Checking | CheckStart | Checked | Error | Paused | Queued | Loaded {

    /** Bit position of the flag in the status word. */
    function Index(): nat {
      match this
      case Started => 0
      case Checking => 1
      case CheckStart => 2
      case Checked => 3
      case Error => 4
      case Paused => 5
      case Queued => 6
      case Loaded => 7
    }

    /** The flag's value in the source's table. */
    function Value(): nat {
      match this
      case Started => 1
      case Checking => 2
      case CheckStart => 4
      case Checked => 8
      case Error => 16
      case Paused => 32
      case Queued => 64
      case Loaded => 128
    }

    /** The flag's key in the source's table. */
    function Name(): string {
      match this
      case Started => "STARTED"
      case Checking => "CHECKING"
      case CheckStart => "CHECK-START"
      case Checked => "CHECKED"
      case Error => "ERROR"
      case Paused => "PAUSED"
      case Queued => "QUEUED"
      case Loaded => "LOADED"
    }
  }

  function Pow2(k: nat): (r: nat)
    ensures r >= 1
  {
    if k == 0 then 1 else 2 * Pow2(k - 1)
  }

  /** Bit k of n in two's complement, which is what `n & 2**k` tests in Python for
      any integer n, negative ones included: Dafny's `/` and `%` by 2 round toward
      negative infinity, as Python's shift does. */
  predicate Bit(n: int, k: nat)
    decreases k
  {
    if k == 0 then n % 2 == 1 else Bit(n / 2, k - 1)
  }

  /** Python's `bits & flag` is truthy. */
  predicate HasFlag(bits: int, f: Flag) {
    Bit(bits, f.Index())
  }

  /** The table is a one-to-one assignment of single bits. */
  lemma FlagTable(f: Flag, g: Flag)
    ensures f.Value() == Pow2(f.Index())
    ensures f != g ==> f.Index() != g.Index() && f.Value() != g.Value() && f.Name() != g.Name()
  {
    assert Pow2(0) == 1 && Pow2(1) == 2 && Pow2(2) == 4 && Pow2(3) == 8;
    assert Pow2(4) == 16 && Pow2(5) == 32 && Pow2(6) == 64 && Pow2(7) == 128;
  }

  /** Setting a clear bit j: bit j is now set and no other bit changes. */
  lemma {:induction false} SetBit(n: int, j: nat, i: nat)
    requires !Bit(n, j)
    ensures Bit(n + Pow2(j), j)
    ensures i != j ==> Bit(n + Pow2(j), i) == Bit(n, i)
    decreases j
  {
    if j == 0 {
      assert n % 2 == 0;
      assert (n + 1) / 2 == n / 2;
    } else {
      var m := Pow2(j - 1);
      assert (n + Pow2(j)) / 2 == n / 2 + m;
      assert (n + Pow2(j)) % 2 == n % 2;
      SetBit(n / 2, j - 1, if i == 0 then 0 else i - 1);
    }
  }

  /** Turning a flag on in a word that lacks it leaves every other flag as it was. */
  lemma SetFlagKeepsOthers(bits: int, f: Flag, g: Flag)
    requires !HasFlag(bits, f) && f != g
    ensures HasFlag(bits + f.Value(), f)
    ensures HasFlag(bits + f.Value(), g) == HasFlag(bits, g)
  {
    FlagTable(f, g);
    SetBit(bits, f.Index(), g.Index());
  }
}
