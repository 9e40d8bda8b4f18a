/** The message reference-number allocator of bob_wemo_service/ref_num.py:
    one shared counter that starts at 100, is pre-incremented by `new()` and
    wraps back to 100 once it passes 999. */
module RefNumbers {
  import opened Wrappers
  import opened Text
  import opened Values

  const Lowest: int := 100
  const Highest: int := 999
  /** How many references one wrap cycle hands out. */
  const CycleLength: int := Highest - Lowest + 1

  /** The counter after one `new()`. */
  function NextRef(n: int): (r: int)
    ensures r <= Highest
    ensures Lowest <= n <= Highest ==> Lowest <= r <= Highest
    ensures n >= Highest ==> r == Lowest
    ensures n < Highest ==> r == n + 1
  {
    if n + 1 > Highest then Lowest else n + 1
  }

  /** The counter after `k` successive `new()` calls. */
  function Iterate(n: int, k: nat): int
    decreases k
  {
    if k == 0 then n else NextRef(Iterate(n, k - 1))
  }

  /** Inside the cycle, `k` calls move the counter `k` places round it. */
  lemma {:induction false} IterateInCycle(n: int, k: nat)
    requires Lowest <= n <= Highest
    ensures Iterate(n, k) == Lowest + (n - Lowest + k) % CycleLength
    decreases k
  {
    if k > 0 {
      IterateInCycle(n, k - 1);
      ModSucc(n - Lowest + k - 1);
    }
  }

  /** One step round the cycle: the residue of the successor. */
  lemma ModSucc(x: int)
    requires 0 <= x
    ensures (x + 1) % CycleLength == if x % CycleLength == CycleLength - 1 then 0 else x % CycleLength + 1
  {
  }

  /** The values returned by `k` successive `new()` calls, in order. */
  function Handed(n: int, k: nat): (refs: seq<int>)
    ensures |refs| == k
  {
    seq(k, i requires 0 <= i < k => Iterate(n, i + 1))
  }

  lemma ModOnce(x: int)
    requires 0 <= x < 2 * CycleLength
    ensures x % CycleLength == if x < CycleLength then x else x - CycleLength
  {
  }

  /** Starting anywhere in [100, 999], 900 calls hand out every value of the
      range exactly once and leave the counter where it started. */
  lemma FullCycle(n: int)
    requires Lowest <= n <= Highest
    ensures Iterate(n, CycleLength) == n
    ensures forall i, j :: 0 <= i < j < CycleLength ==> Handed(n, CycleLength)[i] != Handed(n, CycleLength)[j]
    ensures forall v :: Lowest <= v <= Highest ==> v in Handed(n, CycleLength)
  {
    var refs := Handed(n, CycleLength);
    var a := n - Lowest;
    IterateInCycle(n, CycleLength);
    ModOnce(a + CycleLength);
    forall i, j | 0 <= i < j < CycleLength ensures refs[i] != refs[j] {
      IterateInCycle(n, i + 1);
      IterateInCycle(n, j + 1);
      ModOnce(a + i + 1);
      ModOnce(a + j + 1);
    }
    forall v | Lowest <= v <= Highest ensures v in refs {
      var b := v - Lowest;
      var k := if b > a then b - a else b - a + CycleLength;
      IterateInCycle(n, k);
      ModOnce(a + k);
      assert refs[k - 1] == v;
    }
  }

  /** `RefNum`: the counter `_source`, read as a string through `source`. */
  class RefNum {
    var source: int

    /** A fresh allocator holds 100. */
    constructor ()
      ensures source == Lowest
    {
      source := Lowest;
    }

    /** The `source` getter: `str(self._source)`. */
    function Source(): string
      reads this
    {
      IntToString(source)
    }

    /** The `source` setter: an int is stored as given, a string through
        `int()` (which raises on a string that is not a number, leaving the
        counter as it was), and any other value is ignored. */
    method SetSource(value: Value) returns (o: Outcome<()>)
      modifies this
      ensures value.IntV? ==> o == Ok(()) && source == value.i
      ensures value.StrV? && ParseInt(value.s).Some? ==>
        o == Ok(()) && source == ParseInt(value.s).value
      ensures value.StrV? && ParseInt(value.s).None? ==> o == ValueError && source == old(source)
      ensures !value.IntV? && !value.StrV? ==> o == Ok(()) && source == old(source)
    {
      o := Ok(());
      if value.IntV? {
        source := value.i;
      } else if value.StrV? {
        var parsed := ParseInt(value.s);
        if parsed.Some? {
          source := parsed.value;
        } else {
          o := ValueError;
        }
      }
    }

    /** `new()`: increment, wrap to 100 past 999, and return the new value
        as the subsequent `source` reading shows it. */
    method New() returns (r: string)
      modifies this
      ensures source == NextRef(old(source))
      ensures r == Source()
    {
      source := source + 1;
      if source > Highest {
        source := Lowest;
      }
      r := IntToString(source);
    }
  }

  /** The first `new()` on a fresh allocator returns "101". */
  method FirstReference() returns (r: string)
    ensures r == "101"
  {
    var refNum := new RefNum();
    r := refNum.New();
    assert refNum.source == 101;
    assert NatToString(101) == NatToString(10) + [DigitChar(1)];
    assert NatToString(10) == NatToString(1) + [DigitChar(0)];
  }
}
