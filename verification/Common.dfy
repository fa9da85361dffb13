// Shared vocabulary: failure-compatible results and the source's integer widths.
module Common {

  const U16_MAX: nat := 0xFFFF
  const U32_MAX: nat := 0xFFFF_FFFF
  const U64_MAX: nat := 0xFFFF_FFFF_FFFF_FFFF

  type u32 = n: nat | n <= U32_MAX

  datatype Option<+T> = None | Some(value: T)

  // Rust's Result, usable with `:-` where the source uses `?`.
  datatype Result<+T, +E> = Ok(value: T) | Err(error: E) {
    predicate IsFailure() {
      Err?
    }

    function PropagateFailure<U>(): Result<U, E>
      requires Err?
    {
      Err(error)
    }

    function Extract(): T
      requires Ok?
    {
      value
    }
  }

  function Min(a: int, b: int): int {
    if a <= b then a else b
  }

  // u64::saturating_add.
  function SaturatingAdd(a: nat, b: nat): nat {
    if a + b <= U64_MAX then a + b else U64_MAX
  }

  // u64::saturating_sub / usize::saturating_sub.
  function SaturatingSub(a: nat, b: nat): nat {
    if b <= a then a - b else 0
  }

  predicate IsLeast(k: nat, s: set<nat>) {
    k in s && forall x :: x in s ==> k <= x
  }

  lemma {:induction false} LeastExists(s: set<nat>)
    requires s != {}
    ensures exists k :: k in s && IsLeast(k, s)
    decreases |s|
  {
    var k :| k in s;
    if s == {k} {
      assert IsLeast(k, s);
    } else {
      LeastExists(s - {k});
      var l :| l in s - {k} && IsLeast(l, s - {k});
      var least := if l < k then l else k;
      assert IsLeast(least, s) by {
        forall x | x in s ensures least <= x {
          assert x == k || x in s - {k};
        }
      }
    }
  }
}
