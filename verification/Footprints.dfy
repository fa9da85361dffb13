// Five-component memory footprints: checked arithmetic and sums over the
// registry's maps (model.rs and the arithmetic helpers of runtime.rs).
module Footprints {
  import opened Common

  datatype Footprint = Footprint(
    hostWeight: nat,
    deviceWeight: nat,
    hostWorking: nat,
    deviceWorking: nat,
    cachePerToken: nat
  )

  datatype Budget = Budget(host: nat, device: nat)

  datatype ArithmeticError = Overflow | Underflow

  function Zero(): Footprint { Footprint(0, 0, 0, 0, 0) }

  // Exact (unbounded) component-wise addition; the specification the checked
  // u64 operations are measured against.
  function Plus(a: Footprint, b: Footprint): Footprint {
    Footprint(
      a.hostWeight + b.hostWeight,
      a.deviceWeight + b.deviceWeight,
      a.hostWorking + b.hostWorking,
      a.deviceWorking + b.deviceWorking,
      a.cachePerToken + b.cachePerToken)
  }

  // Component-wise u64::saturating_sub.
  function Minus(a: Footprint, b: Footprint): (r: Footprint)
    ensures AtMost(b, a) ==> Plus(r, b) == a
  {
    Footprint(
      SaturatingSub(a.hostWeight, b.hostWeight),
      SaturatingSub(a.deviceWeight, b.deviceWeight),
      SaturatingSub(a.hostWorking, b.hostWorking),
      SaturatingSub(a.deviceWorking, b.deviceWorking),
      SaturatingSub(a.cachePerToken, b.cachePerToken))
  }

  predicate FitsU64(f: Footprint) {
    && f.hostWeight <= U64_MAX
    && f.deviceWeight <= U64_MAX
    && f.hostWorking <= U64_MAX
    && f.deviceWorking <= U64_MAX
    && f.cachePerToken <= U64_MAX
  }

  predicate AtMost(a: Footprint, b: Footprint) {
    && a.hostWeight <= b.hostWeight
    && a.deviceWeight <= b.deviceWeight
    && a.hostWorking <= b.hostWorking
    && a.deviceWorking <= b.deviceWorking
    && a.cachePerToken <= b.cachePerToken
  }

  function HostBytes(f: Footprint): nat {
    SaturatingAdd(f.hostWeight, f.hostWorking)
  }

  function DeviceBytes(f: Footprint): nat {
    SaturatingAdd(f.deviceWeight, f.deviceWorking)
  }

  predicate WithinBudget(f: Footprint, budget: Budget) {
    HostBytes(f) <= budget.host && DeviceBytes(f) <= budget.device
  }

  function CheckedAdd(a: Footprint, b: Footprint): (r: Result<Footprint, ArithmeticError>)
    ensures r.Ok? <==> FitsU64(Plus(a, b))
    ensures r.Ok? ==> r.value == Plus(a, b)
    ensures r.Err? ==> r.error == Overflow
  {
    if a.hostWeight + b.hostWeight > U64_MAX then Err(Overflow)
    else if a.deviceWeight + b.deviceWeight > U64_MAX then Err(Overflow)
    else if a.hostWorking + b.hostWorking > U64_MAX then Err(Overflow)
    else if a.deviceWorking + b.deviceWorking > U64_MAX then Err(Overflow)
    else if a.cachePerToken + b.cachePerToken > U64_MAX then Err(Overflow)
    else Ok(Plus(a, b))
  }

  function CheckedSub(a: Footprint, b: Footprint): (r: Result<Footprint, ArithmeticError>)
    ensures r.Ok? <==> AtMost(b, a)
    ensures r.Ok? ==> Plus(r.value, b) == a
    ensures r.Err? ==> r.error == Underflow
  {
    if a.hostWeight < b.hostWeight then Err(Underflow)
    else if a.deviceWeight < b.deviceWeight then Err(Underflow)
    else if a.hostWorking < b.hostWorking then Err(Underflow)
    else if a.deviceWorking < b.deviceWorking then Err(Underflow)
    else if a.cachePerToken < b.cachePerToken then Err(Underflow)
    else Ok(Minus(a, b))
  }

  // The sum of f over every entry of a finite map.
  ghost function Sum<K, V>(m: map<K, V>, f: V -> Footprint): Footprint
    decreases |m|
  {
    if m == map[] then Zero()
    else
      var k :| k in m;
      Plus(Sum(m - {k}, f), f(m[k]))
  }

  lemma SumEmpty<K, V>(f: V -> Footprint)
    ensures Sum<K, V>(map[], f) == Zero()
  {
  }

  lemma {:induction false} SumRemove<K, V>(m: map<K, V>, f: V -> Footprint, k: K)
    requires k in m
    ensures Sum(m, f) == Plus(Sum(m - {k}, f), f(m[k]))
    decreases |m|
  {
    hide Sum, Plus;
    var c := SumPick(m, f);
    if c != k {
      SumRemove(m - {c}, f, k);
      SumRemove(m - {k}, f, c);
      assert m - {c} - {k} == m - {k} - {c};
      PlusSwap(Sum(m - {c} - {k}, f), f(m[k]), f(m[c]));
    }
  }

  lemma SumPick<K, V>(m: map<K, V>, f: V -> Footprint) returns (c: K)
    requires m != map[]
    ensures c in m && Sum(m, f) == Plus(Sum(m - {c}, f), f(m[c]))
  {
    c :| c in m && Sum(m, f) == Plus(Sum(m - {c}, f), f(m[c]));
  }

  lemma PlusSwap(a: Footprint, b: Footprint, c: Footprint)
    ensures Plus(Plus(a, b), c) == Plus(Plus(a, c), b)
  {
  }

  lemma SumInsert<K, V>(m: map<K, V>, f: V -> Footprint, k: K, v: V)
    requires k !in m
    ensures Sum(m[k := v], f) == Plus(Sum(m, f), f(v))
  {
    SumRemove(m[k := v], f, k);
    assert m[k := v] - {k} == m;
  }

  lemma SumUpdate<K, V>(m: map<K, V>, f: V -> Footprint, k: K, v: V)
    requires k in m
    ensures Plus(Sum(m[k := v], f), f(m[k])) == Plus(Sum(m, f), f(v))
  {
    SumRemove(m[k := v], f, k);
    SumRemove(m, f, k);
    assert m[k := v] - {k} == m - {k};
  }
}
