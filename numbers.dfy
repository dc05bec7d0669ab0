/** Integer helpers shared by the health classifier and both servers. */
module Numbers {

  function Min(x: int, y: int): int {
    if x <= y then x else y
  }

  /** `count += 1 if count < cap else 0`: a counter that grows by at most one
      and never passes its cap once it has reached it. */
  function SaturatingIncrement(count: int, cap: int): (r: int)
    ensures count <= r <= count + 1
    ensures count <= cap ==> r <= cap
    ensures r == count <==> count >= cap
  {
    count + (if count < cap then 1 else 0)
  }
}
