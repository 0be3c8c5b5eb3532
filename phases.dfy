/** The animation phases both scripts step through: 0 waiting, 1 tree growth, 2 fruit
    growth, 3 butterflies. */
module Phases {

  /** The state change of one advance trigger: 0 -> 1 -> 2 -> 3, and 3 stays 3. */
  function NextState(state: int): (r: int)
    ensures 0 <= state <= 3 ==> 0 <= r <= 3 && r >= state && (r == state <==> state == 3)
  {
    if state == 0 then 1 else if state == 1 then 2 else if state == 2 then 3 else state
  }

  function MinInt(a: int, b: int): int
  {
    if a <= b then a else b
  }

}
