/**
 * The stock rules of the blood-stock map page: a hospital's inventory is
 * summed into a level (`unknown`, `empty`, `low`, `medium`, `high`), each
 * level has a marker colour, and each inventory line a colour by its count.
 *
 * `unitsAvailable` is an integer or missing (`None`); the page's React state,
 * the geolocation call and the haversine distance are not modelled.
 */
module BloodStockMap {
  import opened Wrappers

  /** One inventory line of a hospital. */
  datatype Item = Item(bloodGroup: string, unitsAvailable: Option<int>)

  /** `item.unitsAvailable || 0`. */
  function UnitsOrZero(item: Item): int {
    item.unitsAvailable.GetOr(0)
  }

  /** `inventory.reduce((sum, item) => sum + (item.unitsAvailable || 0), 0)`, folded from the left. */
  function Total(inventory: seq<Item>): int {
    if inventory == [] then 0
    else Total(inventory[..|inventory| - 1]) + UnitsOrZero(inventory[|inventory| - 1])
  }

  /** The total of a concatenation is the sum of the totals. */
  lemma {:induction false} TotalAppend(a: seq<Item>, b: seq<Item>)
    ensures Total(a + b) == Total(a) + Total(b)
    decreases |b|
  {
    if b != [] {
      assert (a + b)[..|a + b| - 1] == a + b[..|b| - 1];
      TotalAppend(a, b[..|b| - 1]);
    } else {
      assert a + b == a;
    }
  }

  /** A line without `unitsAvailable` adds nothing to the total. */
  lemma MissingUnitsCountZero(inventory: seq<Item>, bloodGroup: string)
    ensures Total(inventory + [Item(bloodGroup, None)]) == Total(inventory)
  {
    assert (inventory + [Item(bloodGroup, None)])[..|inventory|] == inventory;
  }

  /** With no negative counts the total is never negative. */
  lemma {:induction false} TotalNonNegative(inventory: seq<Item>)
    requires forall i :: 0 <= i < |inventory| ==> UnitsOrZero(inventory[i]) >= 0
    ensures Total(inventory) >= 0
    decreases |inventory|
  {
    if inventory != [] {
      TotalNonNegative(inventory[..|inventory| - 1]);
    }
  }

  // ---------------------------------------------------------------------------
  // getStockLevel

  /** The level of a non-empty inventory with the given total. */
  function LevelOfTotal(total: int): (r: string)
    ensures r == "empty" <==> total == 0
    ensures r == "low" <==> total != 0 && total < 10
    ensures r == "medium" <==> 10 <= total < 30
    ensures r == "high" <==> total >= 30
  {
    if total == 0 then "empty"
    else if total < 10 then "low"
    else if total < 30 then "medium"
    else "high"
  }

  /**
   * `getStockLevel`: `'unknown'` exactly for a missing or empty inventory,
   * otherwise the level of its total (a negative total is `'low'`).
   */
  function GetStockLevel(inventory: Option<seq<Item>>): (r: string)
    ensures r == "unknown" <==> inventory.None? || inventory.value == []
    ensures inventory.Some? && inventory.value != [] ==> r == LevelOfTotal(Total(inventory.value))
  {
    if inventory.None? || |inventory.value| == 0 then "unknown"
    else LevelOfTotal(Total(inventory.value))
  }

  /** Orders the levels a total can reach: empty < low < medium < high. */
  function Rank(level: string): nat {
    if level == "empty" then 0
    else if level == "low" then 1
    else if level == "medium" then 2
    else 3
  }

  /** For non-negative totals more units never give a lower level. */
  lemma LevelMonotone(t1: int, t2: int)
    requires 0 <= t1 <= t2
    ensures Rank(LevelOfTotal(t1)) <= Rank(LevelOfTotal(t2))
  {
  }

  /** Adding lines with non-negative counts to a non-empty inventory never lowers its level. */
  lemma AddingStockNeverLowersLevel(inventory: seq<Item>, more: seq<Item>)
    requires inventory != []
    requires forall i :: 0 <= i < |inventory| ==> UnitsOrZero(inventory[i]) >= 0
    requires forall i :: 0 <= i < |more| ==> UnitsOrZero(more[i]) >= 0
    ensures Rank(GetStockLevel(Some(inventory))) <= Rank(GetStockLevel(Some(inventory + more)))
  {
    TotalAppend(inventory, more);
    TotalNonNegative(inventory);
    TotalNonNegative(more);
    LevelMonotone(Total(inventory), Total(inventory + more));
  }

  // ---------------------------------------------------------------------------
  // Colours

  /** `getStockColor`: a fixed colour per known level, gray for anything else. */
  function GetStockColor(level: string): (r: string)
    ensures level == "high" ==> r == "bg-green-500"
    ensures level == "medium" ==> r == "bg-yellow-500"
    ensures level == "low" ==> r == "bg-orange-500"
    ensures level == "empty" ==> r == "bg-red-500"
    ensures level !in {"high", "medium", "low", "empty"} ==> r == "bg-gray-400"
  {
    match level
    case "high" => "bg-green-500"
    case "medium" => "bg-yellow-500"
    case "low" => "bg-orange-500"
    case "empty" => "bg-red-500"
    case _ => "bg-gray-400"
  }

  /** A hospital's marker is gray exactly when its inventory is missing or empty. */
  lemma GrayIffUnknown(inventory: Option<seq<Item>>)
    ensures GetStockColor(GetStockLevel(inventory)) == "bg-gray-400" <==>
              inventory.None? || inventory.value == []
  {
  }

  /** `item.unitsAvailable > 10 ? green : item.unitsAvailable > 5 ? yellow : red`; a missing count is red. */
  function UnitColor(unitsAvailable: Option<int>): (r: string)
    ensures r == "text-green-600" <==> unitsAvailable.Some? && unitsAvailable.value > 10
    ensures r == "text-yellow-600" <==> unitsAvailable.Some? && 5 < unitsAvailable.value <= 10
    ensures r == "text-red-600" <==> unitsAvailable.None? || unitsAvailable.value <= 5
  {
    if unitsAvailable.Some? && unitsAvailable.value > 10 then "text-green-600"
    else if unitsAvailable.Some? && unitsAvailable.value > 5 then "text-yellow-600"
    else "text-red-600"
  }
}
