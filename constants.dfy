/**
 * The constant tables of the game (lib/constants.ts): the cosmetic shop
 * catalogue, the practice sections offered on the home screen, and the
 * token rewards for a right answer.
 */
module Constants {
  import opened Types

  predicate DistinctIds(items: seq<ShopItemData>) {
    forall i, j :: 0 <= i < j < |items| ==> items[i].id != items[j].id
  }

  predicate HasCategory(items: seq<ShopItemData>, c: CosmeticCategory) {
    exists i :: 0 <= i < |items| && items[i].category == c
  }

  /** The shop catalogue: two hats, two scarves, two backgrounds. */
  function ShopItems(): (items: seq<ShopItemData>)
    ensures |items| == 6 && DistinctIds(items)
    ensures forall i :: 0 <= i < |items| ==> items[i].cost > 0 && items[i].category != Accessory
    ensures HasCategory(items, Hat) && HasCategory(items, Scarf) && HasCategory(items, Background)
  {
    var items := [
      ShopItemData("arctic-explorer-hat", "Arctic Explorer Hat", 5, Hat),
      ShopItemData("polar-bear-hat", "Polar Bear Hat", 8, Hat),
      ShopItemData("snowflake-scarf", "Snowflake Scarf", 4, Scarf),
      ShopItemData("aurora-scarf", "Aurora Scarf", 6, Scarf),
      ShopItemData("northern-lights", "Northern Lights", 10, Background),
      ShopItemData("snowy-mountain", "Snowy Mountain", 7, Background)
    ];
    assert items[0].category == Hat && items[2].category == Scarf && items[4].category == Background;
    items
  }

  /** The sections offered for play; area-perimeter has a difficulty state but is not listed. */
  function Sections(): (sections: seq<SectionData>)
    ensures |sections| == 4
    ensures forall i, j :: 0 <= i < j < |sections| ==> sections[i].id != sections[j].id
    ensures forall i :: 0 <= i < |sections| ==> sections[i].id != AreaPerimeter
  {
    [ SectionData(Addition, "Addition"),
      SectionData(Subtraction, "Subtraction"),
      SectionData(Multiplication, "Multiplication"),
      SectionData(SkipCounting, "Skip Counting") ]
  }

  /** Tokens for a right answer: more on the first try than after a retry, and always some. */
  function Rewards(): (r: RewardAmounts)
    ensures r.firstTry > r.retry > 0
    ensures r.firstTry == 3 && r.retry == 1
  {
    RewardAmounts(3, 1)
  }
}
