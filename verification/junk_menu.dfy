/** The junk food catalogue (frontend/src/data/junkMenu.ts): the four harm levels and
    the foods, each tagged with a level and an allowed frequency. */
module JunkMenu {
  import HarmLevels

  datatype LevelInfo = LevelInfo(name: string, description: string)

  datatype Food = Food(id: string, name: string, category: string, harmLevel: int, allowedFrequency: string)

  /** `JUNK_MENU.harmLevels`. */
  const HarmLevelInfo: map<int, LevelInfo> := map[
    0 := LevelInfo("Least Harmful", "Whole or minimally processed foods with low oil and sugar"),
    1 := LevelInfo("Mildly Harmful", "Refined carbs or fats present, acceptable in moderation"),
    2 := LevelInfo("Moderately Harmful", "Fried, sugary, or high-fat foods requiring restriction"),
    3 := LevelInfo("Highly Harmful", "Ultra-processed foods, liquid sugar, trans fats, palm oil")
  ]

  /** `JUNK_MENU.foods`. The dark chocolate frequency keeps the characters the file
      stores, an en dash saved in the wrong encoding. */
  const Foods: seq<Food> := [
    Food("shawarma_chicken", "Chicken Shawarma", "Street Food", 1, "Once per week"),
    Food("shawarma_fried", "Fried Chicken Shawarma", "Street Food", 2, "Once per 2 weeks"),
    Food("pizza_cheese", "Cheese Pizza", "Fast Food", 2, "Once per month"),
    Food("kfc_fried_chicken", "KFC Fried Chicken", "Fast Food", 2, "Once per 2 weeks"),
    Food("momos_steamed", "Steamed Momos", "Street Food", 1, "Once per week"),
    Food("momos_fried", "Fried Momos", "Street Food", 2, "Once per 2 weeks"),
    Food("biryani_chicken", "Chicken Biryani", "Restaurant Food", 1, "Once per week"),
    Food("fried_rice", "Veg / Egg Fried Rice", "Restaurant Food", 2, "Once per week"),
    Food("regular_coke", "Regular Coke", "Soft Drink", 3, "Once per month"),
    Food("diet_coke", "Diet Coke", "Soft Drink", 2, "Once per week"),
    Food("packaged_chips", "Packaged Potato Chips", "Snacks", 3, "Once per month"),
    Food("namkeen", "Indian Namkeen / Mixture", "Snacks", 2, "Once per 2 weeks"),
    Food("ice_cream_packaged", "Packaged Ice Cream", "Dessert", 2, "Once per 2 weeks"),
    Food("kulfi", "Kulfi", "Dessert", 1, "Once per week"),
    Food("milk_chocolate", "Milk Chocolate", "Sweets", 2, "Once per week"),
    Food("dark_chocolate", "Dark Chocolate (70%+)", "Sweets", 1, "2\U{00E2}\U{20AC}\U{201C}3 per week"),
    Food("idli_dosa", "Idli / Plain Dosa", "South Indian", 0, "Unlimited")
  ]

  /** The catalogue describes exactly the levels 0 to 3, the levels the rule table
      covers. */
  lemma LevelsCovered()
    ensures HarmLevelInfo.Keys == {0, 1, 2, 3}
    ensures HarmLevelInfo.Keys == HarmLevels.HarmLevelRules.Keys
  {
  }

  /** Every food's level is one of 0 to 3, so every food has a harm-level rule. */
  lemma EveryFoodHasRule()
    ensures forall i :: 0 <= i < |Foods| ==> 0 <= Foods[i].harmLevel <= 3
    ensures forall i :: 0 <= i < |Foods| ==> HarmLevels.RuleFor(Foods[i].harmLevel).Some?
  {
  }

  /** No two foods share an id. */
  lemma FoodIdsDistinct()
    ensures forall i, j :: 0 <= i < j < |Foods| ==> Foods[i].id != Foods[j].id
  {
  }

  /** Idli / dosa is the only level 0 food, and it may be eaten without limit. */
  lemma OnlyIdliDosaIsLevelZero()
    ensures forall i :: 0 <= i < |Foods| ==> (Foods[i].harmLevel == 0 <==> Foods[i].id == "idli_dosa")
    ensures Foods[16].id == "idli_dosa" && Foods[16].allowedFrequency == "Unlimited"
  {
  }

  /** The level 3 foods are exactly regular coke and packaged chips. */
  lemma LevelThreeFoods()
    ensures forall i :: 0 <= i < |Foods| ==>
              (Foods[i].harmLevel == 3 <==> Foods[i].id == "regular_coke" || Foods[i].id == "packaged_chips")
  {
  }
}
