/** The `getMenu` tool: today's menu for a meal category, looked up without
    regard to case in a fixed three-entry table. */
module MenuTool {
  import opened JsValues

  const Breakfast := "Aloo Paratha, Poha, Masala Chai"
  const Lunch := "Dal Tadka, Rice, Roti, Salad"
  const Dinner := "Paneer Butter Masala, Naan, Jeera Rice"

  /** The reply for a category that has no menu. */
  const NoMenu := "No menu available for this category"

  /** The menu table, keyed by lower-case category. */
  const Menus: map<string, string> :=
    map["breakfast" := Breakfast, "lunch" := Lunch, "dinner" := Dinner]

  /** `menus[category.toLowerCase()] || NoMenu` */
  function GetMenu(category: string): (r: string)
    ensures r != ""
    ensures r in Menus.Values || r == NoMenu
    ensures ToLowerCase(category) in Menus ==> r == Menus[ToLowerCase(category)]
    ensures ToLowerCase(category) !in Menus ==> r == NoMenu
  {
    Or(Get(Menus, ToLowerCase(category)), NoMenu)
  }

  /** The category names the table entry `key`, ignoring case. */
  predicate Names(category: string, key: string)
  {
    key in Menus && LowersTo(category, key)
  }

  /** The four possible replies are pairwise distinct, so a reply tells
      which entry (or none) was found. */
  lemma RepliesDistinct()
    ensures Breakfast != Lunch && Breakfast != Dinner && Lunch != Dinner
    ensures NoMenu !in Menus.Values
  {
    assert Breakfast[0] != Lunch[0] && Breakfast[0] != Dinner[0];
    assert Lunch[0] != Dinner[0];
    assert NoMenu[0] !in {Breakfast[0], Lunch[0], Dinner[0]};
  }

  /** The reply is the menu of `key` exactly when the category names `key`
      ignoring case. */
  lemma GetMenuFinds(category: string, key: string)
    requires key in Menus
    ensures GetMenu(category) == Menus[key] <==> Names(category, key)
  {
    RepliesDistinct();
    ToLowerCaseIs(category, key);
  }

  /** The reply is the fixed default exactly when the category names no
      table entry, in any case. */
  lemma GetMenuDefault(category: string)
    ensures GetMenu(category) == NoMenu <==> forall key :: key in Menus ==> !Names(category, key)
  {
    RepliesDistinct();
    ToLowerCaseIs(category, ToLowerCase(category));
    forall key | key in Menus
      ensures Names(category, key) <==> ToLowerCase(category) == key
    {
      ToLowerCaseIs(category, key);
    }
  }

  /** Categories that agree ignoring case get the same reply. */
  lemma GetMenuIgnoresCase(a: string, b: string)
    requires |a| == |b|
    requires forall i :: 0 <= i < |a| ==> LowerChar(a[i]) == LowerChar(b[i])
    ensures GetMenu(a) == GetMenu(b)
  {
    ToLowerCaseIgnoresCase(a, b);
  }

  /** Asking with an already lowered category changes nothing. */
  lemma GetMenuOfLowered(category: string)
    ensures GetMenu(ToLowerCase(category)) == GetMenu(category)
  {
    ToLowerCaseIdempotent(category);
  }

  /** "LUNCH", "Lunch" and "lunch" all give the lunch menu. */
  lemma LunchInAnyCase()
    ensures GetMenu("LUNCH") == Lunch
    ensures GetMenu("Lunch") == Lunch
    ensures GetMenu("lunch") == Lunch
  {
    assert LowersTo("LUNCH", "lunch");
    assert LowersTo("Lunch", "lunch");
    assert LowersTo("lunch", "lunch");
    GetMenuFinds("LUNCH", "lunch");
    GetMenuFinds("Lunch", "lunch");
    GetMenuFinds("lunch", "lunch");
  }

  /** `toLowerCase` maps the Kelvin sign to 'k', so a category spelled
      with it still finds the breakfast menu. */
  lemma KelvinSignFindsBreakfast()
    ensures GetMenu("brea\U{212A}fast") == Breakfast
  {
    assert LowersTo("brea\U{212A}fast", "breakfast");
    GetMenuFinds("brea\U{212A}fast", "breakfast");
  }
}
