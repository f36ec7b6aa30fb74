/** The expense category table of lib/expense-categories.js: twenty-two entries
    keyed by id, a lookup that falls back to "other", and the icon of a category.
    Icons are opaque tokens standing for the imported icon components. */
module Categories {
  import opened Records

  datatype Icon =
    | Utensils | Coffee | ShoppingCart | ShoppingBag | Plane | Car | Home | Film
    | Ticket | Wifi | Droplets | GraduationCap | Stethoscope | Heart | Gift
    | Smartphone | CreditCard | Baby | Music | Book | MoreHorizontal | DollarSign

  datatype Category = Category(id: string, name: string, icon: Icon)

  /** `EXPENSE_CATEGORIES` as (key, entry) pairs in declaration order. */
  const ExpenseCategories: seq<(string, Category)> := [
    ("foodDrink", Category("foodDrink", "Food & Drink", Utensils)),
    ("coffee", Category("coffee", "Coffee", Coffee)),
    ("groceries", Category("groceries", "Groceries", ShoppingCart)),
    ("shopping", Category("shopping", "Shopping", ShoppingBag)),
    ("travel", Category("travel", "Travel", Plane)),
    ("transportation", Category("transportation", "Transportation", Car)),
    ("housing", Category("housing", "Housing", Home)),
    ("entertainment", Category("entertainment", "Entertainment", Film)),
    ("tickets", Category("tickets", "Tickets", Ticket)),
    ("utilities", Category("utilities", "Utilities", Wifi)),
    ("water", Category("water", "Water", Droplets)),
    ("education", Category("education", "Education", GraduationCap)),
    ("health", Category("health", "Health", Stethoscope)),
    ("personal", Category("personal", "Personal", Heart)),
    ("gifts", Category("gifts", "Gifts", Gift)),
    ("technology", Category("technology", "Technology", Smartphone)),
    ("bills", Category("bills", "Bills & Fees", CreditCard)),
    ("baby", Category("baby", "Baby & Kids", Baby)),
    ("music", Category("music", "Music", Music)),
    ("books", Category("books", "Books", Book)),
    ("other", Category("other", "Other", MoreHorizontal)),
    ("general", Category("general", "General Expense", DollarSign))
  ]

  const OtherCategory: Category := Category("other", "Other", MoreHorizontal)

  predicate IsKey(key: string) {
    exists i :: 0 <= i < |ExpenseCategories| && ExpenseCategories[i].0 == key
  }

  /** Property access `table[key]` on the key/entry list. */
  function Lookup(table: seq<(string, Category)>, key: string): (r: Option<Category>)
    ensures r.None? <==> forall i :: 0 <= i < |table| ==> table[i].0 != key
    ensures r.Some? ==> exists i :: 0 <= i < |table| && table[i] == (key, r.value)
  {
    if table == [] then None
    else if table[0].0 == key then Some(table[0].1)
    else
      var r := Lookup(table[1..], key);
      assert r.Some? ==> exists i :: 0 <= i < |table[1..]| && table[1..][i] == (key, r.value);
      r
  }

  /** `EXPENSE_CATEGORIES[categoryId] || EXPENSE_CATEGORIES.other` */
  function GetCategoryById(categoryId: string): (c: Category)
    ensures IsKey(categoryId) ==> c.id == categoryId && (categoryId, c) in ExpenseCategories
    ensures !IsKey(categoryId) ==> c == OtherCategory
  {
    match Lookup(ExpenseCategories, categoryId)
    case Some(c) =>
      KeysAreIds();
      c
    case None => OtherCategory
  }

  /** `Object.values(EXPENSE_CATEGORIES)` */
  function GetAllCategories(): (r: seq<Category>)
    ensures |r| == |ExpenseCategories| == 22
    ensures forall i :: 0 <= i < |r| ==> r[i] == ExpenseCategories[i].1
  {
    seq(|ExpenseCategories|, i requires 0 <= i < |ExpenseCategories| => ExpenseCategories[i].1)
  }

  /** `getCategoryById(categoryId).icon` */
  function GetCategoryIcon(categoryId: string): (icon: Icon)
    ensures IsKey(categoryId) ==> exists i :: 0 <= i < |ExpenseCategories|
                                    && ExpenseCategories[i].0 == categoryId
                                    && ExpenseCategories[i].1.icon == icon
    ensures !IsKey(categoryId) ==> icon == MoreHorizontal
  {
    GetCategoryById(categoryId).icon
  }

  /** Every key of the table is the `id` of the entry stored under it. */
  lemma KeysAreIds()
    ensures forall i :: 0 <= i < |ExpenseCategories| ==> ExpenseCategories[i].0 == ExpenseCategories[i].1.id
  {
  }

  /** The 22 categories have pairwise distinct ids, so the lookup is unambiguous. */
  lemma AllCategoriesDistinct()
    ensures forall i, j :: 0 <= i < j < |GetAllCategories()| ==> GetAllCategories()[i].id != GetAllCategories()[j].id
  {
  }

  /** The fallback: the entry for an unknown id is the table's own "other" entry, so
      the lookup is total and never yields a category outside the table. */
  lemma {:induction false} LookupTotal(categoryId: string)
    ensures GetCategoryById(categoryId) in GetAllCategories()
  {
    var c := GetCategoryById(categoryId);
    var all := GetAllCategories();
    if IsKey(categoryId) {
      var i :| 0 <= i < |ExpenseCategories| && ExpenseCategories[i] == (categoryId, c);
      assert all[i] == c;
    } else {
      assert all[20] == c;
    }
  }
}
