/** The subcategories route: four parent categories with fixed ids and
    thirteen subcategories with generated ids, seeded on first use; GET lists
    the subcategories and POST appends one without checking its parent. */
module SubcategoriesRoute {
  import opened Values

  datatype Category = Category(id: string, name: string)

  /** A subcategory as the route stores it; a posted name or parent may be
      missing. */
  datatype Subcategory = Subcategory(id: string, name: Option<string>, parentCategoryId: Option<string>)

  /** The parsed POST body. */
  datatype SubcategoryBody = SubcategoryBody(name: Option<string>, parentCategoryId: Option<string>)

  function SeedCategories(): (r: seq<Category>)
    ensures |r| == 4
  {
    [ Category("cat1", "Hardware Issues"),
      Category("cat2", "Software Support"),
      Category("cat3", "Account Access"),
      Category("cat4", "Network Issues") ]
  }

  const SubcategoryNames: seq<string> := [
    "Desktop Computer", "Laptop Issues", "Printer Problems", "Monitor Issues",
    "Microsoft Office", "Adobe Creative Suite", "Web Browser Issues",
    "Password Reset", "Account Locked", "New User Setup",
    "Wi-Fi Connection", "VPN Issues", "Internet Slow"]

  /** Position in the seeded categories of each fixture's parent: four under
      cat1, then three each under cat2, cat3 and cat4. */
  const ParentIndex: seq<nat> := [0, 0, 0, 0, 1, 1, 1, 2, 2, 2, 3, 3, 3]

  /** The seeded subcategories, one generated uuid per fixture. */
  function SeedSubcategories(ids: seq<string>): (r: seq<Subcategory>)
    requires |ids| == |SubcategoryNames|
    ensures |r| == |SubcategoryNames|
    ensures forall i :: 0 <= i < |r| ==> r[i].id == ids[i] && r[i].name == Some(SubcategoryNames[i])
  {
    seq(|ids|, i requires 0 <= i < |ids| =>
      Subcategory(ids[i], Some(SubcategoryNames[i]), Some(SeedCategories()[ParentIndex[i]].id)))
  }

  predicate HasCategory(categories: seq<Category>, id: string) {
    exists c :: c in categories && c.id == id
  }

  /** Every subcategory names an existing parent category. */
  ghost predicate ParentsKnown(subcategories: seq<Subcategory>, categories: seq<Category>) {
    forall s :: s in subcategories ==> s.parentCategoryId.Some? && HasCategory(categories, s.parentCategoryId.value)
  }

  /** Every seeded subcategory has one of the seeded categories as parent. */
  lemma SeedParentsKnown(ids: seq<string>)
    requires |ids| == |SubcategoryNames|
    ensures ParentsKnown(SeedSubcategories(ids), SeedCategories())
  {
    var subs, cats := SeedSubcategories(ids), SeedCategories();
    forall s | s in subs ensures s.parentCategoryId.Some? && HasCategory(cats, s.parentCategoryId.value) {
      var i :| 0 <= i < |subs| && subs[i] == s;
      assert ParentIndex[i] < |cats|;
      assert cats[ParentIndex[i]] in cats;
    }
  }

  /** The record POST stores: a fresh uuid, and name and parent as sent. */
  function NewSubcategory(id: string, body: SubcategoryBody): (s: Subcategory)
    ensures s.id == id && s.name == body.name && s.parentCategoryId == body.parentCategoryId
  {
    Subcategory(id, body.name, body.parentCategoryId)
  }

  /** POST does not validate the parent: appending keeps every parent known
      exactly when the posted parent is present and names a category. */
  lemma AppendParentsKnown(subcategories: seq<Subcategory>, categories: seq<Category>, s: Subcategory)
    requires ParentsKnown(subcategories, categories)
    ensures ParentsKnown(subcategories + [s], categories) <==>
      (s.parentCategoryId.Some? && HasCategory(categories, s.parentCategoryId.value))
  {
    assert s in subcategories + [s];
  }

  class SubcategoryStore {
    var categories: seq<Category>
    var subcategories: seq<Subcategory>
    var initialized: bool
    /** The uuids drawn when the store was seeded. */
    ghost var seedIds: seq<string>

    /** Empty until seeded; afterwards the categories are the fixed four and
      the seeded subcategories stay in front, unchanged. */
    ghost predicate Valid()
      reads this
    {
      && (!initialized ==> categories == [] && subcategories == [])
      && (initialized ==>
            categories == SeedCategories() &&
            |seedIds| == |SubcategoryNames| && |subcategories| >= |SubcategoryNames| &&
            subcategories[..|SubcategoryNames|] == SeedSubcategories(seedIds))
    }

    constructor ()
      ensures Valid() && !initialized
    {
      categories, subcategories := [], [];
      initialized := false;
      seedIds := [];
    }

    /** `initializeData`: seeds once; a later call changes nothing. */
    method Initialize(ids: seq<string>)
      requires Valid() && |ids| == |SubcategoryNames|
      modifies this
      ensures Valid() && initialized
      ensures categories == SeedCategories()
      ensures subcategories == if old(initialized) then old(subcategories) else SeedSubcategories(ids)
    {
      if initialized {
        return;
      }
      categories := SeedCategories();
      subcategories := SeedSubcategories(ids);
      seedIds := ids;
      initialized := true;
    }

    /** GET /subcategories */
    method Get(ids: seq<string>) returns (r: seq<Subcategory>)
      requires Valid() && |ids| == |SubcategoryNames|
      modifies this
      ensures Valid() && initialized
      ensures categories == SeedCategories()
      ensures subcategories == if old(initialized) then old(subcategories) else SeedSubcategories(ids)
      ensures r == subcategories
    {
      Initialize(ids);
      r := subcategories;
    }

    /** POST /subcategories: appends the new subcategory and returns it. */
    method Post(ids: seq<string>, id: string, body: SubcategoryBody) returns (s: Subcategory)
      requires Valid() && |ids| == |SubcategoryNames|
      modifies this
      ensures Valid() && initialized
      ensures categories == SeedCategories()
      ensures s == NewSubcategory(id, body)
      ensures subcategories == (if old(initialized) then old(subcategories) else SeedSubcategories(ids)) + [s]
    {
      Initialize(ids);
      s := NewSubcategory(id, body);
      subcategories := subcategories + [s];
    }
  }

  /** Right after seeding every parent is known; a POST whose parent is
      missing breaks that, and the route accepts it all the same. */
  method UncheckedParent(ids: seq<string>, id: string, name: Option<string>)
    requires |ids| == |SubcategoryNames|
  {
    var store := new SubcategoryStore();
    var seeded := store.Get(ids);
    SeedParentsKnown(ids);
    assert ParentsKnown(seeded, store.categories);
    var s := store.Post(ids, id, SubcategoryBody(name, None));
    AppendParentsKnown(seeded, store.categories, s);
    assert !ParentsKnown(store.subcategories, store.categories);
  }
}
