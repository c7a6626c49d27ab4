/** The categories route: eight named categories with generated ids, seeded
    on first use; GET lists them and POST appends one. */
module CategoriesRoute {
  import opened Values

  /** A category as the route stores it; a posted name may be missing. */
  datatype Category = Category(id: string, name: Option<string>)

  /** The parsed POST body. */
  datatype CategoryBody = CategoryBody(name: Option<string>)

  const CategoryNames: seq<string> := [
    "Hardware Issues", "Software Support", "Account Access", "Network Issues",
    "Email Support", "Phone Support", "Training Request", "General Inquiry"]

  /** The seeded list, one generated uuid per fixture name. */
  function Seed(ids: seq<string>): (r: seq<Category>)
    requires |ids| == |CategoryNames|
    ensures |r| == |CategoryNames|
    ensures forall i :: 0 <= i < |r| ==> r[i].id == ids[i] && r[i].name == Some(CategoryNames[i])
  {
    seq(|ids|, i requires 0 <= i < |ids| => Category(ids[i], Some(CategoryNames[i])))
  }

  /** The record POST stores: a fresh uuid and the name as sent, which is
      not checked. */
  function NewCategory(id: string, body: CategoryBody): (c: Category)
    ensures c.id == id && c.name == body.name
  {
    Category(id, body.name)
  }

  class CategoryStore {
    var categories: seq<Category>
    var initialized: bool
    /** The uuids drawn when the store was seeded. */
    ghost var seedIds: seq<string>

    /** Empty until seeded; afterwards the seeded categories stay in front,
      unchanged, and posted ones follow. */
    ghost predicate Valid()
      reads this
    {
      && (!initialized ==> categories == [])
      && (initialized ==>
            |seedIds| == |CategoryNames| && |categories| >= |CategoryNames| &&
            categories[..|CategoryNames|] == Seed(seedIds))
    }

    constructor ()
      ensures Valid() && !initialized
    {
      categories := [];
      initialized := false;
      seedIds := [];
    }

    /** `initializeCategories`: seeds once; a later call changes nothing. */
    method Initialize(ids: seq<string>)
      requires Valid() && |ids| == |CategoryNames|
      modifies this
      ensures Valid() && initialized
      ensures categories == if old(initialized) then old(categories) else Seed(ids)
    {
      if initialized {
        return;
      }
      categories := Seed(ids);
      seedIds := ids;
      initialized := true;
    }

    /** GET /categories */
    method Get(ids: seq<string>) returns (r: seq<Category>)
      requires Valid() && |ids| == |CategoryNames|
      modifies this
      ensures Valid() && initialized
      ensures categories == if old(initialized) then old(categories) else Seed(ids)
      ensures r == categories
    {
      Initialize(ids);
      r := categories;
    }

    /** POST /categories: appends the new category and returns it. */
    method Post(ids: seq<string>, id: string, body: CategoryBody) returns (c: Category)
      requires Valid() && |ids| == |CategoryNames|
      modifies this
      ensures Valid() && initialized
      ensures c == NewCategory(id, body)
      ensures categories == (if old(initialized) then old(categories) else Seed(ids)) + [c]
    {
      Initialize(ids);
      c := NewCategory(id, body);
      categories := categories + [c];
    }
  }
}
