/** The dashboard component: four state cells and the handlers that overwrite
    them. A handler's HTTP call is not made here: the request it would send is
    returned, and the server's reply is a parameter (`None`, or `false` for a
    delete, when the call fails). */
module Dashboard {
  import opened Wrappers
  import opened Foods
  import opened FoodList

  /** The collection's path, and the path of one item. */
  const FoodsPath: string := "/foods"

  function ItemPath(id: string): (p: string)
    ensures |p| == |FoodsPath| + 1 + |id|
    ensures p[..|FoodsPath| + 1] == FoodsPath + "/" && p[|FoodsPath| + 1..] == id
  {
    FoodsPath + "/" + id
  }

  /** How a template literal renders an optional string: an absent key reads
      as `undefined`. */
  function Interpolate(s: Option<string>): string {
    match s
    case Some(v) => v
    case None => "undefined"
  }

  /** The path `handleUpdateFood` writes to: the edited item's id, which the
      `{}` placeholder lacks. */
  function UpdatePath(editing: FoodObject): (p: string)
    ensures editing.id.Some? ==> p == ItemPath(editing.id.value)
    ensures editing.id.None? ==> p == "/foods/undefined"
  {
    ItemPath(Interpolate(editing.id))
  }

  /** Once an item has been selected, the update goes to that item's path. */
  lemma UpdateTargetsSelected(f: Food)
    ensures UpdatePath(ToObject(f)) == ItemPath(f.id)
  {
  }

  /** Nothing guards the update while the edited item is still the `{}`
      placeholder: the request goes to `/foods/undefined` and its body is the
      patch alone. */
  lemma UpdateWithPlaceholder(patch: FoodObject)
    ensures UpdatePath(EmptyObject) == "/foods/undefined"
    ensures UpdateBody(EmptyObject, patch) == patch
  {
  }

  /** A request to the catalogue API. */
  datatype Request =
    | GetAll(path: string)
    | Post(path: string, body: FoodObject)
    | Put(path: string, body: FoodObject)
    | Delete(path: string)

  class Dashboard {
    var foods: seq<Food>
    var editingFood: FoodObject
    var modalOpen: bool
    var editModalOpen: bool

    /** Mount: an empty list, the `{}` placeholder as the edited item, both
        modals closed. */
    constructor ()
      ensures foods == [] && editingFood == EmptyObject
      ensures !modalOpen && !editModalOpen
    {
      foods := [];
      editingFood := EmptyObject;
      modalOpen := false;
      editModalOpen := false;
    }

    /** `loadFoods`: the list becomes the server's list; a failed load is not
        handled and leaves the list as it was. */
    method LoadFoods(reply: Option<seq<Food>>) returns (req: Request)
      modifies this`foods
      ensures req == GetAll(FoodsPath)
      ensures foods == if reply.Some? then reply.value else old(foods)
    {
      req := GetAll(FoodsPath);
      if reply.Some? {
        foods := reply.value;
      }
    }

    /** `toggleModal`: flips the add modal and nothing else. */
    method ToggleModal()
      modifies this`modalOpen
      ensures modalOpen == !old(modalOpen)
    {
      modalOpen := !modalOpen;
    }

    /** `toggleEditModal`: flips the edit modal and nothing else. */
    method ToggleEditModal()
      modifies this`editModalOpen
      ensures editModalOpen == !old(editModalOpen)
    {
      editModalOpen := !editModalOpen;
    }

    /** `handleAddFood`: posts the form with `available` forced to true; on
        success the created item is appended, on failure the list stays. */
    method AddFood(form: FoodForm, reply: Option<Food>) returns (req: Request)
      modifies this`foods
      ensures req == Post(FoodsPath, CreatePayload(FormObject(form)))
      ensures reply.Some? ==> foods == Append(old(foods), reply.value)
      ensures reply.None? ==> foods == old(foods)
    {
      req := Post(FoodsPath, CreatePayload(FormObject(form)));
      if reply.Some? {
        foods := Append(foods, reply.value);
      }
    }

    /** `handleUpdateFood`: puts the edited item merged with the patch to the
        edited item's path; on success every entry with the returned item's
        id becomes the returned item, on failure the list stays. */
    method UpdateFood(patch: FoodObject, reply: Option<Food>) returns (req: Request)
      modifies this`foods
      ensures req == Put(UpdatePath(editingFood), UpdateBody(editingFood, patch))
      ensures reply.Some? ==> foods == ReplaceById(old(foods), reply.value)
      ensures reply.None? ==> foods == old(foods)
    {
      req := Put(UpdatePath(editingFood), UpdateBody(editingFood, patch));
      if reply.Some? {
        foods := ReplaceById(foods, reply.value);
      }
    }

    /** `handleEditFood`: remembers the item and opens the edit modal. */
    method EditFood(food: Food)
      modifies this`editingFood, this`editModalOpen
      ensures editingFood == ToObject(food) && editModalOpen
    {
      editingFood := ToObject(food);
      editModalOpen := true;
    }

    /** `handleDeleteFood`: deletes on the server and, once the server has
        acknowledged, drops every entry with that id; a failed call throws
        before the list is touched. */
    method DeleteFood(id: string, acknowledged: bool) returns (req: Request)
      modifies this`foods
      ensures req == Delete(ItemPath(id))
      ensures acknowledged ==> foods == RemoveById(old(foods), id)
      ensures !acknowledged ==> foods == old(foods)
    {
      req := Delete(ItemPath(id));
      if acknowledged {
        foods := RemoveById(foods, id);
      }
    }
  }

  /** A session on a fresh dashboard: load one cake, add a pie the server
      numbers "2", edit the cake's price to 12, delete the pie. Only the
      handlers' contracts are used to conclude what is shown at the end. */
  method CatalogueSession() returns (shown: seq<Food>)
    ensures shown == [Food("1", "Cake", "Chocolate", 12, true, "cake.png")]
  {
    var cake := Food("1", "Cake", "Chocolate", 10, true, "cake.png");
    var pie := Food("2", "Pie", "Apple", 5, true, "pie.png");
    assert cake.id != pie.id by {
      assert cake.id[0] != pie.id[0];
    }
    var d := new Dashboard();
    var req := d.LoadFoods(Some([cake]));
    assert d.foods == [cake];

    req := d.AddFood(FoodForm("Pie", "Apple", 5, "pie.png"), Some(pie));
    assert req.body.available == Some(true);
    assert d.foods == [cake, pie];

    d.ToggleEditModal();
    d.ToggleEditModal();
    assert !d.editModalOpen;
    d.EditFood(cake);
    var patch := EmptyObject.(price := Some(12));
    var cake12 := cake.(price := 12);
    req := d.UpdateFood(patch, Some(cake12));
    UpdateTargetsSelected(cake);
    UpdateBodyOfSelected(cake, patch);
    assert req.path == ItemPath("1");
    ReplaceAt([cake, pie], cake12, 0);
    assert d.foods == [cake12, pie];

    req := d.DeleteFood("2", true);
    RemoveAt([cake12, pie], 1);
    assert d.foods == [cake12];
    shown := d.foods;
  }
}
