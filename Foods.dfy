/** The records of the dashboard (`FoodData`, `FoodFormData`) and the two
    object-spread expressions that build request bodies from them. */
module Foods {
  import opened Wrappers

  /** A catalogue entry as the server stores it (`FoodData`). `price` is an
      opaque number: nothing computes with it. */
  datatype Food = Food(
    id: string,
    name: string,
    description: string,
    price: int,
    available: bool,
    image: string)

  /** What the add-item form hands over (`FoodFormData`): a Food without
      `id` and `available`. */
  datatype FoodForm = FoodForm(
    name: string,
    description: string,
    price: int,
    image: string)

  /** A JavaScript object that may carry any of Food's keys; `None` is an
      absent key. `{}` is the object with every key absent. */
  datatype FoodObject = FoodObject(
    id: Option<string>,
    name: Option<string>,
    description: Option<string>,
    price: Option<int>,
    available: Option<bool>,
    image: Option<string>)

  const EmptyObject: FoodObject := FoodObject(None, None, None, None, None, None)

  /** The keys of a food object and the values they may hold: the object as a
      dictionary, which is how object spread is defined. */
  datatype Key = Id | Name | Description | Price | Available | Image
  datatype Value = Text(text: string) | Number(number: int) | Flag(flag: bool)

  function TextOf(v: Option<string>): Option<Value> {
    match v
    case Some(s) => Some(Text(s))
    case None => None
  }

  /** The value stored under key `k` of `o`, if `o` has that key. */
  function Get(o: FoodObject, k: Key): Option<Value> {
    match k
    case Id => TextOf(o.id)
    case Name => TextOf(o.name)
    case Description => TextOf(o.description)
    case Price => if o.price.Some? then Some(Number(o.price.value)) else None
    case Available => if o.available.Some? then Some(Flag(o.available.value)) else None
    case Image => TextOf(o.image)
  }

  /** An object that has every key of `FoodData`. */
  predicate Complete(o: FoodObject) {
    o.id.Some? && o.name.Some? && o.description.Some? && o.price.Some?
    && o.available.Some? && o.image.Some?
  }

  function Pick<T>(base: Option<T>, over: Option<T>): Option<T> {
    if over.Some? then over else base
  }

  /** `{ ...base, ...over }`: every key present in `over` takes `over`'s value,
      every other key keeps `base`'s, and a key absent from both stays absent. */
  function Spread(base: FoodObject, over: FoodObject): (r: FoodObject)
    ensures forall k :: Get(r, k) == if Get(over, k).Some? then Get(over, k) else Get(base, k)
  {
    FoodObject(
      Pick(base.id, over.id),
      Pick(base.name, over.name),
      Pick(base.description, over.description),
      Pick(base.price, over.price),
      Pick(base.available, over.available),
      Pick(base.image, over.image))
  }

  /** A Food seen as an object: every key present. */
  function ToObject(f: Food): (o: FoodObject)
    ensures Complete(o)
    ensures Get(o, Id) == Some(Text(f.id)) && Get(o, Name) == Some(Text(f.name))
    ensures Get(o, Description) == Some(Text(f.description)) && Get(o, Price) == Some(Number(f.price))
    ensures Get(o, Available) == Some(Flag(f.available)) && Get(o, Image) == Some(Text(f.image))
  {
    FoodObject(Some(f.id), Some(f.name), Some(f.description), Some(f.price),
               Some(f.available), Some(f.image))
  }

  /** The Food a complete object describes. */
  function FromObject(o: FoodObject): (f: Food)
    requires Complete(o)
    ensures Get(o, Id) == Some(Text(f.id)) && Get(o, Name) == Some(Text(f.name))
    ensures Get(o, Description) == Some(Text(f.description)) && Get(o, Price) == Some(Number(f.price))
    ensures Get(o, Available) == Some(Flag(f.available)) && Get(o, Image) == Some(Text(f.image))
  {
    Food(o.id.value, o.name.value, o.description.value, o.price.value,
         o.available.value, o.image.value)
  }

  /** The object the add-item form passes to `handleAddFood`. */
  function FormObject(form: FoodForm): (o: FoodObject)
    ensures Get(o, Id).None? && Get(o, Available).None?
    ensures Get(o, Name) == Some(Text(form.name)) && Get(o, Price) == Some(Number(form.price))
    ensures Get(o, Description) == Some(Text(form.description))
    ensures Get(o, Image) == Some(Text(form.image))
  {
    EmptyObject.(name := Some(form.name), description := Some(form.description),
                 price := Some(form.price), image := Some(form.image))
  }

  /** `{ ...food, available: true }`: the create body copies every key of the
      object it is given and forces `available` to `true`, whatever that
      object held. */
  function CreatePayload(food: FoodObject): (p: FoodObject)
    ensures Get(p, Available) == Some(Flag(true))
    ensures forall k :: k != Available ==> Get(p, k) == Get(food, k)
  {
    Spread(food, EmptyObject.(available := Some(true)))
  }

  /** `{ ...editingFood, ...food }`: the update body is the item being edited
      with every key the patch carries overriding it. */
  function UpdateBody(editing: FoodObject, patch: FoodObject): (b: FoodObject)
    ensures forall k :: Get(patch, k).Some? ==> Get(b, k) == Get(patch, k)
    ensures forall k :: Get(patch, k).None? ==> Get(b, k) == Get(editing, k)
  {
    Spread(editing, patch)
  }

  /** Reading a Food back from its object gives the same Food, and a complete
      object is the object of the Food it describes. */
  lemma ObjectRoundTrip(f: Food, o: FoodObject)
    ensures FromObject(ToObject(f)) == f
    ensures Complete(o) ==> ToObject(FromObject(o)) == o
  {
  }

  /** Spreading `{}` on either side changes nothing: an empty patch leaves the
      edited item as it is, and the `{}` placeholder contributes no key. */
  lemma SpreadIdentities(o: FoodObject)
    ensures Spread(o, EmptyObject) == o
    ensures Spread(EmptyObject, o) == o
  {
  }

  /** When the form object comes from a typed form, the create body is exactly
      the object of an available Food carrying the form's fields, with no id:
      the server is to assign it. */
  lemma CreatePayloadOfForm(form: FoodForm, id: string)
    ensures CreatePayload(FormObject(form)).id.None?
    ensures Complete(CreatePayload(FormObject(form)).(id := Some(id)))
    ensures FromObject(CreatePayload(FormObject(form)).(id := Some(id)))
         == Food(id, form.name, form.description, form.price, true, form.image)
  {
  }

  /** Once an item has been selected for editing, the update body is a whole
      `FoodData`: the patch's fields where it has them, the selected item's
      elsewhere. */
  lemma UpdateBodyOfSelected(f: Food, patch: FoodObject)
    ensures Complete(UpdateBody(ToObject(f), patch))
    ensures FromObject(UpdateBody(ToObject(f), patch))
         == Food(patch.id.GetOr(f.id), patch.name.GetOr(f.name),
                 patch.description.GetOr(f.description), patch.price.GetOr(f.price),
                 patch.available.GetOr(f.available), patch.image.GetOr(f.image))
  {
  }
}
