# Food dashboard: list synchronisation model

This project models the `Dashboard` page of a food-catalogue admin panel
(`src/pages/Dashboard/index.tsx`). The page keeps four state cells:
- `foods`, the list shown;
- `editingFood`, the item chosen for editing;
- `modalOpen` and `editModalOpen`, the two modal switches.

Each of `handleAddFood`, `handleUpdateFood` and `handleDeleteFood` calls the
catalogue API and, once the server has answered, overwrites `foods` with a new
list:
- create appends the returned item;
- update replaces entries by the returned item's id;
- delete filters entries out by id.

The request bodies are built by JavaScript object spread. The create body is
`{ ...food, available: true }` and the update body is `{ ...editingFood, ...food }`.

Layout:
- `Wrappers.dfy`: `Option`.
- `Foods.dfy`: the `Food` record (`FoodData`) and the form record (`FoodFormData`).
  It also has `FoodObject`, a JavaScript object that may lack any of Food's keys,
  with a key/value view (`Get`). On that view it defines spread (`Spread`) and the
  two request bodies.
- `FoodList.dfy`: the three list computations as functions over `seq<Food>`, and
  lemmas about them.
- `Dashboard.dfy`: the component as a class whose four fields are the state cells.
  Each handler is a method, and each method's `modifies` names only the cells the
  handler sets, so the other cells are unchanged.
  - `LoadFoods`, `AddFood`, `UpdateFood` and `DeleteFood` make an API call. The
    server's reply is a parameter: `None` when a load, create or update call fails,
    `acknowledged == false` when a delete call fails. Each returns the `Request`
    it would send.
  - `ToggleModal`, `ToggleEditModal` and `EditFood` call no API and never touch
    `foods`: they only set their own cells.

`editingFood` starts as the `{}` placeholder, the `FoodObject` with every key
absent, just as the page initialises it. The page has no guard for updating while
nothing is selected. In that case the model sends the request to
`/foods/undefined` with the patch alone as body, which is what the template
literal and the spread produce.

## Model

| member | source | states |
|---|---|---|
| Foods.Spread | src/pages/Dashboard/index.tsx:62 | For every key, the merged object holds `over`'s value if `over` has that key and `base`'s value otherwise. |
| Foods.CreatePayload | src/pages/Dashboard/index.tsx:47-50 | The create body has `available` = true whatever the object held, and every other key exactly as in the form object. |
| Foods.UpdateBody | src/pages/Dashboard/index.tsx:62 | Every key the patch carries overrides the edited item. Every key the patch lacks keeps the edited item's value. |
| Foods.ToObject | src/pages/Dashboard/index.tsx:10-17 | A `FoodData` seen as an object has every key, each holding the field of the same name. |
| Foods.FromObject | src/pages/Dashboard/index.tsx:10-17 | A complete object describes the Food whose six fields are the values under the six keys. |
| Foods.FormObject | src/pages/Dashboard/index.tsx:19 | The form object has name, description, price and image from the form, and no id or `available` key. |
| Foods.ObjectRoundTrip | src/pages/Dashboard/index.tsx:10-17 | Food to object and back is the identity, and so is complete object to Food and back. |
| Foods.SpreadIdentities | src/pages/Dashboard/index.tsx:62 | Spreading `{}` on either side changes nothing: an empty patch keeps the edited item, and the `{}` placeholder adds no key. |
| Foods.CreatePayloadOfForm | src/pages/Dashboard/index.tsx:45-50 | For a typed form, the create body has no id and, once given an id, is exactly the available Food carrying the form's four fields. |
| Foods.UpdateBodyOfSelected | src/pages/Dashboard/index.tsx:58-62 | With an item selected, the update body is a whole Food. Each field comes from the patch if the patch has it and from the selected item otherwise. |
| FoodList.Append | src/pages/Dashboard/index.tsx:52 | The new list is one longer. The old entries come first, unchanged and in order, and the new item comes last. |
| FoodList.ReplaceById | src/pages/Dashboard/index.tsx:65-67 | Same length. Every entry with the returned item's id becomes that item, and every other entry stays unchanged in its position. |
| FoodList.RemoveById | src/pages/Dashboard/index.tsx:83 | The length drops by exactly the number of entries that carry the deleted id. |
| FoodList.RemoveKeepsOthers | src/pages/Dashboard/index.tsx:83 | After the delete no entry has the id, and every entry with another id is still present. |
| FoodList.CountIdZero | src/pages/Dashboard/index.tsx:83 | The count of an id is zero exactly when no entry has that id. |
| FoodList.CountIdConcat | src/pages/Dashboard/index.tsx:83 | Counting an id distributes over list concatenation. |
| FoodList.AppendFreshIdOnce | src/pages/Dashboard/index.tsx:52 | An appended item whose id was absent occurs exactly once afterwards, and distinct ids stay distinct. |
| FoodList.ReplaceKeepsIds | src/pages/Dashboard/index.tsx:65-67 | Replacing keeps every position's id, so distinct ids stay distinct. |
| FoodList.ReplaceAt | src/pages/Dashboard/index.tsx:65-67 | With distinct ids, the update is a point update at the matching position. |
| FoodList.ReplaceAbsent | src/pages/Dashboard/index.tsx:65-67 | A returned item whose id no entry has leaves the list unchanged. |
| FoodList.ReplaceIdempotent | src/pages/Dashboard/index.tsx:65-67 | Applying the same reply twice gives the same list as applying it once. |
| FoodList.RemoveConcat | src/pages/Dashboard/index.tsx:83 | Filtering distributes over concatenation, so the kept entries keep their relative order. |
| FoodList.RemoveAbsent | src/pages/Dashboard/index.tsx:83 | Deleting an id that no entry has leaves the list unchanged. |
| FoodList.RemoveAt | src/pages/Dashboard/index.tsx:81-85 | With distinct ids, deleting the id at position k removes exactly that entry and nothing else. |
| FoodList.RemoveOnlyAt | src/pages/Dashboard/index.tsx:83 | If the parts before and after position k keep all their entries, the delete removes only the entry at k. |
| FoodList.RemoveMatching | src/pages/Dashboard/index.tsx:83 | A one-entry list loses that entry when its own id is deleted. |
| FoodList.NoOtherWithId | src/pages/Dashboard/index.tsx:83 | With distinct ids, no slice away from position k has an entry with k's id. |
| FoodList.RemoveKeepsUnique | src/pages/Dashboard/index.tsx:83 | Deleting keeps ids distinct. |
| FoodList.RemoveUndoesAppend | src/pages/Dashboard/index.tsx:52-83 | Deleting the id of an item just appended with a fresh id gives back the list from before the append. |
| FoodList.ReplaceLastWins | src/pages/Dashboard/index.tsx:65-67 | Of two successful updates for the same id, the list shows the later reply. |
| FoodList.RemoveIdempotent | src/pages/Dashboard/index.tsx:83 | Deleting an id twice gives the same list as deleting it once. |
| Dashboard.ItemPath | src/pages/Dashboard/index.tsx:81 | An item's path is `/foods/` followed by exactly the id, so the path determines the id. |
| Dashboard.UpdatePath | src/pages/Dashboard/index.tsx:61 | The update targets the edited item's id, or `/foods/undefined` when the edited object has no id (the helper `Interpolate` renders an absent id as the template literal does). |
| Dashboard.UpdateTargetsSelected | src/pages/Dashboard/index.tsx:60-61 | Once an item is selected, the update is addressed to that item's path. |
| Dashboard.UpdateWithPlaceholder | src/pages/Dashboard/index.tsx:23 | While the `{}` placeholder is the edited item, the update goes to `/foods/undefined` with the patch alone as body. |
| Dashboard.Dashboard.constructor | src/pages/Dashboard/index.tsx:22-25 | On mount the list is empty, the placeholder is being edited and both modals are closed. |
| Dashboard.Dashboard.LoadFoods | src/pages/Dashboard/index.tsx:27-35 | Sends GET `/foods`. The list becomes the server's list, or stays as it was if the load fails. |
| Dashboard.Dashboard.ToggleModal | src/pages/Dashboard/index.tsx:37-39 | Negates `modalOpen` and changes no other cell, so two calls restore the state. |
| Dashboard.Dashboard.ToggleEditModal | src/pages/Dashboard/index.tsx:41-43 | Negates `editModalOpen` and changes no other cell, so two calls restore the state. |
| Dashboard.Dashboard.AddFood | src/pages/Dashboard/index.tsx:45-56 | POSTs the form with `available` forced to true. On success the list is the old list with the reply appended; on failure it is unchanged. |
| Dashboard.Dashboard.UpdateFood | src/pages/Dashboard/index.tsx:58-73 | PUTs the merged body to the edited item's path. On success, entries are replaced keyed on the reply's id; on failure the list is unchanged. |
| Dashboard.Dashboard.EditFood | src/pages/Dashboard/index.tsx:75-78 | Sets the edited item and opens the edit modal. It changes neither `foods` nor `modalOpen`. |
| Dashboard.Dashboard.DeleteFood | src/pages/Dashboard/index.tsx:80-86 | Sends DELETE to the item's path. Once acknowledged, every entry with that id is dropped; a failed call leaves the list unchanged. |
| Dashboard.CatalogueSession | src/pages/Dashboard/index.tsx:27-86 | Load a cake, add a pie, edit the cake's price to 12, delete the pie. From the handlers' contracts alone, the list then holds exactly the repriced cake. |

## Left out

- The HTTP calls through `../../services/api`: `services/api` is not part of this model. Each handler returns the request it would send and takes the server's reply as a parameter. The model does not relate the reply to the request, because the server's behaviour is outside the component.
- React's `useState`, `useEffect` and `useCallback` machinery and async scheduling. Each handler is applied to the current state in one step. Stale closures over an older `foods`, and updates to an unmounted component, are not modelled.
- Rendering, `Header`, `Food`, `ModalAddFood`, `ModalEditFood` and the styles: these are presentation components.
- The `console.log` in the create and update error paths. It only logs, and the state is left unchanged.
- Id uniqueness is never checked by the page. `UniqueIds` appears only as a hypothesis of lemmas, never as a guarantee of `AddFood`.
- `price` is an opaque integer: the page does no arithmetic on it, and JavaScript floating-point numbers are not modelled.
- Failed load and delete calls are not caught: their promise rejects to the caller, while create and update catch and log. The model records only that the list is unchanged; the rejection itself is not modelled.
- Foods.Spread: a key that is present with the value `undefined` is treated like an absent key. In JavaScript such a key would override. Keys beyond `FoodData`'s six are not represented.
