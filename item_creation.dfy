/** The item data `_onItemCreate` (module/actor/actor-sheet.js) builds from a control's dataset. */
module ItemCreation {
  import opened Wrappers

  /** The `itemData` object handed to `createOwnedItem`. */
  datatype ItemData = ItemData(name: string, itemType: string, data: map<string, string>)

  /**
   * The new item's data, or None when the dataset has no `type` (then `type.capitalize()`
   * throws before anything is created). `capitalize` is the host's `String.capitalize`.
   */
  function NewItemData(dataset: map<string, string>, capitalize: string -> string): (r: Option<ItemData>)
    ensures r.Some? <==> "type" in dataset
    ensures r.Some? ==> r.value.name == "New " + capitalize(dataset["type"]) && r.value.itemType == dataset["type"]
    ensures r.Some? ==> r.value.data.Keys == dataset.Keys - {"type"}
    ensures r.Some? ==> forall k :: k in r.value.data ==> r.value.data[k] == dataset[k]
  {
    if "type" in dataset then
      var t := dataset["type"];
      Some(ItemData("New " + capitalize(t), t, dataset - {"type"}))
    else
      None
  }

  /** The created item's data plus its type gives back the dataset. */
  lemma NewItemDataRestoresDataset(dataset: map<string, string>, capitalize: string -> string)
    requires "type" in dataset
    ensures NewItemData(dataset, capitalize).value.data["type" := NewItemData(dataset, capitalize).value.itemType] == dataset
  {
  }
}
