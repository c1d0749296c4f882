/** frontend/src/components/supplier/ItemManagement.jsx: the supplier's item
    list, its add/edit dialog, delete, active toggle, search filter and
    category colours. The numeric form fields keep the text typed in the form
    (`parseFloat`/`parseInt` are left out); `Date.now()` is the parameter `now`. */
module ItemManagement {
  import opened Wrappers
  import opened Seqs
  import opened Text

  datatype Item = Item(id: int, name: string, description: string, category: string,
                       price: string, unit: string, stock: string, minOrder: string,
                       active: bool, image: string, tags: seq<string>, sku: string)

  /** The dialog's `formData`: every item field except `id` and `image`. */
  datatype ItemForm = ItemForm(name: string, description: string, category: string,
                               price: string, unit: string, stock: string, minOrder: string,
                               active: bool, tags: seq<string>, sku: string)

  const PLACEHOLDER_IMAGE := "https://via.placeholder.com/80x80?text="

  /** The form `handleAddItem` opens: blank fields, active. */
  const BLANK_FORM := ItemForm("", "", "", "", "", "", "", true, [], "")

  /** The form `handleEditItem` opens: the item's own fields. */
  function FormOf(item: Item): (f: ItemForm) {
    ItemForm(item.name, item.description, item.category, item.price, item.unit,
             item.stock, item.minOrder, item.active, item.tags, item.sku)
  }

  /** `{...item, ...formData}`: the form's fields over the item, keeping its
      `id` and `image`. */
  function Merge(item: Item, f: ItemForm): (r: Item)
    ensures r.id == item.id && r.image == item.image
    ensures FormOf(r) == f
  {
    Item(item.id, f.name, f.description, f.category, f.price, f.unit, f.stock,
         f.minOrder, f.active, item.image, f.tags, f.sku)
  }

  /** The item a save without an edited item appends: a fresh id, the form's
      fields and a placeholder image captioned with the upper-cased first
      three characters of the name. */
  function NewItem(f: ItemForm, now: int): (r: Item)
    ensures r.id == now && FormOf(r) == f
    ensures r.image == PLACEHOLDER_IMAGE + Upper(f.name[..Min(3, |f.name|)])
  {
    Item(now, f.name, f.description, f.category, f.price, f.unit, f.stock,
         f.minOrder, f.active, PLACEHOLDER_IMAGE + Upper(f.name[..Min(3, |f.name|)]), f.tags, f.sku)
  }

  /** Editing `editing`: every item with its id takes the form's fields. */
  function SavedEdit(items: seq<Item>, editing: Item, f: ItemForm): (r: seq<Item>)
    ensures |r| == |items|
    ensures forall i :: 0 <= i < |items| ==> r[i].id == items[i].id && r[i].image == items[i].image
    ensures forall i :: 0 <= i < |items| ==> if items[i].id == editing.id then FormOf(r[i]) == f else r[i] == items[i]
  {
    MapIf(items, (item: Item) => item.id == editing.id, (item: Item) => Merge(item, f))
  }

  /** `handleToggleActive(id)`'s new list: `active` flipped on the items of
      that id and nothing else changed. */
  function Toggled(items: seq<Item>, id: int): (r: seq<Item>)
    ensures |r| == |items|
    ensures forall i :: 0 <= i < |items| ==>
              r[i] == (if items[i].id == id then items[i].(active := !items[i].active) else items[i])
  {
    MapIf(items, (item: Item) => item.id == id, (item: Item) => item.(active := !item.active))
  }

  /** Toggling the same id twice restores the list. */
  lemma ToggleTwice(items: seq<Item>, id: int)
    ensures Toggled(Toggled(items, id), id) == items
  {
    MapIfTwice(items, (item: Item) => item.id == id, (item: Item) => item.(active := !item.active));
  }

  /** `items.filter(item => item.id !== id)`. */
  function WithoutId(items: seq<Item>, id: int): (r: seq<Item>)
    ensures |r| <= |items|
    ensures forall i :: 0 <= i < |r| ==> r[i].id != id && r[i] in items
    ensures forall i :: 0 <= i < |items| && items[i].id != id ==> items[i] in r
    ensures forall x: Item :: x.id != id ==> multiset(r)[x] == multiset(items)[x]
  {
    FilterMultiset(items, (item: Item) => item.id != id);
    Filter(items, (item: Item) => item.id != id)
  }

  /** Deleting keeps the remaining items in their order. */
  lemma WithoutIdKeepsOrder(items: seq<Item>, id: int)
    ensures IsSubsequence(WithoutId(items, id), items)
  {
    FilterIsSubsequence(items, (item: Item) => item.id != id);
  }

  /** The list filter: the term (case-insensitively) in the name, description
      or sku, and the category filter empty or equal to the category. */
  predicate Shown(item: Item, searchTerm: string, filterCategory: string) {
    && (ContainsIgnoreCase(item.name, searchTerm)
        || ContainsIgnoreCase(item.description, searchTerm)
        || ContainsIgnoreCase(item.sku, searchTerm))
    && (filterCategory == "" || item.category == filterCategory)
  }

  /** `filteredItems`. */
  function FilteredItems(items: seq<Item>, searchTerm: string, filterCategory: string): (r: seq<Item>)
    ensures forall i :: 0 <= i < |r| ==> r[i] in items && Shown(r[i], searchTerm, filterCategory)
    ensures forall i :: 0 <= i < |items| && Shown(items[i], searchTerm, filterCategory) ==> items[i] in r
  {
    Filter(items, (item: Item) => Shown(item, searchTerm, filterCategory))
  }

  /** With no search term and no category filter every item is shown, in order. */
  lemma NoFilterShowsAll(items: seq<Item>)
    ensures FilteredItems(items, "", "") == items
  {
    forall i | 0 <= i < |items| ensures Shown(items[i], "", "") {
      ContainsEmpty(Lower(items[i].name));
    }
    FilterAll(items, (item: Item) => Shown(item, "", ""));
  }

  /** `getCategoryColor`. */
  function CategoryColor(category: string): (color: string)
    ensures category !in {"Vegetables", "Fruits", "Bakery", "Seafood", "Dairy", "Meat"} ==> color == "default"
    ensures category in {"Vegetables", "Fruits", "Bakery", "Seafood", "Dairy", "Meat"} ==> color != "default"
  {
    match category
    case "Vegetables" => "success"
    case "Fruits" => "warning"
    case "Bakery" => "info"
    case "Seafood" => "primary"
    case "Dairy" => "secondary"
    case "Meat" => "error"
    case _ => "default"
  }

  /** The six named categories get six distinct colours. */
  lemma CategoryColorsDistinct(a: string, b: string)
    requires a in {"Vegetables", "Fruits", "Bakery", "Seafood", "Dairy", "Meat"}
    requires b in {"Vegetables", "Fruits", "Bakery", "Seafood", "Dairy", "Meat"}
    ensures CategoryColor(a) == CategoryColor(b) <==> a == b
  {
  }

  class ItemManager {
    var items: seq<Item>
    var openDialog: bool
    var editingItem: Option<Item>
    var formData: ItemForm
    /** Whether the row menu is anchored (open). */
    var menuOpen: bool
    var selectedItem: Option<Item>

    constructor (items: seq<Item>)
      ensures this.items == items && !openDialog && editingItem == None && formData == BLANK_FORM
      ensures !menuOpen && selectedItem == None
    {
      this.items := items;
      openDialog := false;
      editingItem := None;
      formData := BLANK_FORM;
      menuOpen := false;
      selectedItem := None;
    }

    /** `handleAddItem`. */
    method HandleAddItem()
      modifies this
      ensures editingItem == None && formData == BLANK_FORM && openDialog
      ensures items == old(items) && menuOpen == old(menuOpen) && selectedItem == old(selectedItem)
    {
      editingItem := None;
      formData := BLANK_FORM;
      openDialog := true;
    }

    /** `handleEditItem(item)`. */
    method HandleEditItem(item: Item)
      modifies this
      ensures editingItem == Some(item) && formData == FormOf(item) && openDialog
      ensures items == old(items) && menuOpen == old(menuOpen) && selectedItem == old(selectedItem)
    {
      editingItem := Some(item);
      formData := FormOf(item);
      openDialog := true;
    }

    /** `handleSaveItem`: overwrite the edited item, or append a new one. */
    method HandleSaveItem(now: int)
      modifies this
      ensures editingItem.Some? ==> items == SavedEdit(old(items), editingItem.value, formData)
      ensures editingItem.None? ==> items == old(items) + [NewItem(formData, now)]
      ensures !openDialog
      ensures editingItem == old(editingItem) && formData == old(formData)
      ensures menuOpen == old(menuOpen) && selectedItem == old(selectedItem)
    {
      match editingItem {
        case Some(editing) =>
          items := SavedEdit(items, editing, formData);
        case None =>
          items := items + [NewItem(formData, now)];
      }
      openDialog := false;
    }

    /** `handleDeleteItem(itemId)`: delete, then close the menu. */
    method HandleDeleteItem(itemId: int)
      modifies this
      ensures items == WithoutId(old(items), itemId)
      ensures !menuOpen && selectedItem == None
      ensures openDialog == old(openDialog) && editingItem == old(editingItem) && formData == old(formData)
    {
      items := WithoutId(items, itemId);
      HandleMenuClose();
    }

    /** `handleToggleActive(itemId)`. */
    method HandleToggleActive(itemId: int)
      modifies this
      ensures items == Toggled(old(items), itemId)
      ensures openDialog == old(openDialog) && editingItem == old(editingItem) && formData == old(formData)
      ensures menuOpen == old(menuOpen) && selectedItem == old(selectedItem)
    {
      items := Toggled(items, itemId);
    }

    /** `handleMenuClick(event, item)`. */
    method HandleMenuClick(item: Item)
      modifies this
      ensures menuOpen && selectedItem == Some(item)
      ensures items == old(items) && openDialog == old(openDialog)
      ensures editingItem == old(editingItem) && formData == old(formData)
    {
      menuOpen := true;
      selectedItem := Some(item);
    }

    /** `handleMenuClose`. */
    method HandleMenuClose()
      modifies this
      ensures !menuOpen && selectedItem == None
      ensures items == old(items) && openDialog == old(openDialog)
      ensures editingItem == old(editingItem) && formData == old(formData)
    {
      menuOpen := false;
      selectedItem := None;
    }
  }
}
