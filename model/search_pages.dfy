/** frontend/src/components/consumer/SearchItems.jsx, SearchSuppliers.jsx and
    Chat.jsx: the case-insensitive list filters of the consumer pages, and the
    chat's send guard. */
module SearchPages {
  import opened Wrappers
  import opened Seqs
  import opened Text

  /** The fields of an item card the search reads. */
  datatype ItemCard = ItemCard(id: int, name: string, description: string, supplier: string, category: string)

  /** The search page's item filter: the term in the name, description or category. */
  predicate ItemMatches(item: ItemCard, term: string) {
    ContainsIgnoreCase(item.name, term)
    || ContainsIgnoreCase(item.description, term)
    || ContainsIgnoreCase(item.category, term)
  }

  /** SearchItems' `filteredItems`. */
  function FilteredItems(items: seq<ItemCard>, term: string): (r: seq<ItemCard>)
    ensures forall i :: 0 <= i < |r| ==> r[i] in items && ItemMatches(r[i], term)
    ensures forall i :: 0 <= i < |items| && ItemMatches(items[i], term) ==> items[i] in r
  {
    Filter(items, (item: ItemCard) => ItemMatches(item, term))
  }

  /** The item list keeps the page's order, and an empty term keeps every item. */
  lemma FilteredItemsShape(items: seq<ItemCard>, term: string)
    ensures IsSubsequence(FilteredItems(items, term), items)
    ensures term == "" ==> FilteredItems(items, term) == items
  {
    FilterIsSubsequence(items, (item: ItemCard) => ItemMatches(item, term));
    if term == "" {
      forall i | 0 <= i < |items| ensures ItemMatches(items[i], term) {
        ContainsEmpty(Lower(items[i].name));
      }
      FilterAll(items, (item: ItemCard) => ItemMatches(item, term));
    }
  }

  /** The category chips. */
  const CATEGORY_CHIPS := ["Vegetables", "Bakery", "Seafood", "Dairy", "Fruits"]

  /** Clicking a chip makes its name the term, which keeps every item of that category. */
  lemma ChipKeepsCategory(items: seq<ItemCard>, k: nat, i: nat)
    requires k < |CATEGORY_CHIPS| && i < |items| && items[i].category == CATEGORY_CHIPS[k]
    ensures items[i] in FilteredItems(items, CATEGORY_CHIPS[k])
  {
    ContainsIgnoreCaseSelf(items[i].category);
  }

  /** The fields of a supplier card the search reads. */
  datatype SupplierCard = SupplierCard(id: int, name: string, description: string, categories: seq<string>)

  /** `categories.some(cat => …includes(term))`. */
  predicate SomeCategoryMatches(categories: seq<string>, term: string) {
    exists i :: 0 <= i < |categories| && ContainsIgnoreCase(categories[i], term)
  }

  predicate SupplierMatches(s: SupplierCard, term: string) {
    ContainsIgnoreCase(s.name, term)
    || ContainsIgnoreCase(s.description, term)
    || SomeCategoryMatches(s.categories, term)
  }

  /** SearchSuppliers' `filteredSuppliers`. */
  function FilteredSuppliers(suppliers: seq<SupplierCard>, term: string): (r: seq<SupplierCard>)
    ensures |r| <= |suppliers|
    ensures forall i :: 0 <= i < |r| ==> r[i] in suppliers && SupplierMatches(r[i], term)
    ensures forall i :: 0 <= i < |suppliers| && SupplierMatches(suppliers[i], term) ==> suppliers[i] in r
  {
    Filter(suppliers, (s: SupplierCard) => SupplierMatches(s, term))
  }

  /** The supplier list keeps the page's order, and an empty term keeps every supplier. */
  lemma FilteredSuppliersShape(suppliers: seq<SupplierCard>, term: string)
    ensures IsSubsequence(FilteredSuppliers(suppliers, term), suppliers)
    ensures term == "" ==> FilteredSuppliers(suppliers, term) == suppliers
  {
    FilterIsSubsequence(suppliers, (s: SupplierCard) => SupplierMatches(s, term));
    if term == "" {
      forall i | 0 <= i < |suppliers| ensures SupplierMatches(suppliers[i], term) {
        ContainsEmpty(Lower(suppliers[i].name));
      }
      FilterAll(suppliers, (s: SupplierCard) => SupplierMatches(s, term));
    }
  }

  /** A supplier matching only through one of its categories is still kept. */
  lemma CategoryAloneKeepsSupplier(suppliers: seq<SupplierCard>, term: string, i: nat, j: nat)
    requires i < |suppliers| && j < |suppliers[i].categories|
    requires ContainsIgnoreCase(suppliers[i].categories[j], term)
    ensures suppliers[i] in FilteredSuppliers(suppliers, term)
  {
  }

  /** The fields of a conversation the chat page's filter reads. */
  datatype Conversation = Conversation(id: int, supplierName: string)

  /** Chat's `filteredConversations`: the term in the supplier's name. */
  function FilteredConversations(conversations: seq<Conversation>, term: string): (r: seq<Conversation>)
    ensures forall i :: 0 <= i < |r| ==> r[i] in conversations && ContainsIgnoreCase(r[i].supplierName, term)
    ensures forall i :: 0 <= i < |conversations| && ContainsIgnoreCase(conversations[i].supplierName, term) ==>
              conversations[i] in r
  {
    Filter(conversations, (c: Conversation) => ContainsIgnoreCase(c.supplierName, term))
  }

  /** The conversation list keeps its order, and an empty term keeps everything. */
  lemma FilteredConversationsShape(conversations: seq<Conversation>, term: string)
    ensures IsSubsequence(FilteredConversations(conversations, term), conversations)
    ensures term == "" ==> FilteredConversations(conversations, term) == conversations
  {
    FilterIsSubsequence(conversations, (c: Conversation) => ContainsIgnoreCase(c.supplierName, term));
    if term == "" {
      forall i | 0 <= i < |conversations| ensures ContainsIgnoreCase(conversations[i].supplierName, term) {
        ContainsEmpty(Lower(conversations[i].supplierName));
      }
      FilterAll(conversations, (c: Conversation) => ContainsIgnoreCase(c.supplierName, term));
    }
  }

  /** The chat page's draft and selection. */
  class ChatPage {
    var newMessage: string
    var selectedConversation: Option<Conversation>
    /** Drafts written to the console by the placeholder send. */
    var logged: seq<string>

    constructor ()
      ensures newMessage == "" && selectedConversation == None && logged == []
    {
      newMessage := "";
      selectedConversation := None;
      logged := [];
    }

    /** `handleSendMessage`: only a draft with some non-whitespace text, with a
        conversation selected, is logged and cleared. */
    method HandleSendMessage()
      modifies this
      ensures Trim(old(newMessage)) != [] && selectedConversation.Some? ==>
                newMessage == "" && logged == old(logged) + [old(newMessage)]
      ensures !(Trim(old(newMessage)) != [] && selectedConversation.Some?) ==>
                newMessage == old(newMessage) && logged == old(logged)
      ensures selectedConversation == old(selectedConversation)
    {
      if Trim(newMessage) != [] && selectedConversation.Some? {
        logged := logged + [newMessage];
        newMessage := "";
      }
    }
  }

  /** A draft is sendable exactly when it has a character that is not whitespace. */
  lemma SendableIffNotBlank(draft: string)
    ensures Trim(draft) != [] <==> !AllWhitespace(draft)
  {
    TrimEmpty(draft);
  }
}
