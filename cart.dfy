/** The cart propagator: the hidden `supplier_lead` field that the
    add-to-cart hook and the footer script leave on the product page, and the
    two cart filters that copy the posted value into the cart item and show it
    again in the cart and at checkout. */
module Cart {
  import opened Php
  import opened WordPress
  import opened Suppliers
  import opened Availability

  /** Key of the lead time in the cart item data, and name of the hidden field. */
  const CART_LEAD_KEY: string := "supplier_lead"
  /** Untranslated name of the row shown in the cart. */
  const CART_ROW_LABEL: string := "Supplier availability"

  /** What the add-to-cart hook leaves on the product page. */
  datatype LeadField =
    | NoField
      /** A simple product: the value is fixed when the page is rendered. */
    | StaticField(value: string)
      /** A variable product: the script's `backorderData` map and
          `supplierLeadTime`, and a hidden field that starts out as "". */
    | ScriptedField(backorderData: map<int, bool>, leadTime: string)

  /** One row of the cart's item data display. */
  datatype Row = Row(name: string, value: Mixed)

  function ChildIds(children: seq<int>): set<int>
  {
    set i | 0 <= i < |children| :: children[i]
  }

  /** The `foreach` over the variations of a variable product: each child id
      mapped to whether that variation allows backorders. A child that is not
      a product makes `wc_get_product` return false, and calling a method on
      it ends the request; that is `None` here. */
  method BuildBackorderData(children: seq<int>, catalog: map<int, Product>) returns (data: Option<map<int, bool>>)
    ensures data.Some? <==> forall i :: 0 <= i < |children| ==> children[i] in catalog
    ensures data.Some? ==> data.value.Keys == ChildIds(children)
    ensures data.Some? ==> forall v :: v in data.value ==> v in catalog && data.value[v] == catalog[v].backordersAllowed
  {
    var backorderData: map<int, bool> := map[];
    var i := 0;
    while i < |children|
      invariant 0 <= i <= |children|
      invariant forall j :: 0 <= j < i ==> children[j] in catalog
      invariant backorderData.Keys == ChildIds(children[..i])
      invariant forall v :: v in backorderData ==> v in catalog && backorderData[v] == catalog[v].backordersAllowed
    {
      var variationId := children[i];
      if variationId !in catalog {
        return None;
      }
      assert ChildIds(children[..i + 1]) == ChildIds(children[..i]) + {variationId} by {
        assert children[..i + 1] == children[..i] + [variationId];
      }
      backorderData := backorderData[variationId := catalog[variationId].backordersAllowed];
      i := i + 1;
    }
    assert children[..i] == children;
    return Some(backorderData);
  }

  /** The simple-product branch: the field carries the first supplier's lead
      time when backorders are allowed and that lead time is not `empty()`. */
  function SimpleLeadField(p: Product, terms: ProductTerms, meta: TermMeta): (r: LeadField)
    ensures !r.ScriptedField?
    ensures r.StaticField? <==> p.backordersAllowed && FirstSupplierLeadTime(terms, meta, p.id).Some?
                                && !IsEmpty(FirstSupplierLeadTime(terms, meta, p.id).value)
    ensures r.StaticField? ==> r.value == FirstSupplierLeadTime(terms, meta, p.id).value
  {
    if p.backordersAllowed then
      var selected := GetPostTerms(terms, p.id);
      if selected != [] then
        var leadTime := GetTermMeta(meta, selected[0]);
        if !IsEmpty(leadTime) then StaticField(leadTime) else NoField
      else
        NoField
    else
      NoField
  }

  /** The `woocommerce_before_add_to_cart_button` hook. A variable product
      gets the script and the field only when it has a supplier, whatever that
      supplier's lead time; the backorder map is built first in any case. */
  method RenderLeadField(p: Product, catalog: map<int, Product>, terms: ProductTerms, meta: TermMeta)
    returns (r: Option<LeadField>)
    ensures p.kind == Simple ==> r == Some(SimpleLeadField(p, terms, meta))
    ensures p.kind == OtherKind ==> r == Some(NoField)
    ensures p.kind == Variable ==> (r.None? <==> exists i :: 0 <= i < |p.children| && p.children[i] !in catalog)
    ensures p.kind == Variable && r.Some? ==> (r.value.NoField? <==> FirstSupplierLeadTime(terms, meta, p.id).None?)
    ensures p.kind == Variable && r.Some? && !r.value.NoField? ==>
      && r.value.ScriptedField?
      && r.value.leadTime == FirstSupplierLeadTime(terms, meta, p.id).value
      && r.value.backorderData.Keys == ChildIds(p.children)
      && forall v :: v in r.value.backorderData ==> v in catalog && r.value.backorderData[v] == catalog[v].backordersAllowed
  {
    if p.kind == Variable {
      var backorderData := BuildBackorderData(p.children, catalog);
      if backorderData.None? {
        return None;
      }
      var leadTime := FirstSupplierLeadTime(terms, meta, p.id);
      if leadTime.Some? {
        return Some(ScriptedField(backorderData.value, leadTime.value));
      }
      return Some(NoField);
    } else if p.kind == Simple {
      return Some(SimpleLeadField(p, terms, meta));
    }
    return Some(NoField);
  }

  /** The value the add-to-cart form posts as `supplier_lead`, given the last
      variation the footer script saw selected (None before any). */
  function PostedLead(field: LeadField, selected: Option<int>): (r: Option<string>)
    ensures r.None? <==> field.NoField?
    ensures field.StaticField? ==> r == Some(field.value)
    ensures field.ScriptedField? && selected.Some? && selected.value in field.backorderData && field.backorderData[selected.value]
      ==> r == Some(field.leadTime)
    ensures field.ScriptedField? && !(selected.Some? && selected.value in field.backorderData && field.backorderData[selected.value])
      ==> r == Some("")
  {
    match field
    case NoField => None
    case StaticField(value) => Some(value)
    case ScriptedField(backorderData, leadTime) =>
      if selected.Some? && selected.value in backorderData && backorderData[selected.value] then Some(leadTime) else Some("")
  }

  /** For a variable product, the selected variation alone decides the posted
      value: its lead time when that variation allows backorders, else "". */
  lemma SelectedVariationDecides(field: LeadField, catalog: map<int, Product>, variationId: int)
    requires field.ScriptedField?
    requires forall v :: v in field.backorderData ==> v in catalog && field.backorderData[v] == catalog[v].backordersAllowed
    requires variationId in field.backorderData
    ensures PostedLead(field, Some(variationId)) == Some(if catalog[variationId].backordersAllowed then field.leadTime else "")
  {
  }

  /** The `woocommerce_add_cart_item_data` filter: the sanitised posted value
      is stored under `supplier_lead` when it was posted and is not the empty
      string ("0" is accepted, unlike with `empty()`); every other key keeps
      its value and its place. */
  method AddCartItemData(cartItemData: PhpArray<Mixed>, posted: Option<string>, host: HostLib) returns (r: PhpArray<Mixed>)
    ensures posted.Some? && posted.value != "" ==> Get(r, CART_LEAD_KEY) == Some(Str(host.sanitizeTextField(posted.value)))
    ensures posted.Some? && posted.value != "" ==> Keys(r) == Keys(cartItemData) + {CART_LEAD_KEY}
    ensures posted.Some? && posted.value != "" && CART_LEAD_KEY !in Keys(cartItemData)
      ==> r == cartItemData + [Entry(CART_LEAD_KEY, Str(host.sanitizeTextField(posted.value)))]
    ensures posted.Some? && posted.value != "" && CART_LEAD_KEY in Keys(cartItemData) ==>
      |r| == |cartItemData| && forall i :: 0 <= i < |r| && r[i].key != CART_LEAD_KEY ==> r[i] == cartItemData[i]
    ensures !(posted.Some? && posted.value != "") ==> r == cartItemData
    ensures forall k :: k != CART_LEAD_KEY ==> Get(r, k) == Get(cartItemData, k)
  {
    r := cartItemData;
    if posted.Some? && posted.value != "" {
      var lead := Str(host.sanitizeTextField(posted.value));
      r := Put(r, CART_LEAD_KEY, lead);
      PutGet(cartItemData, CART_LEAD_KEY, lead);
      forall k | k != CART_LEAD_KEY ensures Get(r, k) == Get(cartItemData, k) {
        PutGetOther(cartItemData, CART_LEAD_KEY, lead, k);
      }
      if CART_LEAD_KEY !in Keys(cartItemData) {
        PutNewAppends(cartItemData, CART_LEAD_KEY, lead);
      } else {
        forall i | 0 <= i < |r| && r[i].key != CART_LEAD_KEY ensures r[i] == cartItemData[i] {
          PutExistingInPlace(cartItemData, CART_LEAD_KEY, lead, i);
        }
      }
    }
  }

  /** The `woocommerce_get_item_data` filter: when the cart item has a
      non-null `supplier_lead`, one row named "Supplier availability" is
      appended after the existing rows, which stay as they were. */
  method GetItemData(data: seq<Row>, cartItem: PhpArray<Mixed>, host: HostLib) returns (r: seq<Row>)
    ensures |r| == if Isset(cartItem, CART_LEAD_KEY) then |data| + 1 else |data|
    ensures r[..|data|] == data
    ensures Isset(cartItem, CART_LEAD_KEY) ==>
      r[|data|] == Row(host.translate(CART_ROW_LABEL), host.wcClean(Get(cartItem, CART_LEAD_KEY).value))
  {
    r := data;
    if Isset(cartItem, CART_LEAD_KEY) {
      r := r + [Row(host.translate(CART_ROW_LABEL), host.wcClean(Get(cartItem, CART_LEAD_KEY).value))];
    }
  }

  /** Adding to the cart and then showing the cart: a posted, non-empty lead
      time comes back as the last row, cleaned after being sanitised; without
      one, the item keeps whatever `supplier_lead` it already carried, and
      that is shown instead, or no row at all. */
  method AddThenShow(cartItemData: PhpArray<Mixed>, posted: Option<string>, data: seq<Row>, host: HostLib)
    returns (rows: seq<Row>)
    ensures rows == data + (
      if posted.Some? && posted.value != "" then
        [Row(host.translate(CART_ROW_LABEL), host.wcClean(Str(host.sanitizeTextField(posted.value))))]
      else if Isset(cartItemData, CART_LEAD_KEY) then
        [Row(host.translate(CART_ROW_LABEL), host.wcClean(Get(cartItemData, CART_LEAD_KEY).value))]
      else [])
  {
    var cartItem := AddCartItemData(cartItemData, posted, host);
    rows := GetItemData(data, cartItem, host);
    assert rows == rows[..|data|] + rows[|data|..];
  }

  /** On a simple product with stock loosely 0 and no parent, the hidden field
      and the availability text agree: the field carries a lead time exactly
      when the text announces it. */
  lemma SimpleFieldMatchesAnnouncement(availability: string, p: Product, terms: ProductTerms, meta: TermMeta, host: HostLib)
    requires p.kind == Simple && p.parentId == 0 && LooselyZero(p.stockQuantity)
    ensures SimpleLeadField(p, terms, meta).StaticField? ==>
      ModifyProductAvailability(availability, p, terms, meta, host) == Announcement(SimpleLeadField(p, terms, meta).value, host)
    ensures !SimpleLeadField(p, terms, meta).StaticField? ==>
      ModifyProductAvailability(availability, p, terms, meta, host) == availability
  {
  }

  /** The hidden field of a simple product does not look at the stock: with
      stock on hand the text is left alone, yet the lead time still goes to
      the cart. */
  lemma SimpleFieldIgnoresStock(availability: string, p: Product, terms: ProductTerms, meta: TermMeta, host: HostLib)
    requires p.kind == Simple && p.parentId == 0 && p.backordersAllowed
    requires !LooselyZero(p.stockQuantity)
    requires FirstSupplierLeadTime(terms, meta, p.id).Some? && !IsEmpty(FirstSupplierLeadTime(terms, meta, p.id).value)
    ensures ModifyProductAvailability(availability, p, terms, meta, host) == availability
    ensures PostedLead(SimpleLeadField(p, terms, meta), None) == Some(FirstSupplierLeadTime(terms, meta, p.id).value)
  {
  }

  /** The add-to-cart hook looks up the simple product's own id, while the
      availability filter looks up its parent when it has one. A simple
      product with a parent, whose parent has no supplier, therefore posts
      its own supplier's lead time while its availability text stays as it
      is. */
  lemma SimpleFieldUsesOwnIdNotParent(availability: string, p: Product, terms: ProductTerms, meta: TermMeta, host: HostLib)
    requires p.kind == Simple && p.backordersAllowed && LooselyZero(p.stockQuantity)
    requires p.parentId != 0 && GetPostTerms(terms, p.parentId) == []
    requires FirstSupplierLeadTime(terms, meta, p.id).Some? && !IsEmpty(FirstSupplierLeadTime(terms, meta, p.id).value)
    ensures SimpleLeadField(p, terms, meta) == StaticField(FirstSupplierLeadTime(terms, meta, p.id).value)
    ensures ModifyProductAvailability(availability, p, terms, meta, host) == availability
  {
  }

  /** A variable product's script carries the lead time even when `empty()`
      holds of it: a lead time of "0" is posted for a variation that allows
      backorders, while the availability text of that variation, looked up
      through the same parent, is left unchanged. */
  lemma ScriptedZeroLeadTimeReachesCart(field: LeadField, variationId: int, availability: string,
                                        variation: Product, terms: ProductTerms, meta: TermMeta, host: HostLib)
    requires field.ScriptedField? && field.leadTime == "0"
    requires variationId in field.backorderData && field.backorderData[variationId]
    requires variation.id == variationId && variation.parentId != 0
    requires FirstSupplierLeadTime(terms, meta, variation.parentId) == Some(field.leadTime)
    ensures PostedLead(field, Some(variationId)) == Some("0")
    ensures ModifyProductAvailability(availability, variation, terms, meta, host) == availability
  {
  }

  /** A shopper's visit, as a client of the hook and the filters sees it. */
  method ShopperScenario(host: HostLib)
  {
    var variation := Product(11, 10, OtherKind, [], true, Some(0));
    var parent := Product(10, 0, Variable, [11], false, Some(0));
    var catalog := map[11 := variation];
    var terms := map[10 := [7]];
    var meta := map[7 := "10 days"];
    var field := RenderLeadField(parent, catalog, terms, meta);
    assert FirstSupplierLeadTime(terms, meta, 10) == Some("10 days");
    assert field.Some? && field.value.ScriptedField?;
    assert ChildIds([11]) == {11} by {
      assert [11][0] == 11;
    }
    assert field.value.backorderData == map[11 := true];
    var posted := PostedLead(field.value, Some(11));
    assert posted == Some("10 days");
    var rows := AddThenShow([], posted, [], host);
    assert rows == [Row(host.translate(CART_ROW_LABEL), host.wcClean(Str(host.sanitizeTextField("10 days"))))];
    rows := AddThenShow([], PostedLead(field.value, None), [], host);
    assert rows == [];
  }
}
