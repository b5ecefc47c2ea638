/** The supplier registry and the product-supplier association: the
    `supplier_lead_time` term field, its list-table column, and the
    single-supplier assignment saved with a product. */
module Suppliers {
  import opened Php
  import opened WordPress

  const LEAD_TIME_SLUG: string := "supplier_lead_time"
  /** Untranslated title of the lead-time column. */
  const LEAD_TIME_COLUMN_TITLE: string := "Lead Time"

  /** The lead time of a product's first supplier term, or None when the
      product has no supplier terms. This is the lookup that the availability
      filter and the add-to-cart hook share. */
  function FirstSupplierLeadTime(terms: ProductTerms, meta: TermMeta, productId: int): Option<string>
  {
    var suppliers := GetPostTerms(terms, productId);
    if suppliers == [] then None else Some(GetTermMeta(meta, suppliers[0]))
  }

  /** Only the first supplier term of a product matters to the lookup. */
  lemma OnlyFirstSupplierCounts(terms: ProductTerms, meta: TermMeta, productId: int, first: int, rest: seq<int>)
    requires GetPostTerms(terms, productId) == [first] + rest
    ensures FirstSupplierLeadTime(terms, meta, productId) == Some(GetTermMeta(meta, first))
    ensures FirstSupplierLeadTime(terms, meta, productId) == FirstSupplierLeadTime(terms[productId := [first]], meta, productId)
  {
  }

  /** The `manage_edit-supplier_columns` filter: sets the `supplier_lead_time`
      column's title; every other column keeps its title and its place. */
  method DisplayLeadTimeColumn(columns: PhpArray<string>, host: HostLib) returns (r: PhpArray<string>)
    ensures Get(r, LEAD_TIME_SLUG) == Some(host.translate(LEAD_TIME_COLUMN_TITLE))
    ensures forall k :: k != LEAD_TIME_SLUG ==> Get(r, k) == Get(columns, k)
    ensures Keys(r) == Keys(columns) + {LEAD_TIME_SLUG}
    ensures LEAD_TIME_SLUG !in Keys(columns) ==> r == columns + [Entry(LEAD_TIME_SLUG, host.translate(LEAD_TIME_COLUMN_TITLE))]
    ensures LEAD_TIME_SLUG in Keys(columns) ==>
      |r| == |columns| && forall i :: 0 <= i < |r| && r[i].key != LEAD_TIME_SLUG ==> r[i] == columns[i]
  {
    var title := host.translate(LEAD_TIME_COLUMN_TITLE);
    r := Put(columns, LEAD_TIME_SLUG, title);
    PutGet(columns, LEAD_TIME_SLUG, title);
    forall k | k != LEAD_TIME_SLUG ensures Get(r, k) == Get(columns, k) {
      PutGetOther(columns, LEAD_TIME_SLUG, title, k);
    }
    if LEAD_TIME_SLUG !in Keys(columns) {
      PutNewAppends(columns, LEAD_TIME_SLUG, title);
    } else {
      forall i | 0 <= i < |r| && r[i].key != LEAD_TIME_SLUG ensures r[i] == columns[i] {
        PutExistingInPlace(columns, LEAD_TIME_SLUG, title, i);
      }
    }
  }

  /** The `manage_supplier_custom_column` filter: for the lead-time column,
      appends the escaped lead time, or "-" when `empty()` holds of it;
      any other column's content comes back as given. */
  function PopulateLeadTimeColumn(content: string, columnName: string, termId: int, meta: TermMeta, host: HostLib): (r: string)
    ensures columnName != LEAD_TIME_SLUG ==> r == content
    ensures columnName == LEAD_TIME_SLUG && IsEmpty(GetTermMeta(meta, termId)) ==> r == content + "-"
    ensures columnName == LEAD_TIME_SLUG && !IsEmpty(GetTermMeta(meta, termId)) ==> r == content + host.escHtml(GetTermMeta(meta, termId))
  {
    if LEAD_TIME_SLUG == columnName then
      var leadTime := GetTermMeta(meta, termId);
      var cell := if !IsEmpty(leadTime) then host.escHtml(leadTime) else "-";
      content + cell
    else
      content
  }

  /** The host state this plugin writes: term meta and product-term links. */
  class SupplierStore {
    /** `supplier_lead_time` term meta, by supplier term id. */
    var leadTimes: TermMeta
    /** The supplier terms of each product. */
    var productSuppliers: ProductTerms
    /** The ids of the existing supplier terms, which `get_term_by` resolves. */
    var supplierTerms: set<int>

    constructor (existing: set<int>)
      ensures leadTimes == map[] && productSuppliers == map[] && supplierTerms == existing
    {
      leadTimes := map[];
      productSuppliers := map[];
      supplierTerms := existing;
    }

    /** The `edited_supplier` / `create_supplier` action: when the form posted
        a lead time, store its sanitised value on the term (an empty string
        included); otherwise write nothing. */
    method SaveLeadTimeField(termId: int, posted: Option<string>, host: HostLib)
      modifies this
      ensures posted.Some? ==> leadTimes == old(leadTimes)[termId := host.sanitizeTextField(posted.value)]
      ensures posted.Some? ==> GetTermMeta(leadTimes, termId) == host.sanitizeTextField(posted.value)
      ensures posted.None? ==> leadTimes == old(leadTimes)
      ensures productSuppliers == old(productSuppliers) && supplierTerms == old(supplierTerms)
    {
      if posted.Some? {
        var leadTime := host.sanitizeTextField(posted.value);
        leadTimes := leadTimes[termId := leadTime];
      }
    }

    /** The `woocommerce_process_product_meta` action: resolves element 0 of
        the posted supplier list and makes that term the product's only
        supplier, replacing any earlier association. When the list is absent
        or empty, or its first id names no supplier term (the "All suppliers"
        option posts 0), `get_term_by` gives false, reading `term_id` of it
        gives null with a warning, and the call to `wp_set_object_terms` goes
        ahead with null: the product is left with no supplier terms.
        `resolved` tells whether element 0 named a supplier term. */
    method SaveSupplierData(productId: int, posted: Option<seq<int>>) returns (resolved: bool)
      modifies this
      ensures resolved <==> posted.Some? && |posted.value| > 0 && posted.value[0] in old(supplierTerms)
      ensures resolved ==> productSuppliers == old(productSuppliers)[productId := [posted.value[0]]]
      ensures resolved ==> GetPostTerms(productSuppliers, productId) == [posted.value[0]]
      ensures !resolved ==> productSuppliers == old(productSuppliers)[productId := []]
      ensures !resolved ==> GetPostTerms(productSuppliers, productId) == []
      ensures leadTimes == old(leadTimes) && supplierTerms == old(supplierTerms)
    {
      // `$suppliers[0]`: a missing list or a missing index reads as nothing.
      var first: Option<int> := if posted.Some? && |posted.value| > 0 then Some(posted.value[0]) else None;
      // `get_term_by('term_id', ...)`: the term, or false.
      var term: Option<int> := if first.Some? && first.value in supplierTerms then first else None;
      // `$term->term_id`: the id, or null when the lookup gave false.
      var termIds: seq<int> := if term.Some? then [term.value] else [];
      productSuppliers := productSuppliers[productId := termIds];
      resolved := term.Some?;
    }
  }

  /** Saves from the admin screens, as a client of the store sees them. */
  method AdminSaveScenario(host: HostLib)
  {
    var store := new SupplierStore({7, 12});
    var saved := store.SaveSupplierData(42, Some([7, 12]));
    assert saved && GetPostTerms(store.productSuppliers, 42) == [7];
    saved := store.SaveSupplierData(42, Some([12]));
    assert saved && GetPostTerms(store.productSuppliers, 42) == [12];
    saved := store.SaveSupplierData(42, Some([0]));
    assert !saved && GetPostTerms(store.productSuppliers, 42) == [];
    store.SaveLeadTimeField(7, Some("2 weeks"), host);
    assert GetTermMeta(store.leadTimes, 7) == host.sanitizeTextField("2 weeks");
    store.SaveLeadTimeField(7, None, host);
    assert GetTermMeta(store.leadTimes, 7) == host.sanitizeTextField("2 weeks");
  }
}
