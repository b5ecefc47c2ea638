/** The availability announcer: the `woocommerce_get_availability_text`
    filter, which replaces a backordered product's availability text with its
    supplier's lead time. */
module Availability {
  import opened Php
  import opened WordPress
  import opened Suppliers

  /** Untranslated label put in front of the lead time. */
  const AVAILABILITY_LABEL: string := "Supplier availability: "

  /** The replacement text: the translated label in bold, then the lead time
      as stored (not escaped). */
  function Announcement(leadTime: string, host: HostLib): string
  {
    "<strong>" + host.translate(AVAILABILITY_LABEL) + "</strong>" + leadTime
  }

  /** The product whose suppliers are looked up: the parent of a variation
      (any product whose parent id is non-zero), otherwise the product itself. */
  function SupplierLookupId(p: Product): int
  {
    if p.parentId != 0 then p.parentId else p.id
  }

  /** The filter itself. The text is replaced exactly when backorders are
      allowed, the stock quantity is loosely 0 (null included), the looked-up
      product has a supplier, and that first supplier's lead time is not
      `empty()`; otherwise it comes back unchanged. */
  function ModifyProductAvailability(availability: string, p: Product, terms: ProductTerms, meta: TermMeta, host: HostLib): (r: string)
    ensures !p.backordersAllowed ==> r == availability
    ensures !LooselyZero(p.stockQuantity) ==> r == availability
    ensures GetPostTerms(terms, SupplierLookupId(p)) == [] ==> r == availability
    ensures FirstSupplierLeadTime(terms, meta, SupplierLookupId(p)).Some? && IsEmpty(FirstSupplierLeadTime(terms, meta, SupplierLookupId(p)).value)
      ==> r == availability
    ensures p.backordersAllowed && LooselyZero(p.stockQuantity) && GetPostTerms(terms, SupplierLookupId(p)) != []
      && !IsEmpty(GetTermMeta(meta, GetPostTerms(terms, SupplierLookupId(p))[0]))
      ==> r == Announcement(GetTermMeta(meta, GetPostTerms(terms, SupplierLookupId(p))[0]), host)
    ensures r != availability ==>
      && p.backordersAllowed && LooselyZero(p.stockQuantity)
      && FirstSupplierLeadTime(terms, meta, SupplierLookupId(p)).Some?
      && r == Announcement(FirstSupplierLeadTime(terms, meta, SupplierLookupId(p)).value, host)
  {
    var productId := SupplierLookupId(p);
    if p.backordersAllowed then
      var stockQuantity := p.stockQuantity;
      var selected := GetPostTerms(terms, productId);
      if LooselyZero(stockQuantity) && selected != [] then
        var leadTime := GetTermMeta(meta, selected[0]);
        if !IsEmpty(leadTime) then Announcement(leadTime, host) else availability
      else
        availability
    else
      availability
  }

  /** With backorders disallowed, no supplier data, however set, changes the text. */
  lemma NoBackordersIgnoresSuppliers(availability: string, p: Product, terms: ProductTerms, meta: TermMeta,
                                     otherTerms: ProductTerms, otherMeta: TermMeta, host: HostLib)
    requires !p.backordersAllowed
    ensures ModifyProductAvailability(availability, p, terms, meta, host)
         == ModifyProductAvailability(availability, p, otherTerms, otherMeta, host)
         == availability
  {
  }

  /** A null stock quantity behaves exactly like a stock of 0. */
  lemma NullStockCountsAsZero(availability: string, p: Product, terms: ProductTerms, meta: TermMeta, host: HostLib)
    requires p.stockQuantity.None?
    ensures ModifyProductAvailability(availability, p, terms, meta, host)
         == ModifyProductAvailability(availability, p.(stockQuantity := Some(0)), terms, meta, host)
  {
  }

  /** A variation is announced with its parent's supplier: the result is the
      same as for a product with the parent's id, and the variation's own
      supplier terms play no part. */
  lemma VariationUsesParentSupplier(availability: string, p: Product, terms: ProductTerms, meta: TermMeta,
                                    ownTerms: seq<int>, host: HostLib)
    requires p.parentId != 0 && p.id != p.parentId
    ensures ModifyProductAvailability(availability, p, terms, meta, host)
         == ModifyProductAvailability(availability, p.(id := p.parentId, parentId := 0), terms, meta, host)
    ensures ModifyProductAvailability(availability, p, terms, meta, host)
         == ModifyProductAvailability(availability, p, terms[p.id := ownTerms], meta, host)
  {
    assert GetPostTerms(terms[p.id := ownTerms], p.parentId) == GetPostTerms(terms, p.parentId);
  }

  /** Only the first supplier term counts: any further terms of the product
      leave the text as it is with the first alone. */
  lemma FirstSupplierDecides(availability: string, p: Product, terms: ProductTerms, meta: TermMeta,
                             first: int, rest: seq<int>, host: HostLib)
    requires GetPostTerms(terms, SupplierLookupId(p)) == [first] + rest
    ensures ModifyProductAvailability(availability, p, terms, meta, host)
         == ModifyProductAvailability(availability, p, terms[SupplierLookupId(p) := [first]], meta, host)
  {
  }
}
