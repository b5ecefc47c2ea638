/** The host platform as the plugin sees it: the library functions it calls
    without looking inside, the product record it reads, and the two stores
    it reads and writes (term meta and product-term relationships). */
module WordPress {
  import opened Php

  /** Host library functions whose definitions lie outside this model. Each is
      an arbitrary total function, so nothing proved here depends on what it
      does: `sanitize_text_field`, `esc_html`, `wc_clean` and `__` (with the
      plugin's text domain fixed). */
  datatype HostLib = HostLib(
    sanitizeTextField: string -> string,
    escHtml: string -> string,
    wcClean: Mixed -> Mixed,
    translate: string -> string)

  datatype ProductKind = Simple | Variable | OtherKind

  /** What the plugin reads of a WooCommerce product object:
      `get_id()`, `get_parent_id()` (0 when it has no parent), `is_type()`,
      `get_children()`, `backorders_allowed()` and `get_stock_quantity()`
      (an int, or null when stock is not managed). */
  datatype Product = Product(
    id: int,
    parentId: int,
    kind: ProductKind,
    children: seq<int>,
    backordersAllowed: bool,
    stockQuantity: Option<int>)

  /** Term meta under the key `supplier_lead_time`, by supplier term id. */
  type TermMeta = map<int, string>

  /** Product id to the ids of its supplier terms, in the order the host
      returns them. */
  type ProductTerms = map<int, seq<int>>

  /** `get_term_meta($termId, 'supplier_lead_time', true)`: the stored string,
      or "" when the term has none. */
  function GetTermMeta(meta: TermMeta, termId: int): string
  {
    if termId in meta then meta[termId] else ""
  }

  /** `wp_get_post_terms($productId, 'supplier')` reduced to term ids: the
      product's supplier terms, or the empty list when it has none. */
  function GetPostTerms(terms: ProductTerms, productId: int): seq<int>
  {
    if productId in terms then terms[productId] else []
  }
}
