# WooCommerce Suppliers: a Dafny model of its decision rules

The WooCommerce Suppliers plugin adds a "Supplier" taxonomy to WooCommerce
products. Each supplier term carries a free-form lead time. A product is linked
to one supplier. When a product is on backorder, the lead time replaces the
product's availability text, and it follows the item into the cart.

Almost all of the plugin registers hooks and prints HTML. This project models
the rules underneath that, over an abstract host state:

- `php.dfy`, module `Php`: the PHP semantics the rules depend on. `empty()`
  treats `"0"` as empty. Loose `== 0` makes a null stock quantity count as
  zero. `isset()` is false for a null value. Associative arrays keep insertion
  order and hold each key once; `PhpArray<V>` is a subset type that enforces
  that, and `Put` is the assignment `$a[$k] = $v`.
- `wordpress.dfy`, module `WordPress`: the host. `HostLib` holds
  `sanitize_text_field`, `esc_html`, `wc_clean` and `__` as arbitrary
  functions, so nothing proved depends on what they do. `Product` is the part
  of a WooCommerce product the plugin reads. Term meta is a map from term id
  to lead time. Product terms are a map from product id to a list of supplier
  term ids.
- `suppliers.dfy`, module `Suppliers`: the supplier registry and the product
  association. It holds the two list-table column filters and the class
  `SupplierStore`. The store's two methods write term meta and the
  product-term link in place.
- `availability.dfy`, module `Availability`: the availability announcer
  (`modify_product_availability`), a pure function, with lemmas about it.
- `cart.dfy`, module `Cart`: the cart propagator. It covers the add-to-cart
  hook's hidden field, including the loop that builds the per-variation
  backorder map. It covers the footer script's rule for the field's value and
  the two cart filters. Lemmas relate the cart path to the availability text.

The filters that take an array and return it modify a local copy, since PHP
arrays are values. They are methods that return the new array. The loop over a
variable product's children is a `while` loop with invariants.

The model follows the code in four places where a reader might expect
otherwise:

- The add-to-cart hook never checks the stock quantity. A simple product that
  allows backorders still sends its lead time to the cart when it has stock,
  and the availability text is then left alone (`Cart.SimpleFieldIgnoresStock`).
- For a variable product, the script carries the lead time even when
  `empty()` holds of it. A lead time of `"0"` therefore reaches the cart, but
  never the availability text (`Cart.ScriptedZeroLeadTimeReachesCart`).
- `save_supplier_data` reads `term_id` of the result of `get_term_by`
  without a guard. When element 0 names no supplier term (the meta box's
  "All suppliers" option posts 0), that read gives null and the save goes on,
  so the product is left with no supplier.
- The add-to-cart hook looks up the suppliers of a simple product by its own
  id (woocommerce-suppliers.php:257), while the availability filter looks up
  the parent whenever the parent id is non-zero (lines 204-205). A simple
  product with a parent can therefore post its own supplier's lead time while
  its availability text is left alone (`Cart.SimpleFieldUsesOwnIdNotParent`).

## Model

| member | source | states |
|---|---|---|
| `Php.Get` | woocommerce-suppliers.php:308-311 | reading `$a[$k]` finds a value exactly when `k` is a key, and the value found is the one stored with `k` |
| `Php.Put` | woocommerce-suppliers.php:103 | `$a[$k] = $v` yields an array with unique keys whose keys are the old ones plus `k`; its length grows by one only for a new key |
| `Php.PutGet` | woocommerce-suppliers.php:299 | after `$a[$k] = $v`, reading `$a[$k]` gives `v` |
| `Php.PutGetOther` | woocommerce-suppliers.php:299 | `$a[$k] = $v` leaves the value of every other key unchanged |
| `Php.PutNewAppends` | woocommerce-suppliers.php:299 | a new key is appended after all existing entries, which keep their order |
| `Php.PutExistingInPlace` | woocommerce-suppliers.php:299 | an existing key keeps its position; only the entry holding it changes |
| `Suppliers.OnlyFirstSupplierCounts` | woocommerce-suppliers.php:211-215 | the lead-time lookup reads only a product's first supplier term; dropping the others changes nothing |
| `Suppliers.DisplayLeadTimeColumn` | woocommerce-suppliers.php:101-105 | the `supplier_lead_time` column gets the translated "Lead Time" title; it is appended when new and replaced in place otherwise; every other column keeps its title and position |
| `Suppliers.PopulateLeadTimeColumn` | woocommerce-suppliers.php:115-122 | for a column other than `supplier_lead_time` the content comes back as given; for that column the escaped lead time is appended, or `-` when the lead time is `""` or `"0"` |
| `Suppliers.SupplierStore.SaveLeadTimeField` | woocommerce-suppliers.php:86-92 | a posted lead time is stored, sanitised, on the term (an empty one included), and reads back as stored; without a posted value nothing is written; product links are untouched |
| `Suppliers.SupplierStore.SaveSupplierData` | woocommerce-suppliers.php:154-161 | element 0 of the posted list resolves exactly when the list is present and that id names a supplier term; the product's association then becomes exactly that one term, replacing the old one; otherwise it becomes empty (the call with a null term); no other product's association and no lead time changes |
| `Availability.ModifyProductAvailability` | woocommerce-suppliers.php:199-224 | the text is unchanged when backorders are not allowed, when stock is not loosely 0, when there is no supplier, or when the first supplier's lead time is `""` or `"0"`; with backorders, loosely-zero stock and a non-empty lead time L it is exactly the bold translated "Supplier availability: " label followed by L; any change is that announcement |
| `Availability.NoBackordersIgnoresSuppliers` | woocommerce-suppliers.php:209-223 | with backorders disallowed the result is the given text, whatever supplier terms and lead times are stored |
| `Availability.NullStockCountsAsZero` | woocommerce-suppliers.php:210-213 | a null stock quantity gives the same result as a stock of 0 |
| `Availability.VariationUsesParentSupplier` | woocommerce-suppliers.php:201-207 | a product with a parent is announced with the parent's supplier: same result as for a product with the parent's id; its own supplier terms play no part |
| `Availability.FirstSupplierDecides` | woocommerce-suppliers.php:213-215 | only the first supplier term of the looked-up product affects the text |
| `Cart.BuildBackorderData` | woocommerce-suppliers.php:235-241 | the map is built exactly when every child is a product; its keys are the child ids, and each maps to whether that variation allows backorders |
| `Cart.SimpleLeadField` | woocommerce-suppliers.php:254-267 | a simple product gets the hidden field exactly when backorders are allowed, it has a supplier, and the first supplier's lead time is not `empty()`; the field's value is that lead time |
| `Cart.RenderLeadField` | woocommerce-suppliers.php:231-269 | a simple product is handled as above; a product of another type gets no field; a variable product fails when a child is not a product, otherwise gets the script exactly when it has a supplier, carrying that supplier's lead time and the backorder map of its children |
| `Cart.PostedLead` | woocommerce-suppliers.php:252-285 | no field posts nothing; a simple product's field posts its fixed value; a variable product's field posts the lead time when the selected variation is in the map and allows backorders, and `""` otherwise (before any selection too) |
| `Cart.SelectedVariationDecides` | woocommerce-suppliers.php:280-285 | for a variation in the map, the posted value is the lead time if that variation allows backorders, else `""` |
| `Cart.AddCartItemData` | woocommerce-suppliers.php:297-302 | `supplier_lead` is set to the sanitised value exactly when a value was posted and is not `""` (so `"0"` is accepted); it is appended when new or replaced in place; every other key keeps its value and place; otherwise the data comes back unchanged |
| `Cart.GetItemData` | woocommerce-suppliers.php:307-315 | exactly one row, the translated "Supplier availability" with the cleaned value, is appended when the item has a non-null `supplier_lead`; the existing rows are kept in order; otherwise the rows come back unchanged |
| `Cart.AddThenShow` | woocommerce-suppliers.php:297-315 | the given rows come back followed by one row holding the posted, non-empty lead time, sanitised then cleaned; when nothing is accepted, by one row holding the `supplier_lead` the item already carried, if set; otherwise by nothing |
| `Cart.SimpleFieldMatchesAnnouncement` | woocommerce-suppliers.php:254-266 | for a simple product with no parent and loosely-zero stock, the hidden field carries a lead time exactly when the availability text announces that same lead time |
| `Cart.SimpleFieldIgnoresStock` | woocommerce-suppliers.php:255-264 | with stock on hand and backorders allowed, the availability text is left alone while the hidden field still posts the lead time |
| `Cart.SimpleFieldUsesOwnIdNotParent` | woocommerce-suppliers.php:204-205 | a simple product with a parent that has no supplier, with backorders and loosely-zero stock, gets a hidden field with its own first supplier's non-empty lead time (line 257 looks up its own id), while its availability text is left unchanged |
| `Cart.ScriptedZeroLeadTimeReachesCart` | woocommerce-suppliers.php:244-250 | a variable product's lead time of `"0"`, which `empty()` treats as empty, is still posted for a variation that allows backorders, while that variation's availability text, looked up through its parent, is left unchanged |

## Left out

- Taxonomy registration, the term form field, the product meta box and the storefront filter dropdown (woocommerce-suppliers.php:26-56, 61-80, 131-148, 168-192): these only call host APIs and print HTML.
- The activation guards (woocommerce-suppliers.php:12-18): they check the environment.
- The literal HTML, the `<script>` text, `json_encode` and the jQuery code: only the value rule for the hidden field is modelled. The posted value is taken to equal what the page put in the field. WordPress adds slashes to every `$_POST` value; `update_term_meta` (line 90) removes them before storing, but the cart filter (line 299) does not, so a lead time holding a quote reaches the cart item and the cart row with a backslash before the quote. The model passes posted values through unslashed and models neither the slashing nor its removal. The source inserts the lead time unescaped into an HTML attribute and a JavaScript string literal; what a quote character does there is not modelled.
- PHP arrays: the string-keyed ones (the column list, the cart item data) are `PhpArray`, with order and replacement in place modelled. The integer-indexed ones are sequences (`$suppliers[0]`, the supplier terms read at lines 214, 245, 260) or a map (`$backorder_data`, line 240). The backorder map's order is dropped because the script only looks keys up. Values are told apart only as null, string or other.
- Term meta other than `supplier_lead_time`: the model keeps only that key.
- The internals of `sanitize_text_field`, `esc_html`, `wc_clean` and `__`: they are arbitrary functions in `HostLib`.
- `get_term_by`: modelled as a lookup in the set of existing supplier term ids, which returns the id it was given. The posted ids are integers in the model; the source casts strings.
- `wp_get_post_terms`: reduced to the list of term ids, empty when the product has none. An error result, which fails `is_array`, leaves the text unchanged just as the empty list does.
- `Suppliers.SupplierStore.SaveSupplierData`: when element 0 names no term, the source passes null to `wp_set_object_terms` on line 160. The model takes the host to replace the product's terms with an empty list, as that function replaces all terms of the object; the function's own handling of a null term is host code and is not modelled.
- The WooCommerce product API: abstracted to the record `Product`. `backorders_allowed()` is a field, so its delegation from a variation to its parent is not modelled. The stock quantity is an int or null, never a float.
- The footer script's event handling: the model takes the last variation the script saw selected. A variation reset event, which does not clear the field, is not modelled.
- The `$product_id` argument of the add-to-cart filter: the code does not use it.
- The host's merging of cart item data with its own keys: the model takes the item to carry the data returned by the filter.
- Concurrency of admin saves: each save is modelled as one atomic step. In the host, requests run in separate workers without a lock, and `wp_set_object_terms` (line 160) reads, deletes and inserts in separate queries, so interleaved saves can mix; that is not modelled.
