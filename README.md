# CPB Custom Product Builder for WooCommerce, modelled in Dafny

The repository holds two WordPress plugins that let a WooCommerce store hand
product customisation to an external builder: `custom-product-builder`
(classes `CPB_*`) and `cpb-custom-product-builder` (classes `CPBWOO_*`). This
project models their shared core:

- **Currency handling** (`CPB_Currency`, `CPBWOO_Currency`):
  - sanitisation and validation of currency codes;
  - the priority chain that detects the shopper's currency;
  - the cached exchange-rate lookup (transient, backend API, fallback API, hard-coded table);
  - the rate filter for the storefront.
- **Cart handling** (`CPB_Cart`, `CPBWOO_Cart`):
  - sanitisation of the posted items;
  - the add-to-cart AJAX loop against an abstract cart;
  - the price override;
  - the display filters that turn customisation properties into item rows, a preview image and order-item meta.
- **Helpers of the main plugin class** (`CPB_Lite`):
  - product detection;
  - the storefront script URL;
  - shop-name derivation;
  - lifecycle-notification URLs;
  - the weekly subscription check;
  - the XOR fallback of the store-data encryption.

WordPress and WooCommerce functions are opaque total functions, gathered in
`WordPress.Wp`: `sanitize_text_field`, `sanitize_key`, `absint`, `esc_*`,
`json_decode`, `FILTER_VALIDATE_URL`, `rawurlencode`, `parse_url` and the
others. PHP values are the datatype `Php.Value`. Arrays are ordered
association lists whose canonical decimal string keys are stored as integers,
as PHP does. Most code is shared by both plugins and takes a
`Plugins.Plugin` parameter (`Cpb` or `Cpbwoo`) wherever the copies differ:
key names, try/catch, the single-item path and the request gates.

Files:

| file | module | contents |
|---|---|---|
| `php.dfy` | `Php` | PHP values, arrays, `empty`, `isset`, `??`, string helpers |
| `wordpress.dfy` | `Plugins`, `WordPress` | the plugin tag; the WordPress helpers |
| `currency.dfy` | `Currency` | code sanitisation and validation, currency detection |
| `rates.dfy` | `ExchangeRates` | rate fetching and caching, storefront data |
| `cart_items.dfy` | `CartItems` | `sanitize_cart_items_array` |
| `cart.dfy` | `Cart` | `add_to_cart`, `update_cart_item_price` |
| `cart_display.dfy` | `CartDisplay` | item rows, cart and mini-cart images, order-item meta |
| `main_plugin.dfy` | `MainPlugin` | the helpers of the main plugin file |

Stateful code is modelled imperatively, and each method is proved equal to a specification function:

- `ExchangeRates.TransientStore` is the transient store.
- `Cart.WcCart` is the cart, with its lines.
- `CartDisplay.OrderItem` is an order item's meta.
- `MainPlugin.SubscriptionMonitor` holds the weekly transient, the stored previous status and the notifications sent.
- Loops keep their loops: `CartItems.SanitizeCartItems`, `Cart.RunWithCart` and `MainPlugin.XorFallback`, among others.

The properties are then proved about those functions.

## Model

Source paths are relative to the repository root.

| member | source | states |
|---|---|---|
| Currency.SanitizeCurrencyCode | custom-product-builder/includes/class-cpb-currency.php:185-203 | Empty or non-string input gives null. Otherwise the result is non-null exactly when the cleaned text has at least three characters, and it is then the upper-cased first three characters. It counts characters where PHP counts bytes; see the byte reading below. |
| Currency.SanitizeCurrencyBytes | custom-product-builder/includes/class-cpb-currency.php:185-203 | The same steps over the cleaned text's UTF-8 bytes, as `substr` and `strlen` count them: non-null exactly when there are at least three bytes, and then the first three bytes, ASCII-upper-cased. |
| Currency.ByteReadingAgrees | custom-product-builder/includes/class-cpb-currency.php:200-202 | The byte result passes validation exactly when the character result does, and a valid byte result is the bytes of the character code. |
| Currency.EuroSignDiffers | custom-product-builder/includes/class-cpb-currency.php:200-202 | "€" (three bytes) gives a non-null, non-valid code under the byte reading and null under the character reading. |
| Currency.IsValidCurrencyCode | custom-product-builder/includes/class-cpb-currency.php:211-253 | A valid code is a string of three or four characters that starts with three upper-case letters. Without WooCommerce's table, valid means exactly "in the fixed list". |
| Currency.ValidCodeShape | custom-product-builder/includes/class-cpb-currency.php:211-253 | A valid code matches `^[A-Z]{3}$` and is a key of WooCommerce's table. Without that table it is exactly three upper-case letters from the fixed list. |
| Currency.CommonCurrenciesAreThreeLetters | custom-product-builder/includes/class-cpb-currency.php:231-252 | Each of the 20 fallback codes is three upper-case letters. |
| Currency.SanitizedValidIsThreeLetters | custom-product-builder/includes/class-cpb-currency.php:187-224 | A sanitised code that passes validation is exactly three upper-case letters; the pattern's trailing-newline case cannot apply to it. |
| Currency.ManualSanitizeAlphanumeric | custom-product-builder/includes/class-cpb-currency.php:192-202 | Without `sanitize_text_field`, every character of a sanitised code is an upper-case letter or a digit. |
| Currency.Elvis | custom-product-builder/includes/class-cpb-currency.php:112-115 | The session `?:` chain yields the first truthy of chosen, client and woocs, else the wmc value. |
| Currency.DetectCurrency | custom-product-builder/includes/class-cpb-currency.php:72-178 | The result is 'USD' or a valid code, and 'USD' whenever WooCommerce is missing. It is None (an exception escapes) exactly when a CPBWOO filter hook throws before a valid code is found. |
| Currency.FirstValid | custom-product-builder/includes/class-cpb-currency.php:83-176 | The reference rule: the position of the first valid candidate; every earlier one is invalid, and None means none is valid. |
| Currency.DetectionIsFirstValid | custom-product-builder/includes/class-cpb-currency.php:72-178 | When no exception escapes, the detected currency is the first valid source in the order WPML, WOOCS, session, cookie, Aelia, store default. With no valid source, or no WooCommerce, it is 'USD'. |
| Currency.PluginsAgree | cpb-custom-product-builder/includes/class-cpbwoo-currency.php:69-140 | When no hook throws, CPBWOO's currency equals CPB's. |
| Currency.SessionFirstNonEmptyShadows | custom-product-builder/includes/class-cpb-currency.php:110-121 | Once `chosen_currency` is non-empty, the other session keys cannot change the session candidate. |
| Currency.InvalidChosenBlocksClient | custom-product-builder/includes/class-cpb-currency.php:112-121 | A non-empty but invalid `chosen_currency` makes the session source fail, whatever `client_currency` holds. |
| Currency.WoocsCookieShadowsWmc | custom-product-builder/includes/class-cpb-currency.php:128-139 | A non-empty woocs cookie makes the wmc cookie irrelevant, even when the woocs value is invalid. |
| Currency.AeliaEqualToDefaultIsSkipped | custom-product-builder/includes/class-cpb-currency.php:144-157 | An Aelia code equal to the store default is no candidate. Once the earlier sources fail, the result is the default if valid, else 'USD'. |
| ExchangeRates.FallbackTableContents | custom-product-builder/includes/class-cpb-currency.php:389-403 | The hard-coded table maps USD to 1, has eight entries and is truthy. |
| ExchangeRates.BackendRates | custom-product-builder/includes/class-cpb-currency.php:315-353 | Backend rates are accepted only from a 200 response with a truthy `success` and a set `data.rates`, and every such response is accepted. The value is `data.rates`. |
| ExchangeRates.FallbackApiRates | custom-product-builder/includes/class-cpb-currency.php:360-384 | Fallback-API rates are accepted exactly from a non-error response with `rates` set; the status is not checked. |
| ExchangeRates.TransientStore.Set | custom-product-builder/includes/class-cpb-currency.php:348 | `set_transient` changes only its own key. |
| ExchangeRates.ApiRates | custom-product-builder/includes/class-cpb-currency.php:285-308 | The API result is false or truthy; truthy rates come from the backend or the fallback API. Truthy backend rates are returned; otherwise truthy fallback rates are. |
| ExchangeRates.MissCached | custom-product-builder/includes/class-cpb-currency.php:340-350 | A cache miss writes only if some fetch accepted rates, and what it writes is rates one of them accepted. |
| ExchangeRates.MissRates | custom-product-builder/includes/class-cpb-currency.php:265-273 | On a cache miss the result is truthy. It is the API result when that is truthy, and the table when the API result is false. |
| ExchangeRates.FetchRatesFromBackend | custom-product-builder/includes/class-cpb-currency.php:315-353 | The method returns the accepted rates or false, and caches exactly the accepted rates under the plugin's transient. |
| ExchangeRates.FetchRatesFromFallbackApi | custom-product-builder/includes/class-cpb-currency.php:360-384 | The same for the fallback API. |
| ExchangeRates.FetchExchangeRatesFromApi | custom-product-builder/includes/class-cpb-currency.php:285-308 | The backend is tried first and the fallback API second. The method returns `ApiRates` and leaves the store as `MissCached` says. |
| ExchangeRates.GetExchangeRates | custom-product-builder/includes/class-cpb-currency.php:261-280 | A cached value other than false is returned and nothing is written. On a miss the result is `MissRates` and the store gains `MissCached`. The result is never false. |
| ExchangeRates.TableNeverCached | custom-product-builder/includes/class-cpb-currency.php:389-403 | When both APIs fail the table is returned and nothing is cached. |
| ExchangeRates.EmptyBackendRatesAreCached | custom-product-builder/includes/class-cpb-currency.php:343-350 | A backend success with an empty `rates` array caches that empty array, while the request itself falls back to the table. |
| ExchangeRates.FilteredRates | custom-product-builder/includes/class-cpb-currency.php:418-427 | The filtered keys are among {USD, current}. USD is present iff it is in all rates. The current currency is present iff it differs from USD and is in all rates. Values are copied unchanged. |
| ExchangeRates.FrontendData | cpb-custom-product-builder/includes/class-cpbwoo-currency.php:378-382 | The result holds the currency, the filtered rates and base currency 'USD', under each plugin's key names, and it has exactly those three entries. |
| ExchangeRates.CurrencyDataForFrontend | custom-product-builder/includes/class-cpb-currency.php:411-438 | Rates are looked up first, with the cache behaviour above, then the currency is detected. The result is the filtered data for the detected currency, or none when detection threw. |
| CartItems.FixedNames | custom-product-builder/includes/class-cpb-cart.php:343-353 | The five fixed field names are distinct and non-numeric. |
| CartItems.FixedValuesShape | custom-product-builder/includes/class-cpb-cart.php:343-353 | The product ID is an int >= 0 and the CPB ID a string. The quantity is an int >= 1, the price a float or 0, and the customisation data a string. |
| CartItems.SanitizeCartItemsArray | custom-product-builder/includes/class-cpb-cart.php:328-331 | Non-array input gives no items. |
| CartItems.SanitizeCartItems | custom-product-builder/includes/class-cpb-cart.php:328-366 | The nested loops compute `SanitizeCartItemsArray`. |
| CartItems.SanitizeOneItem | custom-product-builder/includes/class-cpb-cart.php:340-362 | One loop body: the fixed fields, then the extra-fields loop. |
| CartItems.ExtraFields | custom-product-builder/includes/class-cpb-cart.php:355-360 | The extra-fields loop computes `ExtrasUpTo` over the whole item. |
| CartItems.OnePerArrayElement | custom-product-builder/includes/class-cpb-cart.php:335-362 | There is exactly one sanitised item per array-valued element, in order; other elements are skipped. |
| CartItems.NoArrayElements | custom-product-builder/includes/class-cpb-cart.php:336-338 | Elements that are not arrays contribute nothing. |
| CartItems.ExtrasKeepFixed | custom-product-builder/includes/class-cpb-cart.php:355-360 | The extra-fields loop leaves every fixed field alone, provided no extra key sanitises onto a fixed name (`NoShadow`). |
| CartItems.FixedFieldsSurvive | custom-product-builder/includes/class-cpb-cart.php:343-360 | Under `NoShadow`, each fixed field of the result keeps the value computed from the raw item. |
| CartItems.SanitizedItemFields | custom-product-builder/includes/class-cpb-cart.php:343-353 | Under `NoShadow`, the result has quantity >= 1 and product ID >= 0. Missing fields default to 0, '', 1 and 0. The customisation data is kept if it was a string, else ''. |
| CartItems.ExtraKeyOverwrites | custom-product-builder/includes/class-cpb-cart.php:356-359 | A string field whose raw key is not among the names already set is written under its `sanitize_key` name, even when that name is already set. The `isset` test is on the raw key, the write on the sanitised one. |
| CartItems.QuantityShadowed | custom-product-builder/includes/class-cpb-cart.php:356-359 | A counterexample: a posted "Quantity": "0" overwrites the sanitised quantity with the string "0" once `sanitize_key` lower-cases it. |
| CartItems.CoreSanitizeKeyLowercases | custom-product-builder/includes/class-cpb-cart.php:358 | WordPress's own `sanitize_key` does turn "Quantity" into "quantity". |
| CartItems.ScalarMapSanitisesToNothing | cpb-custom-product-builder/includes/class-cpbwoo-cart.php:343-353 | An array of scalars sanitises to no item at all. |
| Cart.WcCart.Append | custom-product-builder/includes/class-cpb-cart.php:120-131 | A line that `add_to_cart` creates is appended at the end of the cart. |
| Cart.WcCart.SetPrice | custom-product-builder/includes/class-cpb-cart.php:168 | `set_price` changes the price of one line and nothing else. |
| Cart.Gate | custom-product-builder/includes/class-cpb-cart.php:62-77 | Passing the gate needs WooCommerce, a posted nonce that `wp_verify_nonce` accepts for the plugin's action, and a posted product ID. CPBWOO also needs a logged-in user to have the read capability. CPB without WooCommerce fails with "WooCommerce is not active", and CPBWOO without a nonce dies. Every other outcome is an error reply. |
| Cart.GateOrder | cpb-custom-product-builder/includes/class-cpbwoo-cart.php:64-95 | The checks come in each plugin's order, and the first one that fails gives its reply. CPB checks WooCommerce, then the nonce ("Security check failed"), then the product ID ("WooCommerce Product ID is missing"). CPBWOO checks the nonce (dies), then the read capability ("Security check failed: Insufficient permissions"), then WooCommerce, then the product ID. When all pass, the gate is passed. |
| Cart.ReadItem | custom-product-builder/includes/class-cpb-cart.php:94-98 | The value the loop reads re-floors the quantity to at least 1. The price is never null. |
| Cart.DataNames | custom-product-builder/includes/class-cpb-cart.php:125-130 | The four custom cart-item data names are distinct and non-numeric. |
| Cart.TryItem | custom-product-builder/includes/class-cpb-cart.php:93-137 | An item that throws nothing has added a line, and an added line has quantity >= 1. |
| Cart.TryRequest | custom-product-builder/includes/class-cpb-cart.php:100-135 | The four checks and the add. No exception implies a line, and the line carries the quantity that was read. |
| Cart.TryRequestOrder | custom-product-builder/includes/class-cpb-cart.php:100-135 | The per-item checks come in source order, each failing with its own message and no line: empty ID, product not found, not purchasable, no cart, then add_to_cart returning false. When add_to_cart returns a key, the line holds it and the product's price, and the attempt fails exactly when the key is empty. A line is added only for a non-empty ID whose product exists and is purchasable, with a cart. |
| Cart.AddToCart | custom-product-builder/includes/class-cpb-cart.php:56-154 | The reply is the one `Handle` defines. The cart gains exactly `Handle`'s lines, appended in order. |
| Cart.ReadRequestItems | custom-product-builder/includes/class-cpb-cart.php:79-88 | The `items` array when one was posted, else the single-item wrapper. |
| Cart.RunItems | custom-product-builder/includes/class-cpb-cart.php:92-139 | The loop computes `RunUpTo` over all attempts and appends the run's lines to the cart. |
| Cart.RunWithoutCart | custom-product-builder/includes/class-cpb-cart.php:116-118 | The loop when `WC()->cart` is unavailable. |
| Cart.RunWithCart | custom-product-builder/includes/class-cpb-cart.php:93-139 | The loop with a cart: the run state and the cart contents at every step. |
| Cart.AddItem | custom-product-builder/includes/class-cpb-cart.php:94-137 | One turn equals `TryItem`, and the cart grows by the attempt's line. |
| Cart.AddRequest | custom-product-builder/includes/class-cpb-cart.php:100-135 | One turn's checks equal `TryRequest`. |
| Cart.RunSticky | custom-product-builder/includes/class-cpb-cart.php:92-153 | Once an item has thrown, no later item changes the run. |
| Cart.CleanRun | custom-product-builder/includes/class-cpb-cart.php:137 | A run without an exception has exactly one line and one key per item, in order. |
| Cart.StoppedRun | custom-product-builder/includes/class-cpb-cart.php:150-153 | A failed run stopped at some item k. All earlier items were added and k's exception is reported. Nothing was rolled back. |
| Cart.RunLinesFromAttempts | custom-product-builder/includes/class-cpb-cart.php:120-137 | Every added line comes from some item's attempt. |
| Cart.SuccessReply | custom-product-builder/includes/class-cpb-cart.php:144-148 | On success, `added_keys` has one key per item in item order, and the message is "n item(s) added to cart" with n the item count. |
| Cart.FailureKeepsEarlierLines | custom-product-builder/includes/class-cpb-cart.php:150-153 | A failure after the gates reports the first thrown exception, and the cart keeps the lines added before it. |
| Cart.LinesHaveQuantity | custom-product-builder/includes/class-cpb-cart.php:96 | Every line a request adds has quantity >= 1. |
| Cart.ListItemFails | custom-product-builder/includes/class-cpb-cart.php:100-102 | An integer-keyed list as item fails with "Missing WooCommerce product ID in item #0". |
| Cart.SingleItemModeFails | custom-product-builder/includes/class-cpb-cart.php:84-101 | Without an `items` array, both plugins fail at item #0 and add nothing. |
| Cart.SingleItemModeSeesEmptyItem | cpb-custom-product-builder/includes/class-cpbwoo-cart.php:104-114 | In CPBWOO's single-item mode the one item looped over is the empty array. |
| Cart.RepricedLines | custom-product-builder/includes/class-cpb-cart.php:166-170 | Each line is repriced on its own; the length is kept. |
| Cart.UpdateCartItemPrice | custom-product-builder/includes/class-cpb-cart.php:160-171 | The loop sets the cart to `RepricedLines` of the old lines. A `null` cart is left alone. |
| Cart.RepriceOnlyPrices | custom-product-builder/includes/class-cpb-cart.php:166-170 | Only prices change, and only on lines with both the price and the item-key field. Repricing twice equals repricing once. |
| Cart.AddedLineData | custom-product-builder/includes/class-cpb-cart.php:120-131 | An added line carries the uniqid key, CPB ID, price and customisation data read from its item. |
| Cart.DataLineIsRepriced | custom-product-builder/includes/class-cpb-cart.php:167-168 | A line with that data qualifies for the override and gets exactly the posted price. |
| Cart.AddedLineIsRepriced | custom-product-builder/includes/class-cpb-cart.php:166-169 | Every line the handler adds is repriced to the price posted with its item. |
| CartDisplay.Properties | custom-product-builder/includes/class-cpb-cart.php:184-192 | Non-empty properties mean the data decoded to an array whose `properties` is that array. Conversely, when the data decodes to an array whose `properties` is an array, the properties are exactly its entries. |
| CartDisplay.RowNames | cpb-custom-product-builder/includes/class-cpbwoo-cart.php:234-238 | A row has three distinct field names: key/value/display, or the cpbwoo_ ones. |
| CartDisplay.Rows | custom-product-builder/includes/class-cpb-cart.php:194-213 | One row per property, in order. |
| CartDisplay.AddCustomizationDataToCartItem | custom-product-builder/includes/class-cpb-cart.php:177-216 | The filter's early returns and loop compute `CartItemRows`. |
| CartDisplay.AppendRows | custom-product-builder/includes/class-cpb-cart.php:194-213 | The loop appends `Rows` after the existing rows. |
| CartDisplay.RowsAppended | custom-product-builder/includes/class-cpb-cart.php:194-215 | The existing rows are kept, followed by exactly one row per property. Each row holds the escaped name and the display value twice. |
| CartDisplay.RowsUnchanged | custom-product-builder/includes/class-cpb-cart.php:180-192 | The rows are unchanged iff customization_data is missing or yields no properties. |
| CartDisplay.ImageUrlIgnoresCase | custom-product-builder/includes/class-cpb-cart.php:198 | The image test is case-insensitive. |
| CartDisplay.ImageUrlTrailingNewline | custom-product-builder/includes/class-cpb-cart.php:198 | `$` admits exactly one trailing newline after the extension, never two. |
| CartDisplay.FirstNonNull | custom-product-builder/includes/class-cpb-cart.php:233 | The result is null iff every candidate is null. |
| CartDisplay.FirstNonNullIsFirst | custom-product-builder/includes/class-cpb-cart.php:233 | A non-null result is the value at the first non-null position. |
| CartDisplay.PreviewUrlIsFirstNonNull | custom-product-builder/includes/class-cpb-cart.php:271-275 | The preview URL is the first non-null of `_img`, `img`, `_image`, `image`. |
| CartDisplay.CartImages | custom-product-builder/includes/class-cpb-cart.php:254-292 | Any change to the images is the single override built from a truthy preview URL of data that decodes to an array. |
| CartDisplay.CartImagesCases | custom-product-builder/includes/class-cpb-cart.php:254-292 | For data that decodes to an array, the result is the single override when the preview URL is truthy and the given images otherwise. Missing or non-array data leaves the images alone. |
| CartDisplay.MiniCartImage | custom-product-builder/includes/class-cpb-cart.php:222-245 | The thumbnail changes exactly to the `<img>` tag of the preview URL, and it does so whenever the data is present and the URL is truthy and valid. |
| CartDisplay.MiniCartPluginsAgree | cpb-custom-product-builder/includes/class-cpbwoo-cart.php:250-265 | CPBWOO's extra `is_array`/`isset` test changes no mini-cart result. |
| CartDisplay.MiniCartPreviewImpliesOverride | custom-product-builder/includes/class-cpb-cart.php:233-243 | A mini-cart preview implies a valid URL, and then the cart image is the single override with that URL. |
| CartDisplay.WithoutKeeps | custom-product-builder/includes/class-cpb-cart.php:318 | Exactly the meta entries under other keys are kept. |
| CartDisplay.OrderItem.AddMetaData | custom-product-builder/includes/class-cpb-cart.php:318 | `add_meta_data(..., true)` replaces earlier entries under the key by the new one at the end. |
| CartDisplay.AddCustomizationDataToOrderItem | custom-product-builder/includes/class-cpb-cart.php:298-320 | The filter leaves the meta as `MetaUpTo` over the stored properties. An `empty` customization_data stores nothing. |
| CartDisplay.StoreProperties | custom-product-builder/includes/class-cpb-cart.php:314-319 | The loop's meta at every step. |
| CartDisplay.AddUniqueCount | custom-product-builder/includes/class-cpb-cart.php:318 | After `add_meta_data` the key has exactly one entry; other keys' counts are unchanged. |
| CartDisplay.OrderMetaUnique | custom-product-builder/includes/class-cpb-cart.php:314-319 | Every property label ends with exactly one meta entry; every other key keeps its count. |
| CartDisplay.OrderMetaLastWins | custom-product-builder/includes/class-cpb-cart.php:314-319 | When no later property carries the label of property j, property j's entry is in the meta and is the only entry under that label. |
| CartDisplay.CpbwooLinesAreNotDecorated | cpb-custom-product-builder/includes/class-cpbwoo-cart.php:145-156 | Lines added by CPBWOO store `cpbwoo_customization_data`. The filters read `customization_data`, so for those lines every filter returns its input and no meta is added. |
| CartDisplay.CpbLinesCarryCustomization | custom-product-builder/includes/class-cpb-cart.php:125-130 | CPB lines carry the posted data under the key the filters read. |
| MainPlugin.IsCpbProduct | custom-product-builder/custom-product-builder.php:373-385 | True iff the product (the argument, else the global post) has a non-empty external ID or `_cpb_enabled` exactly 'yes'. False without a product. |
| MainPlugin.IsCpbProductEdgeCases | custom-product-builder/custom-product-builder.php:382-384 | An external ID "0" counts as empty, and 'Yes' does not enable a product. |
| MainPlugin.EmptyString | custom-product-builder/custom-product-builder.php:385 | PHP's `empty()` holds for a string exactly when it is "" or "0". |
| MainPlugin.EmptyExternalIdDefers | custom-product-builder/custom-product-builder.php:373-385 | For the product checked, an external ID of null, false, 0, 0.0, "", "0" or an empty array makes the result true exactly when `_cpb_enabled` is the string 'yes'. |
| MainPlugin.NonEmptyExternalIdMarks | custom-product-builder/custom-product-builder.php:373-385 | For the product checked, any other external ID makes the result true. |
| MainPlugin.StripWww | custom-product-builder/custom-product-builder.php:603 | At most one leading "www." is removed and the rest is kept. |
| MainPlugin.ShopNameFromOrigin | custom-product-builder/custom-product-builder.php:595-607 | The parsed host (or "") is an optional leading "www." followed by the shop name. |
| MainPlugin.UnparsableSiteUrl | custom-product-builder/custom-product-builder.php:598-603 | A site URL that `parse_url` rejects gives the empty name. |
| MainPlugin.AddParam | custom-product-builder/custom-product-builder.php:585-587 | Appending a parameter extends the URL, ends with the parameter and leaves a '?' in it. |
| MainPlugin.AfterParamAmpersand | custom-product-builder/custom-product-builder.php:579-586 | After one parameter every later separator is '&'. |
| MainPlugin.ExternalIdExtends | custom-product-builder/custom-product-builder.php:566-576 | The external-ID step only appends. |
| MainPlugin.RawScriptUrl | custom-product-builder/custom-product-builder.php:553-588 | The URL before escaping extends the base, contains '?' and ends with "v=1.1.0". |
| MainPlugin.GetScriptUrl | custom-product-builder/custom-product-builder.php:553-589 | The URL is esc_url of a string that extends the base, contains '?' and ends with "v=1.1.0". |
| MainPlugin.ScriptUrlHasQuestionMark | custom-product-builder/custom-product-builder.php:57 | The default initializer URL has a query. |
| MainPlugin.ScriptUrlHasNoExternalId | custom-product-builder/custom-product-builder.php:57 | The default initializer URL has no "external_id=". |
| MainPlugin.DefaultScriptUrlLayout | custom-product-builder/custom-product-builder.php:559-587 | With the default base, the three parameters follow with '&' separators. |
| MainPlugin.PlainBaseLayout | custom-product-builder/custom-product-builder.php:573-587 | A base without '?' gets '?' before its first parameter and '&' before the rest. |
| MainPlugin.ExistingExternalIdParam | custom-product-builder/custom-product-builder.php:569-570 | A base containing "external_id=" gets the bare ID appended, with no separator. |
| MainPlugin.EmptyExternalId | custom-product-builder/custom-product-builder.php:566-567 | An empty external ID adds nothing to the URL. |
| MainPlugin.LifecycleNotificationUrl | custom-product-builder/custom-product-builder.php:996-1002 | The URL is the base followed by "/cpb/platforms/woocommerce/plugin/activate" for 'activate', and by ".../plugin/deactivate" for any other action. |
| MainPlugin.OtherActionsDeactivate | custom-product-builder/custom-product-builder.php:999-1001 | Every action other than 'activate' goes to ".../deactivate". |
| MainPlugin.SendLifecycleNotification | custom-product-builder/custom-product-builder.php:839-861 | It throws "Invalid action: " + action iff the action is not activate or deactivate. A post goes to the action's endpoint, and only if that URL is valid. For a valid action, a valid URL is posted to and an invalid one throws "Invalid notification URL: " + url. |
| MainPlugin.SubscriptionStatus | custom-product-builder/custom-product-builder.php:1044-1065 | The status is 'active' or 'inactive'. It is 'active' iff the product entry is truthy, `expires` is set and greater than now, and `active` is truthy. |
| MainPlugin.SubscriptionUnderIntegerKey | custom-product-builder/custom-product-builder.php:1047-1053 | The entry stored under the integer key 12345 is found by the lookup with '12345'. |
| MainPlugin.ProductIdIsIntegerKey | custom-product-builder/custom-product-builder.php:1047 | PHP stores the key '12345' as the integer 12345. |
| MainPlugin.EmptySubscriptionsInactive | custom-product-builder/custom-product-builder.php:1049-1051 | Empty subscriptions give 'inactive'. |
| MainPlugin.Transition | custom-product-builder/custom-product-builder.php:1024-1035 | At most one notification is sent, and only activate or deactivate. |
| MainPlugin.NoChangeNoNotice | custom-product-builder/custom-product-builder.php:1024-1035 | An unchanged status sends nothing. |
| MainPlugin.NoticeMeansChange | custom-product-builder/custom-product-builder.php:1024-1035 | A notification implies a change of status. From 'unknown', one is sent iff the status is inactive. |
| MainPlugin.SubscriptionMonitor.WeeklySubscriptionCheck | custom-product-builder/custom-product-builder.php:1007-1039 | Without manage_options, or with the transient set, nothing changes. Otherwise the transient is set to now, the notification `Transition` picks is sent, and the stored status becomes the current one, which is never 'unknown'. |
| MainPlugin.XorFallback | custom-product-builder/custom-product-builder.php:966-971 | The output has the input's length, and byte i is json[i] XOR key[i mod 19]. |
| MainPlugin.XorTwiceRestores | custom-product-builder/custom-product-builder.php:967-971 | Applying the XOR twice restores the input. |

## Left out

- Outbound HTTP (`wp_remote_get`, `wp_remote_post`) is not modelled. Each fetch is an input `HttpResponse` whose body is given already decoded. The backend URL (`get_cpb_currency_api_url`) is not modelled.
- `convert_price` and all rate and price arithmetic are floating point, so they are left out. Rates and prices are opaque values.
- `time()` is the parameter `now`, `uniqid()` is the input `Shop.uniqid`, and `get_cpb_base_url` is the parameter `baseUrl`; none of them is computed.
- The WooCommerce cart's own behaviour is left out. This includes merging an added product into an existing line, `calculate_totals` on a real cart, fragments and the cart hash. `add_to_cart` is the input `Shop.addKey`, and a successful reply carries only the message and keys.
- The expiry of transients (one week, one hour) belongs to WordPress and is not modelled. The weekly check sees only whether the transient is set.
- `send_payment_notification` and the rest of `send_lifecycle_notification` are left out: the site token, nonce, HMAC signature and the post itself. A payment notification is recorded as `Notice(action, reason)`.
- The AES-256-GCM path of `encrypt_store_data` and the final `base64_encode` are not modelled; only the XOR fallback loop is.
- Settings page, plugin-list links, icons, enqueued scripts and styles, body classes, price hiding and the "Customize" button filter are left out as rendering and hook registration. So is `uninstall.php` and the admin JavaScript.
- `error_log` calls are omitted.
- `get_shop_name_from_origin_static` is identical to `get_shop_name_from_origin`, and `MainPlugin.ShopNameFromOrigin` stands for both.
- MainPlugin.ExpiresAfter: comparing a string `expires` with the time (PHP 8's numeric-string rules) is the parameter `strAfter`, not modelled.
- Currency.SanitizeCurrencyCode: measures the cleaned text in characters, where PHP's `substr` and `strlen` measure UTF-8 bytes. The two differ only on non-ASCII text. Currency.SanitizeCurrencyBytes models the byte reading, and Currency.ByteReadingAgrees proves that validation and the accepted code are the same under both, so detection is unaffected. Currency.EuroSignDiffers shows a non-valid result on which they differ.
- Currency.DetectCurrency: only the two filter hooks may throw. A throw from the WOOCS global, the session or `get_woocommerce_currency` is not modelled, nor is CPB's outer catch-all, which would return 'USD'.
- Cart.Gate: CPBWOO's `check_ajax_referer` reads the nonce from `$_REQUEST`; the model reads it from the posted form.
- CartItems.SanitizedItemFields: the quantity floor and defaults are proved only under `NoShadow`. The code does not guarantee them: see `CartItems.QuantityShadowed`. `add_to_cart` re-floors the quantity, so cart lines still have quantity >= 1 (`Cart.LinesHaveQuantity`).
- `json_decode` of a non-string, `is_object` on a cart other than null, and PHP string offsets on non-arrays are covered by the opaque helper functions, not modelled in detail.
