# Deus-Ecommerce in Dafny

Deus-Ecommerce is a prototype site builder for small online shops. A client
picks a subscription plan, creates a website from a template through a
two-step wizard, and manages it: products (add, edit, delete, search),
orders (filter, sort, counters) and settings (banners, publishing, name and
domain). A storefront preview lets a visitor browse by category and fill a
cart. All state lives in memory inside the user-interface components; every
operation is a small, sequential list or record update.

This project models that logic:

| module | file | what it holds |
|---|---|---|
| `Seqs` | `seqs.dfy` | `filter`, `find` and `reduce` on lists, with the facts the components rely on |
| `Text` | `text.dfy` | ASCII `toLowerCase`, `includes`, the `\s` whitespace class, the slug rule, decimal rendering of integers |
| `Domain` | `domain.dfy` | the records: website, category, product, customer, order, order line, plan |
| `Storefront` | `storefront.dfy` | the preview cart (class `Cart`) and the category tab |
| `ProductCatalog` | `productcatalog.dfy` | the product dialog (class `ProductEditor`), upsert, delete, search, category names |
| `Orders` | `orders.dfy` | the order list: filters, newest-first sort, counters, revenue, lookups, badges |
| `CreateWebsite` | `createwebsite.dfy` | the wizard (class `Wizard`) and the domain derivation |
| `Settings` | `settings.dfy` | the settings screen (class `SettingsScreen`), publishing, saving the general tab |
| `AppShell` | `appshell.dfy` | the app state (class `App`), screen rendering, per-website views, the product hand-off |

Each component whose handlers update its own state is a class. Its fields
are that state, and each handler is a method whose contract states the new
state. Each pure expression (filters, reductions, lookups, derived values)
is a function. The lemmas next to it state what the expression promises.
Money amounts and timestamps are integers.

A cart line keeps the product record stored when the product was first
added (`StorefrontPreview.tsx:42-48`); later adds only bump the quantity, so
the total uses the stored record's price (`Storefront.AddCountAndTotal`,
`StoredPrice`).

Two behaviours of the code are reproduced as written, each stated by a lemma:

- **Product hand-off.** The management screen gives the product catalogue
  only the managed website's products. The catalogue hands its result
  straight to the app's global product list. So after any product edit,
  add or delete, the global list holds that website's products only
  (`AppShell.SubmitKeepsOnlyManagedWebsite`,
  `AppShell.DeleteKeepsOnlyManagedWebsite`).
- **Detail total.** The order detail view shows the stored order total,
  not the sum over the order's lines. On the fixtures these differ
  (`Orders.DetailTotalIsStored`).

## Model

| member | source | states |
|---|---|---|
| Storefront.AddNewAppends | src/app/components/StorefrontPreview.tsx:48 | adding a product with no line appends exactly `{product, 1}` after the unchanged old lines |
| Storefront.AddExistingBumps | src/app/components/StorefrontPreview.tsx:40-46 | adding a product that has a line at `k` keeps the length, raises line `k` by one keeping its stored record, and leaves every other line as it was |
| Storefront.AddKeepsWellFormed | src/app/components/StorefrontPreview.tsx:38-50 | adding keeps ids unique and every quantity at least 1 |
| Storefront.AddCountAndTotal | src/app/components/StorefrontPreview.tsx:38-50 | adding raises the item count by 1 and the total by the price of the stored record (or of the new product) |
| Storefront.StoredPriceAt | src/app/components/StorefrontPreview.tsx:40 | on unique ids, `find` returns the line at `k`, the only line with the id, so the stored price is line `k`'s |
| Storefront.UpdatedAllPositive | src/app/components/StorefrontPreview.tsx:55-60 | after a quantity change every surviving line has quantity at least 1, and the survivors keep their relative order |
| Storefront.UpdateAbsentUnchanged | src/app/components/StorefrontPreview.tsx:55-60 | changing the quantity of an absent id leaves a cart of positive lines unchanged |
| Storefront.UpdatePresent | src/app/components/StorefrontPreview.tsx:52-62 | on a well-formed cart, line `k` takes `q + delta` in place when positive and is removed otherwise; other lines keep their places |
| Storefront.UpdateKeepsWellFormed | src/app/components/StorefrontPreview.tsx:52-62 | a quantity change keeps ids unique and quantities positive |
| Storefront.UpdateCount | src/app/components/StorefrontPreview.tsx:55-60 | the item count moves from `q` to `max(0, q + delta)` for the changed line |
| Storefront.UpdateTotal | src/app/components/StorefrontPreview.tsx:52-69 | the total moves by the stored price times `max(0, q + delta) - q` for the changed line |
| Storefront.RemoveDropsExactly | src/app/components/StorefrontPreview.tsx:65 | removing leaves no line with the id, keeps every other line as often as it occurred, and is a subsequence of the cart |
| Storefront.RemoveAbsentUnchanged | src/app/components/StorefrontPreview.tsx:65 | removing an absent id changes nothing |
| Storefront.RemovePresent | src/app/components/StorefrontPreview.tsx:64-66 | on unique ids, removing the product at `k` splices out that line, lowers the count by its quantity and the total by its stored price times its quantity |
| Storefront.RemoveKeepsWellFormed | src/app/components/StorefrontPreview.tsx:65 | removing keeps ids unique and quantities positive |
| Storefront.EmptyTotals | src/app/components/StorefrontPreview.tsx:68-69 | count and total of the empty cart are 0 |
| Storefront.ItemCountAtLeastLines | src/app/components/StorefrontPreview.tsx:69 | with positive quantities the count is at least the number of lines |
| Storefront.ReplayWellFormed | src/app/components/StorefrontPreview.tsx:35-66 | every cart reached from the empty cart by adds, quantity changes and removes has unique ids and positive quantities |
| Storefront.ShownProductsSpec | src/app/components/StorefrontPreview.tsx:79-81 | `all` shows the list unchanged; a category shows exactly its products, each as often as in the input, in order |
| Storefront.Cart.constructor | src/app/components/StorefrontPreview.tsx:35 | a preview starts with an empty cart |
| Storefront.Cart.AddToCart | src/app/components/StorefrontPreview.tsx:38-50 | the cart becomes `Added(old cart, product)`, stays well formed, count +1 |
| Storefront.Cart.UpdateQuantity | src/app/components/StorefrontPreview.tsx:52-62 | the cart becomes `Updated(...)`: unchanged for an absent id, else the line changed in place or removed |
| Storefront.Cart.RemoveFromCart | src/app/components/StorefrontPreview.tsx:64-66 | the cart becomes `Removed(...)`: unchanged for an absent id, else the line spliced out |
| ProductCatalog.NewProductFormComplete | src/app/components/ProductManagement.tsx:58-81 | a new-product form with name, price and stock typed and the preset category passes the required-field check exactly when there is a first category with a non-empty id; with no categories it never passes |
| ProductCatalog.EditFormComplete | src/app/components/ProductManagement.tsx:42-50 | the form of an edited product passes the required-field check exactly when it has a name and a category; a non-negative price and stock read back to the numbers |
| ProductCatalog.BuildRecordSpec | src/app/components/ProductManagement.tsx:86-95 | the record carries every form field (description and image as given, even when empty) and the current website; an edit keeps the product id; a new product, or an edited one with an empty id, gets exactly `prod-<now>`, whose digits read back to `now` |
| ProductCatalog.ReplaceByIdSpec | src/app/components/ProductManagement.tsx:99-101 | an edit keeps the length, replaces the products with the id and leaves the others in place |
| ProductCatalog.ReplaceByIdKeepsIds | src/app/components/ProductManagement.tsx:99-101 | an edit that keeps the id leaves every id of the list unchanged |
| ProductCatalog.SubmittedSpec | src/app/components/ProductManagement.tsx:78-111 | an incomplete form hands on nothing; an edit replaces in place; an add appends the record after the unchanged list |
| ProductCatalog.SubmitEditKeepsIds | src/app/components/ProductManagement.tsx:86-101 | a complete edit of a product with an id hands on a list with the same ids |
| ProductCatalog.DeletedSpec | src/app/components/ProductManagement.tsx:113-119 | a confirmed delete drops exactly the id and keeps every other product as often as it occurred, in order, and repeating it changes nothing; a declined one hands on nothing |
| ProductCatalog.SearchSpec | src/app/components/ProductManagement.tsx:134-139 | the table shows exactly the matching products, each as often as in the input, as a subsequence; with a category selected all have it |
| ProductCatalog.SearchEverything | src/app/components/ProductManagement.tsx:134-139 | an empty query with `all` shows the whole list |
| ProductCatalog.SearchIgnoresCase | src/app/components/ProductManagement.tsx:135-136 | the search result does not depend on the case of the query |
| ProductCatalog.CategoryNameSpec | src/app/components/ProductManagement.tsx:129-131 | the name of the first category with the id (`Unknown` if that name is empty); `Unknown` when no category has it |
| ProductCatalog.ProductEditor.constructor | src/app/components/ProductManagement.tsx:27-38 | the screen opens with the dialog closed and an empty form |
| ProductCatalog.ProductEditor.OpenDialog | src/app/components/ProductManagement.tsx:40-63 | the dialog opens on the product's fields, or on an empty form preset to the first category |
| ProductCatalog.ProductEditor.CloseDialog | src/app/components/ProductManagement.tsx:65-76 | the dialog closes and forgets product and form |
| ProductCatalog.ProductEditor.SetForm | src/app/components/ProductManagement.tsx:291 | typing replaces the form only |
| ProductCatalog.ProductEditor.Submit | src/app/components/ProductManagement.tsx:78-111 | hands on `Submitted(...)`; an incomplete form leaves the dialog as it is, otherwise the dialog closes |
| Orders.LookupSpec | src/app/components/OrderManagement.tsx:96-106 | a customer or product lookup finds the first record with the id, and finds nothing exactly when none has it |
| Orders.FixtureCustomersFound | src/app/components/OrderManagement.tsx:96-98 | every fixture order finds its own customer record, so the fixture search always reaches a name and e-mail |
| Orders.OrderItemsSpec | src/app/components/OrderManagement.tsx:100-102 | the lines of an order are exactly those with its id, each as often as in the input, in order |
| Orders.DetailTotalIsStored | src/app/components/OrderManagement.tsx:390 | the detail total is the stored amount: 1100000 for `order-1`, whose lines come to 1280000 |
| Orders.NoCustomerSearch | src/app/components/OrderManagement.tsx:114-118 | an order without a customer record matches the search through its id only |
| Orders.InsertKeepsNewestFirst | src/app/components/OrderManagement.tsx:122 | inserting into a newest-first list keeps it newest first |
| Orders.SortSpec | src/app/components/OrderManagement.tsx:122 | the sort yields a newest-first permutation of its input |
| Orders.SumOfSort | src/app/components/OrderManagement.tsx:137 | sorting does not change a sum |
| Orders.MockOrdersNewestFirst | src/app/components/OrderManagement.tsx:122 | the fixture orders list as order-3, order-2, order-1 |
| Orders.FilteredOrdersSpec | src/app/components/OrderManagement.tsx:109-122 | the listed orders are the matching ones, each as often as in the input, newest first; a given website and a selected status hold for all |
| Orders.FilteredEverything | src/app/components/OrderManagement.tsx:109-122 | with no website, all statuses and no query, every order is listed |
| Orders.CountsAddUp | src/app/components/OrderManagement.tsx:130-136 | the five status counts add up to the length |
| Orders.StatsSpec | src/app/components/OrderManagement.tsx:129-138 | total is the number of matching orders, the five counts add up to it, revenue is the sum of stored amounts of the matching orders |
| Orders.StatsOfOneStatus | src/app/components/OrderManagement.tsx:130-136 | with one status selected, every listed order counts under it |
| Orders.BadgeVariantSpec | src/app/components/OrderManagement.tsx:68-77 | `pending` gets `secondary`; `processing`, `shipped` and `delivered` get `default`; `cancelled` gets `destructive`; any other name gets `outline` |
| Text.IncludesIff | src/app/components/ProductManagement.tsx:135 | `includes` holds exactly when the query occurs at some offset |
| Text.SlugHasNoSpace | src/app/components/CreateWebsiteFlow.tsx:32 | the slug contains no whitespace |
| Text.SlugKeepsLetters | src/app/components/CreateWebsiteFlow.tsx:32 | the non-whitespace characters of the name appear in the slug, lower-cased and in order |
| Text.NatToStringRoundTrip | src/app/components/ProductManagement.tsx:45-46 | a number's decimal rendering reads back to the number |
| CreateWebsite.DerivedDomainSpec | src/app/components/CreateWebsiteFlow.tsx:32 | a typed domain is stored verbatim; otherwise the slug (no whitespace, letters kept) plus `.mystore.id` |
| CreateWebsite.SlugJoinsWords | src/app/components/CreateWebsiteFlow.tsx:32 | a whitespace run of any length between two words becomes one dash |
| CreateWebsite.SlugKeepsPadding | src/app/components/CreateWebsiteFlow.tsx:32 | leading and trailing whitespace runs are not trimmed: each becomes a dash |
| CreateWebsite.PreviewVersusStored | src/app/components/CreateWebsiteFlow.tsx:145-151 | the preview line matches the stored domain for a named site without a typed domain, and adds a suffix the stored typed domain lacks |
| CreateWebsite.Wizard.constructor | src/app/components/CreateWebsiteFlow.tsx:17-20 | the wizard starts on the template step with nothing chosen |
| CreateWebsite.Wizard.SelectTemplate | src/app/components/CreateWebsiteFlow.tsx:22-25 | picking records the template and moves to the details step |
| CreateWebsite.Wizard.BackToTemplates | src/app/components/CreateWebsiteFlow.tsx:157 | both back actions return to the template step keeping template, name and domain |
| CreateWebsite.Wizard.SetSiteName | src/app/components/CreateWebsiteFlow.tsx:125 | typing changes the name only |
| CreateWebsite.Wizard.SetDomain | src/app/components/CreateWebsiteFlow.tsx:140 | typing changes the domain only |
| CreateWebsite.Wizard.Create | src/app/components/CreateWebsiteFlow.tsx:27-37 | with a name typed, a draft website of `client-1` on the selected template, with the derived domain and no publication time |
| Settings.BannersAddedSpec | src/app/components/WebsiteSettings.tsx:107-116 | a non-empty answer is appended after the unchanged banners; an empty or cancelled one changes nothing |
| Settings.ExceptIndexSpec | src/app/components/WebsiteSettings.tsx:118-124 | removing an index inside the list splices out that banner; outside it changes nothing |
| Settings.ExceptIndexLength | src/app/components/WebsiteSettings.tsx:121 | removing shortens the list by one exactly when the index is inside it |
| Settings.PublishOutcomeSpec | src/app/components/WebsiteSettings.tsx:126-142 | a non-published website is published with a new time; a confirmed unpublish keeps the old time; a declined one hands on nothing; no other field changes |
| Settings.SavedGeneralSpec | src/app/components/WebsiteSettings.tsx:77-89 | saving writes name, domain and status, and keeps id, client, template and publication time |
| Settings.SaveAfterPublishReverts | src/app/components/WebsiteSettings.tsx:71-89 | publishing a draft and then saving the general tab hands on a draft with a publication time |
| Settings.SavedGeneralKeepingStatusSpec | src/app/components/WebsiteSettings.tsx:80-85 | a save that leaves the status alone keeps status and publication time, so a published site stays published |
| Settings.SettingsScreen.constructor | src/app/components/WebsiteSettings.tsx:49-75 | the screen opens with the three default banners, `hello@<domain>` and the website's general fields |
| Settings.SettingsScreen.AddBanner | src/app/components/WebsiteSettings.tsx:107-116 | banners become `BannersAdded(...)`; a non-empty answer ends the list |
| Settings.SettingsScreen.RemoveBanner | src/app/components/WebsiteSettings.tsx:118-124 | banners become `ExceptIndex(...)`: spliced inside the range, unchanged outside |
| Settings.SettingsScreen.SetSiteName | src/app/components/WebsiteSettings.tsx:198 | typing changes the general name only |
| Settings.SettingsScreen.SetDomain | src/app/components/WebsiteSettings.tsx:208 | typing changes the general domain only |
| Settings.SettingsScreen.SaveGeneral | src/app/components/WebsiteSettings.tsx:77-89 | hands on the website with the tab's name, domain and status |
| AppShell.OfferedPlans | src/app/App.tsx:39-54 | exactly `plan-1` to `plan-4` are offered |
| AppShell.ScopingSpec | src/app/components/WebsiteManagement.tsx:42-43 | the products and orders of a website are exactly its records, each as often as in the input, in order |
| AppShell.ReplaceWebsiteSpec | src/app/App.tsx:185-189 | an update keeps the length, replaces the website with the id, leaves the others, and is idempotent |
| AppShell.RenderSpec | src/app/App.tsx:158-192 | preview and management show "not found" exactly when no website has the id; the preview gets only that website's products and categories |
| AppShell.SubmitKeepsOnlyManagedWebsite | src/app/components/WebsiteManagement.tsx:92-97 | a submit from the management screen hands on only the managed website's products, so other websites' products leave the global list |
| AppShell.DeleteKeepsOnlyManagedWebsite | src/app/components/WebsiteManagement.tsx:92-97 | the same for a confirmed delete |
| AppShell.App.constructor | src/app/App.tsx:30-33 | the app starts on the landing page, signed out |
| AppShell.App.GetStarted | src/app/App.tsx:35-37 | opens the pricing screen, nothing else changes |
| AppShell.App.BackToLanding | src/app/App.tsx:91 | returns to the landing page, nothing else changes |
| AppShell.App.SelectPlan | src/app/App.tsx:39-54 | an offered plan signs in and opens the dashboard; an unknown id changes nothing |
| AppShell.App.CreateWebsite | src/app/App.tsx:56-58 | opens the wizard |
| AppShell.App.WebsiteCreated | src/app/App.tsx:60-66 | the new website ends the list, which grows by one, and the dashboard opens |
| AppShell.App.ViewWebsite | src/app/App.tsx:68-70 | opens the preview of the given id |
| AppShell.App.ManageWebsite | src/app/App.tsx:72-74 | opens the management screen of the given id |
| AppShell.App.BackToDashboard | src/app/App.tsx:76-78 | returns to the dashboard |
| AppShell.App.Logout | src/app/App.tsx:115-118 | signs out and returns to the landing page |
| AppShell.App.WebsiteUpdate | src/app/App.tsx:185-189 | the websites become `ReplaceWebsite(...)`: same length, others unchanged |
| AppShell.App.ProductsChange | src/app/App.tsx:190 | the handed list becomes the global product list as it is |

## Findings

| source | as written | input that shows it | evidently intended | confidence | as-written member | corrected member |
|---|---|---|---|---|---|---|
| src/app/components/WebsiteSettings.tsx:71-89 | the general tab copies the status once, when the screen opens, and saving writes that copy back | a draft website: press publish, then save the general tab on the same screen; the saved website is a draft again, with a publication time set | saving the name and domain leaves the publication status to the publish button | medium; not executed | Settings.SaveAfterPublishReverts | Settings.SavedGeneralKeepingStatusSpec |

`Settings.SettingsScreen.SaveGeneral` keeps the behaviour as written. No
other part of the model uses the saved record, so the corrected save
`Settings.SavedGeneralKeepingStatus` stands alone with its lemma.

## Left out

- Formatting: currency and date formatting (`Intl.NumberFormat`, `toLocaleDateString`) are locale library calls. Amounts and timestamps are plain integers.
- Parsing: `parseFloat`/`parseInt` of the price and stock fields are floating-point string parsing. `ProductEditor.Submit` takes the parsed values as parameters.
- Order times: `created_at` is an ISO string that the sort parses with `new Date`. It is modelled as milliseconds since the epoch, so an unparsable date (NaN in the comparator) is not modelled.
- Fresh values: `Date.now()` and `new Date().toISOString()` become the parameters `now`. The answers to `confirm` and `prompt` become parameters `confirmed` and `answer`. Toasts are output only and are left out.
- Number rendering: `Text.IntToString` writes plain decimal digits; JavaScript's exponent notation for integers of magnitude 10^21 and above is not modelled.
- Case folding: `toLowerCase` is modelled on ASCII letters only. Unicode case folding is not modelled.
- Badge lookup: `getStatusBadgeVariant` indexes a plain object. Names inherited from the object prototype are not modelled; every name other than the five statuses gets `outline`.
- Timers: the 500 ms `setTimeout` before a save has no effect beyond applying the update later, so `SaveGeneral` applies it at once.
- Other tabs: the about, design and contact tabs of the settings screen only show toasts or edit local text, and they are not modelled beyond the default contact e-mail.
- Fixtures and views: the app's initial websites and products are constructor parameters. The order filter takes the customer list as a parameter; the list the view uses is the constant `Orders.MockCustomers`, and the order lines the detail view reads are the constant `Orders.MockOrderItems`. The dashboard, analytics, landing, pricing and template screens only display data.
- Orders.SortNewestFirst: the sort is defined to be stable, as JavaScript's sort is. The lemmas state that it is sorted and a permutation, but not its stability.
- Storefront.Cart: the category tab of the preview is the pure `ShownProducts`. The selected-category state that feeds it is not a field of the class.
