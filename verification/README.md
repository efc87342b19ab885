# central-de-pedidos — a verified model of its core

central-de-pedidos is a multi-company order and quote desk: users pick an
active company, browse its clients, products, orders and quotes, edit orders
and quotes in forms, and save them through server actions that compute totals
and write header and item rows. A small proxy route fetches a third-party page
and rewrites it so that it can be shown inside an iframe.

This project models, in Dafny, the parts of that system that carry logic:

- **Embedding proxy** (`Proxy`). Covers:
  - URL validation;
  - the header copy loop over a `Headers` map, which strips four headers (the two anti-framing ones, the content-type sniffing guard and the content encoding) and forces two permissive ones;
  - the `<base href>` computed from origin and directory;
  - the splice of the injection into the HTML;
  - the HTML or pass-through branch;
  - `POST` answering as `GET`.
- **Order and quote actions** (`OrderActions`, `QuoteActions`). Covers:
  - the imperative totals loops;
  - the header rows with their defaults;
  - the item-row maps;
  - the early-error conditions.

  Each database call is a reply passed in. Each action returns its result together with the ordered list of writes it issued.
- **Order and quote forms** (`OrderFormComponent`, `QuoteFormComponent`). Each form is a class whose fields are the form state. It covers:
  - adding, removing and changing items, with product auto-fill;
  - the live subtotal and total;
  - the initial state;
  - the submit handler's checks, payload and choice of action.

  Lemmas show that each form's total is the total its action stores.
- **The four list screens** (`ClientListComponent`, `OrderListComponent`, `ProductListComponent`, `QuoteListComponent`). Covers:
  - the company-scoped, order-preserving search filters;
  - the status-colour tables;
  - the delete label;
  - the PDF file name.
- **Active-company selection** (`AppProviderComponent`): a provider class over a `localStorage` class. It restores the stored company or falls back to the first. Selecting stores the id; clearing removes it. Selecting and then remounting brings the same company back.

Support modules: `Wrappers` (an `Option`), `Strings` (ASCII lower-casing, `includes`/`indexOf`/`lastIndexOf`/`endsWith`, literal first-occurrence replace, decimal rendering with its round trip) and `Seqs` (filter, first match, subsequence).

Modelling conventions:
- Money and quantities are integers (cents).
- `x || 0` and `parseFloat(x || '0')` on an optional amount become `Option.GetOr(0)`.
- `s || 'fallback'` on a string becomes `Strings.OrDefault`. It treats the empty string like null, as JavaScript does.
- `crypto.randomUUID()` is a parameter: `freshId`, or `freshId: nat -> string` for the initial quote items.
- The URL parser, the upstream fetch and the message of the `Response` constructor's error are function parameters of the proxy (`parse`, `fetch`, `refusal`).

The quote form sends its notes under `notes_internal` and `notes_external`. The quote actions read `notes_commercial` and `notes_fiscal`. So the model's payload carries no notes (`None`), and the notes values drop out of the request body. The insert sends an array of rows, and for such a bulk insert the Supabase client lists every key of the row, including the ones whose value is `undefined`, as a column, and a listed column missing from the body is written as null. So a created quote stores null notes. The update sends a single object without those keys, so the stored notes stay as they were. In a `QuoteRow`, `None` for the notes means null on insert and "not written" on update; `None` for `created_by` (update only) means "not written". This is modelled as written, because the code does not show which column names are meant.

## Model

| member | source | states |
|---|---|---|
| Proxy.Lookup | src/app/api/proxy/route.ts:49 | `headers.get(name)`: None iff no upstream entry has that lower-cased name, else the value of the last such entry |
| Proxy.Filtered | src/app/api/proxy/route.ts:31-43 | no stripped name (x-frame-options, content-security-policy, x-content-type-options, content-encoding) is ever a key of the copied headers |
| Proxy.FilteredAgreesWithLookup | src/app/api/proxy/route.ts:39-43 | for every name not stripped, the copy holds it iff upstream has it, with the value a lookup returns |
| Proxy.ResponseHeaders | src/app/api/proxy/route.ts:31-47 | X-Frame-Options is ALLOWALL and Access-Control-Allow-Origin is `*` whatever upstream sent; the other three stripped names are absent; every other key is exactly the copied one |
| Proxy.OtherHeadersCopied | src/app/api/proxy/route.ts:39-47 | every upstream header other than the stripped and forced ones reaches the reply unchanged, and no other does |
| Proxy.FrameOptionsLowered | src/app/api/proxy/route.ts:46 | `set('X-Frame-Options')` lands on the lower-case key `x-frame-options` |
| Proxy.AllowOriginLowered | src/app/api/proxy/route.ts:47 | `set('Access-Control-Allow-Origin')` lands on `access-control-allow-origin` |
| Proxy.ContentTypeLowered | src/app/api/proxy/route.ts:86 | `set('Content-Type')` lands on `content-type` |
| Proxy.HeaderMap.Set | src/app/api/proxy/route.ts:41 | `Headers.set` replaces the value under the lower-cased name and nothing else |
| Proxy.CopyHeaders | src/app/api/proxy/route.ts:31-43 | the `forEach` loop builds a fresh map equal to the filtered copy of the upstream headers |
| Proxy.BasePath | src/app/api/proxy/route.ts:55-57 | a prefix of the pathname; the whole pathname when it ends in `/`; otherwise it ends in `/` when the path has one, with no `/` after it in the path; empty when the path has no `/` |
| Proxy.NavigationScript | src/app/api/proxy/route.ts:63-75 | the script text ends with `</script>` |
| Proxy.Injection | src/app/api/proxy/route.ts:61-75 | the trimmed injection starts with the `<base href="...">` tag for the base href and ends with `</script>` |
| Proxy.InsertionPoint | src/app/api/proxy/route.ts:78-84 | the index of the first `</head>`; else just after the first `<head>`; else 0 |
| Proxy.Inject | src/app/api/proxy/route.ts:78-84 | the result is `html[..i] + injection + html[i..]` for the insertion point `i`; its length is the sum of the two lengths; the injection sits at `i` |
| Proxy.InjectAsWritten | src/app/api/proxy/route.ts:78-84 | the splice through JavaScript's `replace`; equal to `Inject` whenever the injection has no `$` |
| Proxy.ExpandLiteralPrefix | src/app/api/proxy/route.ts:79 | text without `$` passes through `replace`'s pattern expansion unchanged |
| Proxy.ExpandAfterDollarAmpersand | src/app/api/proxy/route.ts:79 | a `$&` in the replacement is replaced by the matched `</head>` |
| Proxy.DollarAmpersandSplice | src/app/api/proxy/route.ts:78-79 | with `$&` in the injection and a `</head>` in the page, the written splice differs from the literal one |
| Proxy.DollarTag | src/app/api/proxy/route.ts:54-62 | for a directory named `$&`, the base tag holds `$&` right after the origin and its slash |
| Proxy.DollarPathInjection | src/app/api/proxy/route.ts:54-75 | the same holds for the whole injection, with no `$` before that pair |
| Proxy.DollarPathCorruptsBase | src/app/api/proxy/route.ts:54-84 | for a URL whose path is `/$&/`, a page with `</head>` is rewritten differently from the literal splice |
| Proxy.Handle | src/app/api/proxy/route.ts:3-108 | missing or empty url gives 400 "URL não fornecida"; unparsable gives 400 "URL inválida"; both are independent of fetch; a throw gives 502 with the message; a fetched status the `Response` constructor refuses with a body (outside 200–599, or 204, 205, 304) also ends in the catch, 502 with the constructor's message; otherwise the status mirrors upstream; the HTML branch is taken iff the content type contains `text/html`, with the forced Content-Type and the spliced document; otherwise the bytes pass through unchanged |
| Proxy.Get | src/app/api/proxy/route.ts:3-108 | the step-by-step handler, including the constructor's refusal after the splice, computes exactly `Handle` |
| Proxy.Post | src/app/api/proxy/route.ts:110-112 | `POST` answers exactly as `GET` |
| OrderActions.SubtotalAppend | src/app/app/orders/actions.ts:24-26 | the subtotal of a concatenation is the sum of the subtotals |
| OrderActions.ComputeTotals | src/app/app/orders/actions.ts:20-28 | the loop's subtotal is the sum of `qty*unit_price - (discount_value or 0)`; discount and shipping default to 0; total = subtotal - discount + shipping |
| OrderActions.HeaderRow | src/app/app/orders/actions.ts:31-48 | the given client id; name is null iff empty and otherwise the given name; an empty status is stored as "rascunho" and a non-empty one as given; the stored discount and shipping totals are the given ones with `|| 0`; the stored subtotal and total follow the items; payment method and terms, both notes and the author are written as given |
| OrderActions.ItemRows | src/app/app/orders/actions.ts:59-67 | one row per item, same order, each the item's row |
| OrderActions.RowTotalsMatchSubtotal | src/app/app/orders/actions.ts:59-67 | the row totals add up to the stored subtotal |
| OrderActions.CreateOrderAction | src/app/app/orders/actions.ts:6-81 | no user: "Não autenticado." and no write; else the header insert first; insert failure stops with "Erro ao criar pedido."; otherwise the rows are inserted with product ids as given, and the result reflects the item insert |
| OrderActions.UpdateOrderAction | src/app/app/orders/actions.ts:108-191 | no user: "Não autenticado." and no write; update, delete and insert happen in that order, each failure stopping with its message; rows map an empty product id to null |
| QuoteActions.ComputeTotals | src/app/app/quotes/actions.ts:20-31 | subtotal = sum of `qty*unit_price - (discounts or 0)`; tax total = header tax (default 0) + item taxes; total = subtotal - discount + tax + shipping |
| QuoteActions.HeaderRow | src/app/app/quotes/actions.ts:37-54 | the given client id; an empty status is stored as "draft" and a non-empty one as given; valid_until is null iff absent or empty and otherwise the given date; the stored discount and shipping totals are the given ones with `|| 0`; subtotal, tax total and total follow the items; payment terms, delivery time, freight type, carrier, both notes and created_by are written as given |
| QuoteActions.ItemRows | src/app/app/quotes/actions.ts:65-77 | one row per item, same order; empty product id stored as null |
| QuoteActions.RowTotalsMatch | src/app/app/quotes/actions.ts:65-77 | the row totals add up to subtotal plus item taxes |
| QuoteActions.CreateQuoteAction | src/app/app/quotes/actions.ts:7-90 | no user: "Não autenticado." and no write; header insert, then items; each failure with its message |
| QuoteActions.UpdateQuoteAction | src/app/app/quotes/actions.ts:150-227 | no auth check; header update failure stops with "Erro ao atualizar orçamento."; otherwise delete (reply ignored) then insert, and the result reflects only the insert |
| ProductListComponent.FindProduct | src/app/app/orders/components/OrderForm.tsx:71 | the first product with that id (the same lookup as src/app/app/quotes/components/QuoteForm.tsx:89); None iff no product has it |
| OrderFormComponent.ApplyChange | src/app/app/orders/components/OrderForm.tsx:64-82 | only the named field changes; a non-empty product id found in the list also fills name and `preco_base or 0`; otherwise only the id changes |
| OrderFormComponent.ChangedItems | src/app/app/orders/components/OrderForm.tsx:64-82 | same length and ids; items with the id changed, all others untouched |
| OrderFormComponent.WithoutItem | src/app/app/orders/components/OrderForm.tsx:60-62 | exactly the items with another id, each as many times as in the input, as an ordered subsequence |
| OrderFormComponent.FormSubtotalAgrees | src/app/app/orders/components/OrderForm.tsx:85-86 | the form's subtotal equals the action's subtotal over the submitted items |
| OrderFormComponent.BlankItemAddsNothing | src/app/app/orders/components/OrderForm.tsx:46-58 | a new blank item leaves the subtotal unchanged |
| OrderFormComponent.OrderForm.constructor | src/app/app/orders/components/OrderForm.tsx:35-44 | the initial state takes the order's values, with '' / 'rascunho' / 0 / [] defaults; a new order starts with every field at its default (name, client, payment method and terms, both notes '', status 'rascunho', totals 0, no items) |
| OrderFormComponent.OrderForm.AddItem | src/app/app/orders/components/OrderForm.tsx:46-58 | appends exactly one blank item; the total is unchanged |
| OrderFormComponent.OrderForm.RemoveItem | src/app/app/orders/components/OrderForm.tsx:60-62 | items become the filtered list |
| OrderFormComponent.OrderForm.ChangeItem | src/app/app/orders/components/OrderForm.tsx:64-82 | items become the changed list |
| OrderFormComponent.OrderForm.Submit | src/app/app/orders/components/OrderForm.tsx:91-123 | checks company, then client, then items, with the first failure's message; rejected iff one fails; update iff an order id is present; the action's total equals the form's total |
| QuoteFormComponent.ApplyChange | src/app/app/quotes/components/QuoteForm.tsx:82-102 | only the named field changes; a found product also fills name, `descricao_curta or ''`, `preco_base or 0`, `ncm or ''` |
| QuoteFormComponent.ChangedItems | src/app/app/quotes/components/QuoteForm.tsx:82-102 | same length and ids; only items with the id change |
| QuoteFormComponent.WithoutItem | src/app/app/quotes/components/QuoteForm.tsx:78-80 | exactly the items with another id, each as many times as in the input, in order |
| QuoteFormComponent.InitialItems | src/app/app/quotes/components/QuoteForm.tsx:41-46 | items keep a non-empty id, else get a fresh one; nothing else changes |
| QuoteFormComponent.ValidUntilText | src/app/app/quotes/components/QuoteForm.tsx:56-58 | "" when absent; otherwise a prefix of the stored date of length 10, or the whole date when shorter |
| QuoteFormComponent.FormSubtotalSplits | src/app/app/quotes/components/QuoteForm.tsx:105-106 | the form's subtotal (taxes folded in) equals the action's subtotal plus its item taxes |
| QuoteFormComponent.BlankItemAddsNothing | src/app/app/quotes/components/QuoteForm.tsx:60-76 | a new blank item leaves the subtotal unchanged |
| QuoteFormComponent.QuoteForm.constructor | src/app/app/quotes/components/QuoteForm.tsx:40-58 | the initial state from the quote, with '' / 'CIF' / 0 defaults; a new quote starts with every field at its default (client, payment terms, delivery time, carrier, both notes and validity '', freight 'CIF', totals 0, no items) |
| QuoteFormComponent.QuoteForm.AddItem | src/app/app/quotes/components/QuoteForm.tsx:60-76 | appends one blank item (unit "UN", qty 1); the total is unchanged |
| QuoteFormComponent.QuoteForm.RemoveItem | src/app/app/quotes/components/QuoteForm.tsx:78-80 | items become the filtered list |
| QuoteFormComponent.QuoteForm.ChangeItem | src/app/app/quotes/components/QuoteForm.tsx:82-102 | items become the changed list |
| QuoteFormComponent.QuoteForm.Submit | src/app/app/quotes/components/QuoteForm.tsx:111-154 | validation order and messages; update iff editing, keeping the quote's status, else create as "draft"; the payload carries the form's discount, tax and shipping totals, payment terms, delivery time, freight type and carrier, valid_until as the form's date or null iff empty, and no notes under the keys the action reads; the action's total equals the form's total |
| ClientListComponent.FilteredClients | src/app/app/clients/components/ClientList.tsx:24-36 | empty without an active company; only that company's clients; a client is kept iff it is the company's and (empty term, or lower-cased name contains the lower-cased term, or cpf_cnpj contains it); each kept client appears as many times as in the input; an ordered subsequence |
| ClientListComponent.EmptyTermListsCompany | src/app/app/clients/components/ClientList.tsx:28-35 | with an empty term, exactly the company's clients in order |
| OrderListComponent.FilteredOrders | src/app/app/orders/components/OrderList.tsx:26-38 | as above, matching on client name or order name |
| OrderListComponent.EmptyTermListsCompany | src/app/app/orders/components/OrderList.tsx:30-37 | with an empty term, exactly the company's orders in order |
| OrderListComponent.StatusColor | src/app/app/orders/components/OrderList.tsx:41-49 | each known status iff its colour; gray iff unknown |
| OrderListComponent.DeleteLabel | src/app/app/orders/components/OrderList.tsx:120 | `#` followed by digits that parse back to the number when it is set and non-zero; else the name, else "Desconhecido"; never empty |
| ProductListComponent.FilteredProducts | src/app/app/products/components/ProductList.tsx:25-37 | as above, matching on lower-cased name or sku |
| ProductListComponent.EmptyTermListsCompany | src/app/app/products/components/ProductList.tsx:29-36 | with an empty term, exactly the company's products in order |
| QuoteListComponent.FilteredQuotes | src/app/app/quotes/components/QuoteList.tsx:28-39 | as above, matching on client name only |
| QuoteListComponent.EmptyTermListsCompany | src/app/app/quotes/components/QuoteList.tsx:32-38 | with an empty term, exactly the company's quotes in order |
| QuoteListComponent.NumberNotSearched | src/app/app/quotes/components/QuoteList.tsx:32-35 | a quote with no client name is hidden by every non-empty search, even one that spells its number |
| QuoteListComponent.StatusColor | src/app/app/quotes/components/QuoteList.tsx:41-50 | each status iff its colour; gray iff draft or unknown |
| QuoteListComponent.PdfFileName | src/app/app/quotes/components/QuoteList.tsx:73 | `orcamento-` + digits that parse back to the number + `.pdf` |
| QuoteListComponent.PdfFileNamesDistinct | src/app/app/quotes/components/QuoteList.tsx:73 | distinct numbers give distinct file names |
| AppProviderComponent.FindById | src/components/providers/AppProvider.tsx:40 | the first company with the id, or None iff none has it |
| AppProviderComponent.RestoreChoice | src/components/providers/AppProvider.tsx:38-46 | always a member; the first company with a stored non-empty matching id, else the first company |
| AppProviderComponent.RestoreAfterStore | src/components/providers/AppProvider.tsx:38-53 | with unique, non-empty ids, restoring after storing `c`'s id gives `c` |
| AppProviderComponent.EmptyIdNotRestored | src/components/providers/AppProvider.tsx:39 | an empty stored id is ignored: the first company is chosen |
| AppProviderComponent.LocalStorage.GetItem | src/components/providers/AppProvider.tsx:38 | the stored value or None |
| AppProviderComponent.LocalStorage.SetItem | src/components/providers/AppProvider.tsx:53 | stores the value under the key, nothing else changes |
| AppProviderComponent.LocalStorage.RemoveItem | src/components/providers/AppProvider.tsx:58 | removes the key, nothing else changes |
| AppProviderComponent.AppProvider.constructor | src/components/providers/AppProvider.tsx:33 | no company is active at mount |
| AppProviderComponent.AppProvider.RestoreActiveCompany | src/components/providers/AppProvider.tsx:35-48 | no change with no companies; otherwise the restore choice, always a member |
| AppProviderComponent.AppProvider.SetActiveCompany | src/components/providers/AppProvider.tsx:50-60 | the active company is set; its id stored under `central-de-pedidos-company`, or the key removed for null |
| AppProviderComponent.SelectThenRemount | src/components/providers/AppProvider.tsx:35-60 | selecting `c` and remounting over the same store brings `c` back |

## Findings

| source | as written | input that shows it | evidently intended | confidence | as-written member | corrected member |
|---|---|---|---|---|---|---|
| src/app/api/proxy/route.ts:78-81 | the injection is spliced with `String.prototype.replace`, whose replacement string expands `$&`, `` $` ``, `$'` and `$$`; the injection carries the page's directory path, which the URL parser leaves with `$` and `&` intact | the query `url=http%3A%2F%2Fx.test%2F%24%26%2F` (so `url` is `http://x.test/$&/`) with a page containing `</head>`: the base href becomes `http://x.test/</head>/` | the injection inserted literally, as `Inject` does | not executed | Proxy.InjectAsWritten, Proxy.DollarPathCorruptsBase | Proxy.Inject |

`Proxy.Get` and `Proxy.Handle` use the literal splice. The two agree whenever the injection has no `$` (`Proxy.InjectAsWritten`).

## Left out

- The upstream fetch and its request headers, redirects, decompression and body reading: network I/O, taken as the `fetch` parameter. A failure while reading the body is not separated from a failing fetch.
- URL parsing (WHATWG URL Standard): taken as the `parse` parameter, which yields protocol, host and pathname or fails.
- The text of the error the `Response` constructor throws for a refused status is the runtime's own: taken as the `refusal` parameter of `Proxy.Handle`.
- The injected script's behaviour in the browser: the script is a fixed text built from the base origin.
- Proxy.Lookup: upstream `Headers` combines repeated names into one value; the model takes the headers as `forEach` yields them and lets the last entry win.
- Proxy.HeaderMap.Set: the name and value validation and whitespace trimming of `Headers.set` are not modelled.
- Strings.Lower: ASCII letters only; Unicode case mapping is not modelled.
- Floating-point arithmetic, `parseFloat` of strings and `toLocaleString` currency formatting: amounts are integer cents.
- Supabase calls, `revalidatePath`, cookies, the router and toasts: each call is a success or error reply passed in.
- The `updated_at` timestamp written by `updateOrderAction`: a clock reading.
- `deleteOrderAction`, `updateOrderStatusAction`, `deleteQuoteAction`, `updateQuoteStatusAction` and `generateQuotePdfAction` (src/app/app/orders/actions.ts:83-106, src/app/app/quotes/actions.ts:92-148): single database or PDF calls without logic of their own.
- The PDF request and blob download in `handleGeneratePdf`; only the file name is modelled.
- The `activeClients`/`activeProducts` option lists in the forms and the loading flags: rendering only.
- Dialogs, delete buttons, status selects, the dashboard, the server pages, the layout, `Sidebar`, `Topbar`, `ProfileForm`, the login, company, client and product actions, and `create-user.mjs` are not part of this model. They are UI or single database calls.
- QuoteFormComponent.QuoteForm.Submit: an edited quote with no status sends an empty status, standing for `undefined`. The action turns either into "draft".
- The `id` field through `handleItemChange` is not a modelled change: the forms never change an item's id.
