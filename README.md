# Kitsu cloud kitchen: shopping cart and admin guard, modelled in Dafny

This project models the client-side logic of a small restaurant ordering
site. There are two parts.

- **The shopping cart** (`scripts.js`, module `ShopCart` in `cart.dfy`).
  The menu catalog is held in memory. It is empty until its fetch completes.
  The cart lives in browser storage under the key `kitsuCart`.
  *Add to cart* looks the product id up in the catalog. When the id is
  unknown it logs an error and changes nothing. Otherwise it loads the stored cart (a missing entry is
  the empty cart). It then either raises the quantity of the line for that id
  by one, or appends a new line with quantity 1. A new line copies the
  catalog entry's name and price. Finally it stores the cart and renders it.
  The renderer lists the lines, shows the empty-cart message when there are
  none, and shows the total Σ price × quantity.
- **The admin dashboard** (`dashboard.js`, module `AdminDashboard` in
  `dashboard.dfy`). On every page load a guard runs. It sends a signed-in
  admin from the login page to `dashboard.html`. It sends a visitor without
  a token from any other page to `login.html`. It then starts the login or
  the dashboard initialiser, chosen by the page alone. The bearer token is
  stored under `kitsuAdminToken`: login stores it, while logout and a 401
  reply to the orders request remove it. Each order row gets a status
  drop-down over five fixed statuses, with the order's own status selected.

Prices are integers in satang, so no floating point is involved. Browser
storage is a map from key to an already-decoded value. Network replies are
parameters: a login reply, an orders reply, and a catalog list.

`wrappers.dfy` holds the `Option` type.

The guard's token test follows JavaScript truthiness: an empty-string token
counts as no token. The redirect does not stop the initialiser from running,
because the source does not return after assigning the location.

Three facts about the code shape the model:

- Stored cart text that is not valid JSON makes `JSON.parse` throw
  (scripts.js:98, 118). Storage holds decoded carts, so this is not modelled.
- The orders request clears the token only on status 401 (dashboard.js:79).
  A 403 reply shows the error row.
- scripts.js has no decrease, remove, clear or checkout operation.

## Model

| member | source | states |
|---|---|---|
| `ShopCart.FindItem` | scripts.js:92 | the catalog lookup finds nothing iff no catalog item has the id; otherwise it returns the first item with that id |
| `ShopCart.FindLine` | scripts.js:99 | the cart lookup reports no line iff no line has the id; otherwise it gives the position of the first line with that id |
| `ShopCart.AddLineSpec` | scripts.js:99-110 | if a line with the id exists, only that line changes: its quantity grows by exactly 1, and the line count and order stay the same; otherwise the old lines are kept and one line is appended at the end with the catalog id, name and price and quantity 1 |
| `ShopCart.AddLinePreservesWellFormed` | scripts.js:99-110 | adding keeps "at most one line per id" and "every quantity at least 1", and brings in no id except the added one |
| `ShopCart.AddTimesExisting` | scripts.js:99-102 | n adds of an id already in the cart raise that one line's quantity by n and change nothing else |
| `ShopCart.AddTimesAbsent` | scripts.js:99-110 | n ≥ 1 adds of an id the cart lacks keep the old lines and append one line with the catalog snapshot and quantity n |
| `ShopCart.AddTimesFromEmpty` | scripts.js:99-110 | n ≥ 1 adds of one item to the empty cart give exactly one line, with the catalog snapshot and quantity n |
| `ShopCart.AddTimesShift` | scripts.js:99-110 | one add followed by n more adds equals n + 1 adds |
| `ShopCart.TotalAppend` | scripts.js:130-139 | appending a line raises the total by that line's price × quantity |
| `ShopCart.TotalUpdate` | scripts.js:130-139 | replacing one line changes the total by the new line's subtotal minus the old one's |
| `ShopCart.TotalAfterAdd` | scripts.js:99-110 | a successful add raises the total by one unit price: the existing line's snapshot price, or the catalog price for a new line |
| `ShopCart.TotalNonNegative` | scripts.js:125-141 | with no negative price or quantity, the total is never negative |
| `ShopCart.LoadAfterSave` | scripts.js:112-118 | storing a cart and reading it back gives the same lines, and no other storage key changes |
| `ShopCart.SavedAdd` | scripts.js:98-112 | after an add is stored, the stored cart is the added cart and is never empty; with no cart stored before, it is the single fresh line; a well-formed stored cart stays well formed |
| `ShopCart.Shop.constructor` | scripts.js:75 | the catalog starts empty; the storage is whatever the browser holds |
| `ShopCart.Shop.ReceiveCatalog` | scripts.js:81 | a completed catalog fetch replaces the catalog and leaves the storage alone |
| `ShopCart.Shop.AddToCart` | scripts.js:91-114 | an unknown id (including any id while the catalog is empty) leaves the storage unchanged and renders nothing; a known id stores the result of adding the catalog entry to the loaded cart (a missing cart reads as empty, so the stored cart is then the one fresh line); the rendered view has no empty-cart message, one row per stored line with name, quantity and subtotal, and the new total; the catalog never changes, and a well-formed stored cart stays well formed |
| `ShopCart.Shop.RenderCart` | scripts.js:117-142 | the empty-cart message shows iff the stored cart has no lines; there is one row per line, in order, with name, quantity and price × quantity; the total is Σ price × quantity; a missing stored cart renders as the empty cart with total 0 |
| `AdminDashboard.Guard` | dashboard.js:8-24 | token and login page: redirect to dashboard.html; no token and another page: redirect to login.html; no redirect in the two other cases; the login initialiser runs iff the path ends with login.html |
| `AdminDashboard.LoginPathIsLoginPage` | dashboard.js:9 | every path ending in login.html counts as the login page |
| `AdminDashboard.DashboardPathIsNotLoginPage` | dashboard.js:9 | no path ending in dashboard.html counts as the login page |
| `AdminDashboard.RedirectSettles` | dashboard.js:11-17 | loading the page the guard redirects to (in the same directory) redirects no further and runs that page's initialiser |
| `AdminDashboard.StatusesDistinct` | dashboard.js:94 | the five statuses are pairwise different |
| `AdminDashboard.OptionsSelectAtMostOne` | dashboard.js:94-97 | at most one option is selected; one is selected iff the order's status is among the five |
| `AdminDashboard.StatusOptions` | dashboard.js:93-97 | the options are exactly PENDING, PREPARING, DELIVERING, COMPLETED, CANCELLED in that order; an option is selected iff it equals the order's status; at most one is selected, and none when the status is not listed |
| `AdminDashboard.BuildRows` | dashboard.js:88-112 | one row per order, in order, carrying the order id and the status drop-down for that order's status |
| `AdminDashboard.AdminSession.constructor` | dashboard.js:8 | the session starts with the stored token and no pending navigation |
| `AdminDashboard.AdminSession.Load` | dashboard.js:7-25 | the token is untouched; the navigation target and initialiser are those the guard decides, and the location stays as it was when there is no redirect |
| `AdminDashboard.AdminSession.ReceiveLogin` | dashboard.js:37-50 | a successful login stores the returned token and goes to dashboard.html; a failed one changes nothing and shows the error |
| `AdminDashboard.AdminSession.Logout` | dashboard.js:58-61 | logout removes the token and goes to login.html |
| `AdminDashboard.AdminSession.ReceiveOrders` | dashboard.js:75-116 | a 401 reply removes the token, goes to login.html and renders nothing; a network failure, another non-2xx status or an unreadable body shows the error row and keeps the token; a readable list becomes one row per order |

## Left out

- Every `fetch` and its asynchronous timing: the catalog fetch, the menu display, the login request, and the orders list and status update requests. Their outcomes are parameters (`ReceiveCatalog`, `ReceiveLogin`, `ReceiveOrders`), because they are network I/O.
- `Shop.ReceiveCatalog`: takes a list of catalog items. The source stores whatever body the catalog endpoint returns, even on an HTTP error status, and does not check that it is a list. Parse failures, which keep the old catalog, are modelled only as not calling it.
- The DOM: menu cards, cart item elements, table rows, the slide-menu toggles, the missing-element early returns in `renderCart` and `displayMenuItems`, and all HTML text. These are UI. The cart view and the order table are modelled as rows of data.
- The button feedback text and its one-second reset after an add. This is UI timing.
- Floating-point parsing and formatting of prices (`parseFloat`, `parseInt`, `toFixed`) and date formatting. Prices are integer satang instead.
- Console logging (`console.error` at scripts.js:34, 64, 83, 94 and dashboard.js:115, 142; `console.log` at dashboard.js:139) is not modelled. It changes no state the model tracks.
- The JSON text encoding of stored values. Storage holds decoded carts. Malformed stored text, which makes `JSON.parse` throw in the source, is not modelled.
- JavaScript's loose `==` between the string id of the add button and the numeric catalog id. One integer id type is used.
- `handleStatusChange`: sending the new status with a PATCH request, the success log, the alert on failure, and the refetch after a failure. These are I/O and UI only.
- Event dispatch (the document-wide click listener and the `DOMContentLoaded` hooks) is not modelled. Each handler is a method called directly.
- `AdminSession.ReceiveLogin`: a success reply whose body lacks a token stores the text "undefined" in the source. The model's success reply always carries a token string.
