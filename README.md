# Handicraft storefront: a verified model

This project models the decision logic of two React storefronts for
handcrafted wooden goods.

- The shop app (`src/`) has:
  - a home page with a name search;
  - product tiles and product pages;
  - a checkout page and a checkout form (card, UPI or cash on delivery);
  - an older card-only payment form;
  - a login page with a letter CAPTCHA;
  - a password-reset page.
- The craft app (`tribal-craft/`) keeps users and products in memory. Its
  pages are:
  - registration and login;
  - the consultant's approval queue;
  - the artisan's own product list;
  - the add-product form;
  - a guarded route table.

## How the model is built

Each source file has its own module. The pure parts are datatypes and
functions: filters, look-ups, route decisions and text rules. Component
state that a handler updates step by step is a `class`:

- `Checkout` and `CardPaymentForm` for the two payment forms;
- `LoginForm`, `CraftLoginForm`, `RegisterForm` and `ForgotPasswordForm`;
- `ProductForm` for the add-product form;
- `AppStore` for the craft app's state.

Each handler is a method whose `ensures` gives the new state case by case.

A few conventions hold across the model:

- **Outside answers are inputs.** What the backend, Stripe, `fetch` and
  `axios` answer is an input datatype: `Environment`, `PostResponse` and
  `ConfirmResult`. The requests a form sends are logged in a `sent` field,
  so "no request is made" can be stated.
- **Timers.** A handler that defers work with `setTimeout` is split in
  two. `HandleSubmit` is the synchronous part and returns what the timer
  callback will use. `FinishLogin` or `FinishRegister` is the callback's
  body. `SubmitLogin` and `SubmitRegistration` join these with the store.
- **Navigation.** Redirects are recorded in `navigatedTo`, or appended to
  `scheduled` when they are delayed.
- **Random numbers** for the CAPTCHA are the `draws` parameter.
- **The clock** reading behind new product ids is the `now` parameter.
- **Strings** are sequences of characters.
  - `trim` removes the ECMAScript white-space set.
  - Case conversion covers ASCII letters only.
  - `substring` clamps and swaps its indices as JavaScript does.
- **Numbers.** Prices are exact reals.
  - `Math.round` rounds half up.
  - `toFixed(2)` is the numeral of the nearest hundredths.

### Where the code and its comments differ

The code is followed throughout.

- **UPI and COD fallback.** The comment on the fallback branch
  (src/pages/CheckoutForm.jsx:76) says it is the "simulation when backend
  missing". But a missing backend makes `fetch` reject, and in the code
  only a response that is not ok takes the fallback. A rejected
  `fetch` goes to the catch block and sets the error
  (`CheckoutForm.RejectedOrderIsNotSimulated`).
- **`registerUser`** answers `true` even for a taken username. So the
  registration page reports success and clears its form while the user
  list stays unchanged (`RegisterPage.SubmitRegistration`).
- **Stuck payment.** In the older payment form, a payment status other
  than "succeeded" leaves the form processing for good
  (`PaymentForm.StuckProcessing`).
- **Stale error.** An earlier error in the older payment form is never
  cleared (`PaymentForm.StaleErrorAfterSuccess`).

## Model

| member | source | states |
|---|---|---|
| Text.Trim | tribal-craft/src/components/AddProductForm.jsx:18-22 | `trim` returns an infix of the input with only white space around it; the result starts and ends with a non-space character; it is empty exactly when the input is blank |
| Text.Lower | src/pages/Homepage.jsx:12 | `toLowerCase` keeps the length, leaves no upper-case letter, keeps every character that is not a letter, and moves each upper-case letter to its lower case |
| Text.Upper | src/pages/CheckoutPage.jsx:24 | `toUpperCase` keeps the length, leaves no lower-case letter, keeps every character that is not a letter, and moves each lower-case letter to its upper case |
| Text.CaseFolding | src/pages/Homepage.jsx:12 | lower-casing after either conversion gives the lower-cased original, upper-casing likewise; both conversions are idempotent |
| Text.LastIndexOf | src/components/ProductCard.jsx:17 | `lastIndexOf(' ')` gives the last position holding the character, or -1 when none does |
| Text.Substring | src/components/ProductCard.jsx:16-17 | `substring` of in-range indices is the slice; a negative end takes the prefix up to the clamped start |
| Money.NatToString | tribal-craft/src/components/AddProductForm.jsx:39 | the numeral of the clock reading in a new product id is all digits, non-empty, with no leading zero |
| Money.NatToStringRoundTrip | tribal-craft/src/components/AddProductForm.jsx:39 | reading that numeral back gives the number again |
| Money.RoundHalfUp | src/pages/ProductDetail.jsx:36 | `Math.round` gives the integer within one half below and strictly less than one half above |
| Money.Hundredths | src/pages/CheckoutPage.jsx:24 | a count of hundredths is shown as whole digits, a point and two digits that read back to the count |
| Money.Fixed2 | src/components/ProductCard.jsx:51 | `toFixed(2)` shows the hundredths nearest to the magnitude, with a minus sign exactly for negative numbers |
| Money.PriceTextExact | src/pages/CheckoutPage.jsx:24 | for a non-negative whole amount in paise, the shown price is `amount div 100`, a point, then `amount mod 100` as two digits; a negative amount shows the same digits of its magnitude after a minus sign |
| Money.PaiseKeepShownPrice | src/pages/ProductDetail.jsx:36 | with exact prices, converting a non-negative price to the nearest paise and showing it in rupees gives the same text as `price.toFixed(2)` |
| Seqs.Filter | tribal-craft/src/DashBoards/ConsultantDashBoard.jsx:4 | `filter` keeps exactly the accepted elements, as a subsequence in input order; its result is empty exactly when nothing is accepted |
| Seqs.FilterCount | tribal-craft/src/DashBoards/ConsultantDashBoard.jsx:4 | `filter` keeps each accepted value exactly as many times as it occurs in the input, and no rejected value at all |
| Seqs.FilterTwice | src/pages/Homepage.jsx:8-13 | two chained `filter` calls equal one filter by both tests |
| Seqs.Find | tribal-craft/src/App.jsx:65 | `find` gives the first element that passes, and nothing exactly when no element passes |
| Catalog.ImageSrc | src/components/ProductCard.jsx:8-10 | an `http…` image is used as it is; any other non-empty image goes under `/images/`; a missing or empty image gives the placeholder |
| Catalog.PathName | src/components/ProductCard.jsx:23 | the router matches only the part of a URL before the first `?` or `#`: a prefix of the URL free of both marks, cut exactly at the first one |
| Catalog.ProductRouteId | tribal-craft/src/App.jsx:157 | the route `/product/:id` gives an id exactly when the URL's path part, with its trailing slashes dropped, is `/product/` in any letter case followed by one non-empty segment without a slash; that segment, in its own case, is the id |
| Catalog.ProductRouteIsLenient | tribal-craft/src/App.jsx:157 | `/PRODUCT/` + id + `/` still leads the router to the id, for any non-empty id of ASCII letters, digits, `-` and `_` |
| Catalog.ProductPathRoundTrip | src/components/ProductCard.jsx:23 | the router reads the id back from `/product/` + id, for any non-empty id of ASCII letters, digits, `-` and `_` |
| Catalog.ProductPathCut | src/components/ProductCard.jsx:23 | an id holding a `?` or `#` never comes back from its product link as itself |
| Catalog.RouteForRole | src/pages/LoginPage.jsx:54-66 | the login routes admin, artisan and consultant to their own pages (each if and only if) and everyone else to `/` |
| Store.Register | tribal-craft/src/App.jsx:108-112 | a taken username leaves the users unchanged; otherwise the user is appended; unique usernames stay unique; afterwards the username is taken |
| Store.FindLogin | tribal-craft/src/App.jsx:117-119 | the login lookup gives the first account whose username and password both match, and nothing exactly when none matches |
| Store.Approve | tribal-craft/src/App.jsx:133-136 | approving keeps the length and order; a product ends approved iff it was approved already or has the id; every other field is unchanged |
| Store.ApproveIdempotent | tribal-craft/src/App.jsx:133-136 | approving the same id twice equals approving it once |
| Store.ProtectedRoute | tribal-craft/src/App.jsx:81-85 | the guard renders its children iff a user is logged in and has the required role (or none is required); otherwise it redirects to `/login` with no user and to `/` with the wrong role |
| Store.RequiredRole | tribal-craft/src/App.jsx:161-195 | exactly the three dashboard paths demand a role, and each demands the role whose login lands on it |
| Store.LandingPageAdmits | tribal-craft/src/App.jsx:161-186 | the page a login routes a user to never bounces that user: its route guard admits them |
| Store.ProductDetailWrapper | tribal-craft/src/App.jsx:63-78 | the product route shows the first product with the route's id, and the not-found view iff no product has it |
| Store.AppStore.constructor | tribal-craft/src/App.jsx:25-60 | the app starts with the four seeded users, the three seeded approved products and nobody logged in |
| Store.AppStore.RegisterUser | tribal-craft/src/App.jsx:108-114 | the new user list is `Register` of the old one; usernames stay unique; the answer is always true |
| Store.AppStore.LoginUser | tribal-craft/src/App.jsx:116-125 | the answer is the first matching account; a match becomes the current user; otherwise the current user is unchanged; usernames stay unique |
| Store.AppStore.LogoutUser | tribal-craft/src/App.jsx:127-130 | after logout nobody is logged in; usernames stay unique |
| Store.AppStore.AddProduct | tribal-craft/src/App.jsx:132 | the product is appended; the earlier products are unchanged and keep their order; usernames stay unique |
| Store.AppStore.ApproveProduct | tribal-craft/src/App.jsx:133-136 | the new product list is `Approve` of the old one; usernames stay unique |
| Dashboards.Pending | tribal-craft/src/DashBoards/ConsultantDashBoard.jsx:4 | the pending list holds exactly the unapproved products, each as often as in the input, as a subsequence of the input |
| Dashboards.ConsultantDashboard | tribal-craft/src/DashBoards/ConsultantDashBoard.jsx:10-51 | the empty state shows iff every product is approved; otherwise one card per pending product |
| Dashboards.ApproveLeavesPending | tribal-craft/src/DashBoards/ConsultantDashBoard.jsx:36 | after approving an id, the pending list is the old one without the products with that id, in the same order |
| Dashboards.ApproveButtonRemovesCard | tribal-craft/src/DashBoards/ConsultantDashBoard.jsx:36 | pressing a card's Approve button removes that card from the pending list |
| Dashboards.OwnProducts | tribal-craft/src/DashBoards/ArtisanDashBoard.jsx:6 | the artisan sees exactly the products whose artisan is the logged-in username, each as often as in the input, in input order; nothing when nobody is logged in |
| Dashboards.StatusLabel | tribal-craft/src/DashBoards/ArtisanDashBoard.jsx:42-44 | the label is "✅ Approved" iff the product is approved, and "🕒 Pending Approval" iff it is not |
| Dashboards.ArtisanDashboard | tribal-craft/src/DashBoards/ArtisanDashBoard.jsx:21-58 | the empty state shows iff the artisan has no products; otherwise one card per own product |
| Homepages.Approved | tribal-craft/src/pages/Homepage.jsx:5 | exactly the approved products, each as often as in the input, as a subsequence of the input |
| Homepages.SearchResults | src/pages/Homepage.jsx:8-13 | exactly the approved products whose lower-cased name contains the lower-cased term, each as often as in the input; empty iff none matches |
| Homepages.SearchIsOneFilter | src/pages/Homepage.jsx:8-13 | the search results are one filter by both tests, so they keep the input order |
| Homepages.SearchIgnoresCase | src/pages/Homepage.jsx:11-13 | upper-casing a product's name or the term never changes whether it matches, and the results for a term equal those for its upper- or lower-cased form |
| Homepages.EmptySearchShowsApproved | src/pages/Homepage.jsx:5-13 | with an empty search box every approved product is shown |
| Homepages.ShopHomepage | src/pages/Homepage.jsx:35-56 | the empty state shows iff no approved product matches the search; otherwise the grid shows the search results |
| Homepages.CraftHomepage | tribal-craft/src/pages/Homepage.jsx:4-38 | a missing list counts as empty; the empty state shows iff no product is approved; otherwise the grid shows the approved products |
| ProductCard.Truncate | src/components/ProductCard.jsx:13-18 | a missing or empty text gives the notice; a short text is unchanged; a longer one becomes its prefix up to the last space within the limit, plus "...", at most limit + 2 long, or just "..." when there is no space |
| ProductCard.ProductTile | src/components/ProductCard.jsx:4-54 | a tile shows the image by the image rule, the description cut at 70, and the price to two places (nothing when absent); the card and its button lead to the same product page, which the router maps back to the product's id when the id is made of ASCII letters, digits, `-` and `_` |
| ProductDetail.BuyAmount | src/pages/ProductDetail.jsx:30-36 | the buy amount is the nearest whole number of paise to the price, a half rounded up; a price that is not a number gives 0 |
| ProductDetail.BuyNow | src/pages/ProductDetail.jsx:33-46 | buying navigates to `/checkout` with the amount in paise, "inr", and the product's id and name |
| ProductDetail.DisplayPrice | src/pages/ProductDetail.jsx:48-49 | a number price is shown to two places; anything else shows a dash |
| ProductDetail.ProductDetailPage | src/pages/ProductDetail.jsx:8-107 | the not-found view shows iff there is no product; otherwise the image and price follow their rules; only a customer gets the buy button, disabled iff the price is not a number and wired to `BuyNow` |
| ProductDetail.BuyNowReachesCheckout | src/pages/ProductDetail.jsx:38-45 | the checkout page receives exactly the converted amount, "inr", the product's name, and its id unless the id is empty |
| ProductDetail.CheckoutShowsShownPrice | src/pages/ProductDetail.jsx:36-49 | with exact prices, for a non-negative price, the checkout heading shows the same price text the product page showed |
| CraftProductDetail.CraftProductDetailPage | tribal-craft/src/pages/ProductDetail.jsx:8-66 | the not-found view shows iff there is no product; the image follows the image rule; the price is shown to two places; the purchase button exists iff the user is a customer |
| CraftProductDetail.ProductRoute | tribal-craft/src/App.jsx:63-78 | the route shows the wrapper's not-found view iff no product has the id; otherwise it shows the product page, never its own not-found view |
| ShopProductDetailWrapper.ShopDetailWrapper | src/pages/ProductDetailWrapper.jsx:5-23 | the not-found view shows iff no product has the route's id; otherwise an empty container |
| CheckoutPage.CheckoutPageProps | src/pages/CheckoutPage.jsx:12-33 | a number amount passes through and anything else becomes 1999; an absent or empty currency becomes "inr"; the product id is absent iff it is missing or empty; the product name defaults to "" |
| CheckoutPage.Heading | src/pages/CheckoutPage.jsx:24 | for a non-negative amount the heading is "Paying" with the amount in rupees to two places, the currency upper-cased, and the product name or "Order" |
| CheckoutForm.Describe | src/pages/CheckoutForm.jsx:96 | the stored error is the thrown value's message, or its string form when the message is empty |
| CheckoutForm.IntentFailure | src/pages/CheckoutForm.jsx:55-58 | a failed intent request reports the response body, or the status text when the body cannot be read, or the fallback when that is empty; the message is never empty |
| CheckoutForm.Checkout.constructor | src/pages/CheckoutForm.jsx:5-13 | a new form has card selected, is not loading, has no status, error or UPI id, and has sent nothing |
| CheckoutForm.Checkout.SelectMethod | src/pages/CheckoutForm.jsx:106-123 | choosing a method changes only the method; a typed UPI id stays |
| CheckoutForm.Checkout.TypeUpiId | src/pages/CheckoutForm.jsx:144 | typing changes only the UPI id |
| CheckoutForm.Checkout.HandleCardPayment | src/pages/CheckoutForm.jsx:25-38 | with no card element it throws and sends nothing; otherwise it asks the gateway once, rethrows a gateway error, and succeeds iff the status is "succeeded" |
| CheckoutForm.Checkout.PayByCard | src/pages/CheckoutForm.jsx:47-68 | the card path: it throws before any request when Stripe is missing; a failed intent request throws before the gateway with the status left at "Creating payment intent..."; otherwise the gateway outcome sets the status |
| CheckoutForm.Checkout.PlaceCod | src/pages/CheckoutForm.jsx:69-80 | cash on delivery sends one order request with no check; ok gives "placed", not ok gives "simulated", a rejection is thrown |
| CheckoutForm.Checkout.PlaceUpi | src/pages/CheckoutForm.jsx:81-93 | an empty UPI id, or one shorter than 3 once trimmed, throws before anything is sent; otherwise the untrimmed id is sent and the answer is handled as for cash on delivery |
| CheckoutForm.Checkout.HandleSubmit | src/pages/CheckoutForm.jsx:40-100 | the submit clears the messages and runs the chosen path; every path ends with loading false and the button enabled again; the resulting status, error and requests sent are given for every case of every path |
| CheckoutForm.Checkout.ButtonLabel | src/pages/CheckoutForm.jsx:165-166 | the button reads "Processing…" exactly while loading; otherwise "Pay" with the amount in rupees and the currency upper-cased for card, "Create UPI Order" for UPI, "Place COD Order" for cash on delivery |
| CheckoutForm.Checkout.SubmitEnabled | src/pages/CheckoutForm.jsx:165 | the button, the only guard against a second submit, is enabled exactly when it does not read "Processing…" |
| CheckoutForm.RejectedOrderIsNotSimulated | src/pages/CheckoutForm.jsx:69-96 | a rejected cash-on-delivery request ends with the error set and the status still "Placing COD order...", never the simulated status |
| PaymentForm.GatewayMessage | src/components/PaymentForm.jsx:44 | a gateway error shows its own message, or the generic one when that is empty |
| PaymentForm.CardPaymentForm.constructor | src/components/PaymentForm.jsx:11-13 | a new form is not processing and has no error and no success |
| PaymentForm.CardPaymentForm.HandleSubmit | src/components/PaymentForm.jsx:15-59 | without Stripe or with a falsy amount nothing changes; a negative amount only sets the error; otherwise the state and the requests sent are given for every outcome: a rejection, a gateway error, success, and any other status (still processing); an earlier error is never cleared |
| PaymentForm.CardPaymentForm.ButtonText | src/components/PaymentForm.jsx:87 | the button reads "Processing…" exactly while processing, and "Pay Now" otherwise |
| PaymentForm.CardPaymentForm.SubmitDisabled | src/components/PaymentForm.jsx:82-88 | the button is disabled exactly while it reads "Processing…" or Stripe is not loaded; an enabled button reads "Pay Now" |
| PaymentForm.StuckProcessing | src/components/PaymentForm.jsx:46-53 | a status other than "succeeded" leaves the form processing with the button disabled |
| PaymentForm.StaleErrorAfterSuccess | src/components/PaymentForm.jsx:42-58 | an error from a failed attempt is still shown after a later successful payment |
| LoginPage.CaptchaCharsAreLetters | src/pages/LoginPage.jsx:15 | the alphabet has 52 characters, all ASCII letters |
| LoginPage.CaptchaCode | src/pages/LoginPage.jsx:13-19 | the code is 4 or 5 letters long, as the first draw picks, and each letter is the one its draw picks from the alphabet |
| LoginPage.DummyLogin | src/pages/LoginPage.jsx:262-267 | an artisan session iff the credentials are ("user", "pass"), otherwise nothing |
| LoginPage.LoginForm.constructor | src/pages/LoginPage.jsx:5-25 | the mounted page has empty fields, no message, is not loading, and has a valid CAPTCHA |
| LoginPage.LoginForm.GenerateCaptcha | src/pages/LoginPage.jsx:13-21 | a new valid CAPTCHA replaces the old one |
| LoginPage.LoginForm.HandleSubmit | src/pages/LoginPage.jsx:27-45 | blank credentials are reported before the CAPTCHA is looked at; a CAPTCHA that differs after trimming the input clears the input and draws a new code; otherwise loading starts and the trimmed credentials go to `onLogin` |
| LoginPage.LoginForm.FinishLogin | src/pages/LoginPage.jsx:46-66 | given the `onLogin` answer (a username and a role, or nothing): a failed login is reported, ends loading, clears the input and draws a new code; a success clears the message, routes by role and leaves loading set |
| LoginPage.SubmitDummyLogin | src/pages/LoginPage.jsx:27-67 | a whole login with `dummyLogin` as `onLogin`: blank credentials or a wrong CAPTCHA never navigate; otherwise ("user", "pass") lands on `/artisan` with loading left set, and anything else is reported as invalid with loading ended |
| LoginPage.LoginForm.HandleForgotPassword | src/pages/LoginPage.jsx:71-77 | the supplied handler is called when there is one; otherwise the page goes to `/forgot-password` |
| CraftLoginPage.CraftLoginForm.constructor | tribal-craft/src/pages/LoginPage.jsx:5-7 | the page starts with empty fields, no message, not loading |
| CraftLoginPage.CraftLoginForm.HandleSubmit | tribal-craft/src/pages/LoginPage.jsx:10-21 | blank credentials are reported; otherwise loading starts and the trimmed credentials go to `onLogin` |
| CraftLoginPage.CraftLoginForm.FinishLogin | tribal-craft/src/pages/LoginPage.jsx:22-40 | a failed login is reported and ends loading; a success clears the message, routes by role and leaves loading set |
| CraftLoginPage.SubmitLogin | tribal-craft/src/pages/LoginPage.jsx:10-43 | with blank credentials the store is not asked; otherwise the first matching account is logged in and routed to a page whose guard admits it, and no match leaves the current user unchanged |
| RegisterPage.RegisterForm.constructor | tribal-craft/src/pages/RegisterPage.jsx:4-6 | the page starts with empty fields, no message, not loading |
| RegisterPage.RegisterForm.HandleSubmit | tribal-craft/src/pages/RegisterPage.jsx:8-20 | a blank username or password, or no role, is reported and nothing is registered; otherwise loading starts and the trimmed username and password with the role as chosen go to `onRegister` |
| RegisterPage.RegisterForm.FinishRegister | tribal-craft/src/pages/RegisterPage.jsx:21-28 | a falsy answer reports a taken username and leaves the form; a truthy one reports success and clears all three fields; loading ends false either way |
| RegisterPage.SubmitRegistration | tribal-craft/src/pages/RegisterPage.jsx:8-30 | a whole registration against the store: the users become `Register` of the old list and the page reports success, even when the username was taken and the list is unchanged |
| ForgotPasswordPage.ForgotPasswordForm.constructor | src/pages/ForgotPasswordPage.jsx:5-6 | the page starts with no email and no message |
| ForgotPasswordPage.ForgotPasswordForm.HandleSubmit | src/pages/ForgotPasswordPage.jsx:9-24 | a blank email is reported, the field is kept and nothing is scheduled; otherwise the message names the email as typed, the field is cleared and a redirect to `/login` is scheduled |
| AddProductForm.NewProduct | tribal-craft/src/components/AddProductForm.jsx:38-46 | the new product has the clock-based id, which is a plain path segment, the trimmed texts, the parsed price, the user as artisan, and is not approved |
| AddProductForm.ProductForm.constructor | tribal-craft/src/components/AddProductForm.jsx:5-13 | the form starts empty, with no errors, not loading and no success |
| AddProductForm.ProductForm.ResetForm | tribal-craft/src/components/AddProductForm.jsx:52 | every field becomes empty |
| AddProductForm.ProductForm.ValidateForm | tribal-craft/src/components/AddProductForm.jsx:16-24 | the name, description and image each get an error iff blank; the price gets one iff empty, not a number or not positive; each error carries its field's message |
| AddProductForm.ProductForm.HandleSubmit | tribal-craft/src/components/AddProductForm.jsx:26-55 | with any error the errors are stored and the store and form are untouched; otherwise exactly one new product is appended, the errors are emptied, success is set, loading ends false, the fields are cleared and the redirect is scheduled |

## Left out

- The Stripe SDK, `fetch`, `axios` and the backend are not modelled. Their answers are inputs, and a JSON body that fails to parse is treated as a rejected request.
- The API base URL and the request headers and bodies beyond their fields are left out.
- Floating point is not modelled. Prices are exact reals, so `Math.round`, `toFixed`, `parseFloat` and `isNaN` lose IEEE-754 rounding, and `toFixed` never uses exponent notation.
- How a price text reads as a number (`isNaN`, `parseFloat`) is the parameter `read` and is not modelled.
- Amounts in the checkout are whole numbers. A fractional or NaN amount from the navigation state is not modelled.
- `Math.random` is the `draws` parameter, and `Date.now()` is the `now` parameter.
- The `setTimeout` delays are left out. Only the callback bodies are modelled, and a redirect that has been scheduled is recorded as it is set up.
- Concurrent and interleaved submits are not modelled. A submit runs to completion.
- `localStorage` persistence of the logged-in user is left out, so the store always starts logged out.
- `toLowerCase` and `toUpperCase` cover ASCII letters only. Unicode case folding is left out.
- JSX markup, styles, hover listeners, injected style tags and image `onError` fallbacks are left out.
- `e.preventDefault()` and the `console.error` logging are left out.
- Both `Header.jsx` files and `AdminDashBoard.jsx` are not part of this model. They only render navigation and a fixed user list.
- CheckoutPage's `productId` is not passed into `Checkout`, because the checkout form never reads it.
- CraftProductDetail.CraftProductDetailPage: requires a number price, because the page calls `toFixed` on the price unguarded and throws otherwise.
- CraftProductDetail.ProductRoute: requires every product to have a number price, for the same reason.
- ProductCard.ProductTile: an absent price renders as empty text. A price that is present but not a number, which would throw in `toFixed`, is not modelled.
- CheckoutPage.Heading: the text is stated only for a non-negative amount. A negative amount's digits are covered by `Money.PriceTextExact`.
- CheckoutForm.Checkout.ButtonLabel: the card caption is stated only for a non-negative amount, for the same reason.
- Catalog.ProductRouteId: the browser's URL rewriting is not modelled. It resolves the dot segments `.` and `..`, treats `\` as a path separator, and drops tabs and newlines. The router's percent-decoding of the segment is not modelled either. Only the cut at `?` and `#`, the dropped trailing slashes and the letter case of `/product/` are.
- Catalog.ProductPathRoundTrip: stated only for ids of ASCII letters, digits, `-` and `_`, which none of that rewriting touches. Every id the app creates has this form (`AddProductForm.NewProduct`). `Catalog.ProductPathCut` covers ids holding `?` or `#`.
- Money.PaiseKeepShownPrice: holds for exact prices only. With IEEE doubles a price of 1.115 is stored as 1.11499…, so `toFixed(2)` shows "1.11", while `Math.round(1.115 * 100)` is `Math.round(111.5)`, which is 112 paise. Prices of 2.675 and 3.335 behave the same way.
- ProductDetail.CheckoutShowsShownPrice: holds for exact prices only. For a price of 1.115 the product page shows "1.11" while the checkout heading shows "1.12" and 112 paise are charged, for the reason given for `Money.PaiseKeepShownPrice`.
- ProductCard.Truncate: lengths and cut points count characters, while JavaScript's `length` and `substring` count UTF-16 code units. A description holding characters outside the Basic Multilingual Plane, such as emoji, is cut at a different place or not at all.
- CheckoutForm.UpiIdAccepted: the length test counts characters, not UTF-16 code units. "a😀" has JavaScript length 3 and is accepted by the code, but is rejected here; `CheckoutForm.Checkout.PlaceUpi` and `CheckoutForm.Checkout.HandleSubmit` inherit this.
- LoginPage.LoginForm.GenerateCaptcha: states only that the new code is valid. The exact letters drawn are given by `LoginPage.CaptchaCode`.
- LoginPage.LoginForm.constructor: states only that the first code is valid, as `GenerateCaptcha` does.
- LoginPage.LoginForm.HandleSubmit: on a CAPTCHA mismatch it states only that the new code is valid, as `GenerateCaptcha` does.
- LoginPage.LoginForm.FinishLogin: on a failed login it states only that the new code is valid, as `GenerateCaptcha` does.
