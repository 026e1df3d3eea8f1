# CeloEdu marketplace front-end: a Dafny model of its logic

The CeloEdu front-end lets a user connect a wallet, browse courses and products
listed on a marketplace contract, add listings and buy them with the cUSD
stablecoin. Most of it is presentation. This project models the parts that carry
rules:

- the notification slot of the store, with its `openNotify` / `closeNotify`
  reducers (`notify.dfy`);
- the thousands-separator formatter `formatNumberCommas`, over integers
  (`format.dfy`);
- the course card: its status and label, the routing of its button, and the
  handlers that check, buy and complete a course (`course_types.dfy`,
  `course_item.dfy`);
- the add-course form: its schema and submit handler (`add_course.dfy`);
- the product page: decoding and assembling the product rows, the add-product
  schema, and the handlers that buy a product and submit a new one
  (`home_page.dfy`);
- the shortened address on the navbar chip (`navbar.dfy`).

Each asynchronous handler is a method of a class that holds the component's
state (`loading`, `isBought`, the form values, the table rows). The class also
holds `effects`, the ordered list of what its handlers did: contract calls
sent, notifications dispatched, `loading` switched, callbacks invoked
(`effects.dfy`). Every remote call is an abstract outcome, a `Reply`: it
resolves with a value or it rejects with a message. An environment record
supplies one outcome per call. Each method is proved to append exactly the
effects of a specification function of its inputs, such as `BuyCourseEffects`.
The lemmas state what the source promises about those functions.
`Effects.Shown` replays a list of effects into the notification slot, which
ties the handlers to the reducers.

Where the specification and the code disagree, the model follows the code:

- A purchase waits for a successful approval only on the course card.
  The product page never inspects the approval. It sends `buyProduct` after an
  approval whose status is false, and after notifying that the cUSD contract is
  missing (`HomePage.BuyProductIgnoresApproval`).
- A failing per-index product read does not reject the batch and produces no
  notification. It throws inside a promise executor, so its promise never
  settles. `Promise.all` then never settles either, and the rows stay as they
  were (`HomePage.FailedReadIsSwallowed`).
- Without a marketplace contract, the course card's handlers and the
  add-course submit return silently. Only the product page notifies that the
  contract was not found. The course card's handlers also return when no
  default account is set. The add-course submit does not check the account: it
  sends `addCourse` even then, from an undefined account.
- The add-course schema requires all four text fields. The add-product schema
  requires only the name; image, description and location are optional.

## Model

| member | source | states |
|---|---|---|
| `Notify.Open` | src/components/base/notify/slice.ts:17-20 | `openNotify` yields `{open: true, message, type}` whatever the prior state |
| `Notify.Close` | src/components/base/notify/slice.ts:21 | `closeNotify` yields a closed slot with an empty message and no type, whatever the prior state |
| `Notify.Reduce` | src/components/base/notify/slice.ts:13-22 | after one dispatched action the slot is open exactly when the action was an open, and then holds its payload; a close gives the initial state |
| `Notify.InitialIsClosed` | src/components/base/notify/slice.ts:7-11 | the initial slot is closed, with an empty message and no type |
| `Notify.OpenOverwrites` | src/components/base/notify/slice.ts:17-20 | after `openNotify(m, t)` the slot is exactly `{open: true, message: m, type: t}` |
| `Notify.LastOpenWins` | src/components/base/notify/slice.ts:17-20 | of two successive opens the second wins entirely; no field of the first survives |
| `Notify.CloseResets` | src/components/base/notify/slice.ts:21 | `closeNotify` returns the initial state from any state, and is idempotent |
| `Notify.OpenThenClose` | src/components/base/notify/slice.ts:17-21 | open followed by close equals the initial state |
| `Notify.LastActionDecides` | src/components/base/notify/slice.ts:13-22 | after any non-empty sequence of dispatches the slot depends only on the last action: a queue of depth one |
| `Notify.Draft.AssignOpen` | src/components/base/notify/slice.ts:18-19 | assigning the payload on the draft in place gives the reducer's result |
| `Effects.Dispatches` | src/components/base/notify/hooks.ts:9 | every action a handler dispatches is an `openNotify` carrying a type; it dispatches none exactly when it notifies nothing |
| `Effects.DispatchesOfOne` | src/components/base/notify/hooks.ts:9 | one notification among effects that notify nothing dispatches exactly one `openNotify`, with that notification's message and type unchanged |
| `Effects.ShowsTheNotification` | src/components/base/notify/hooks.ts:9 | when a handler dispatches exactly one notification, the slot shows it afterwards, whatever it showed before |
| `Format.ReplacedDigits` | src/utils/format.ts:2 | on a digit string the regular expression inserts exactly the commas of the reference grouping (groups of three from the right) |
| `Format.ReplacedNegative` | src/utils/format.ts:2 | a leading `-` never gets a comma after it, and the digits after it are grouped as without it |
| `Format.FormatNumberCommas` | src/utils/format.ts:1-3 | the global replace over `value.toString()` equals the sign followed by the reference grouping of the magnitude's digits |
| `Format.GroupedStrips` | src/utils/format.ts:2 | deleting the commas of a grouping gives back its digits |
| `Format.GroupedCommaCount` | src/utils/format.ts:2 | a grouping of n digits holds (n-1)/3 commas |
| `Format.GroupedShape` | src/utils/format.ts:2 | a grouping holds only digits and commas, never begins or ends with a comma, never has two adjacent commas |
| `Format.GroupedSizes` | src/utils/format.ts:2 | the comma-separated groups are all digits; the first has 1 to 3, every later one exactly 3 |
| `Format.FormatStripsToString` | src/utils/format.ts:2 | deleting all commas from the output gives back `value.toString()` |
| `Format.FormatCommasSeparate` | src/utils/format.ts:2 | the output never starts or ends with a comma and never has two adjacent commas; no comma follows the sign |
| `Format.FormatGroups` | src/utils/format.ts:2 | an integer with n digits gets exactly (n-1)/3 commas; groups after the first have 3 digits, the first 1 to 3 |
| `Format.FormatShortUnchanged` | src/utils/format.ts:2 | integers of at most three digits come back unchanged |
| `Format.FormatNegative` | src/utils/format.ts:2 | a negative integer formats as `-` followed by the formatting of its absolute value |
| `CourseItem.StateOf` | src/components/ui/course/courseItem.tsx:142-159 | status NEW iff not bought, BOUGHT iff bought and not completed, COMPLETED iff both; the text is the status's label |
| `CourseItem.ButtonDisabled` | src/components/ui/course/courseItem.tsx:179 | the button is disabled exactly when the course is both bought and completed |
| `CourseItem.ClickHandler` | src/components/ui/course/courseItem.tsx:182 | whatever `isCompleted` is, `onClick` buys exactly when the card's status is NEW and completes otherwise |
| `CourseItem.BuyCourseEffects` | src/components/ui/course/courseItem.tsx:87-115 | a purchase does nothing exactly when guarded; otherwise loading is switched on first and off last; `buyCourse` appears only when cUSD is present and the approval's status is true |
| `CourseItem.CompleteCourseEffects` | src/components/ui/course/courseItem.tsx:117-135 | a completion does nothing exactly when guarded; otherwise it is loading on, `completeCourse(index)`, one notification, loading off |
| `CourseItem.PressEffects` | src/components/ui/course/courseItem.tsx:178-182 | a press does nothing exactly when the button is disabled or the handler is guarded; `completeCourse` only on a bought, uncompleted course, `buyCourse` only on one not bought |
| `CourseItem.StatusTable` | src/components/ui/course/courseItem.tsx:142-159 | not bought gives NEW / "Buy Course" whatever `isCompleted` is; bought gives "Complete Course" or "Completed" |
| `CourseItem.ButtonDoesWhatItSays` | src/components/ui/course/courseItem.tsx:178-186 | the button is disabled exactly when the course is completed; an enabled button runs the handler its label names |
| `CourseItem.PressRouting` | src/components/ui/course/courseItem.tsx:178-182 | a press completes when `isBought`, buys otherwise, and does nothing on a completed course |
| `CourseItem.GuardedHandlersDoNothing` | src/components/ui/course/courseItem.tsx:87-135 | with no contract or no default account, buy and complete make no call, no notification and no `loading` change |
| `CourseItem.BuyOnlyAfterApproval` | src/components/ui/course/courseItem.tsx:96-106 | `buyCourse` is sent only right after an approval of the price whose receipt status is true; the refetch only right after `buyCourse` |
| `CourseItem.ApprovalFailureStopsPurchase` | src/components/ui/course/courseItem.tsx:72-102 | a missing cUSD contract or a false approval status notifies "Approve failed" and sends neither buy nor refetch |
| `CourseItem.BuySuccessOrder` | src/components/ui/course/courseItem.tsx:93-112 | on success the order is: loading on, approve(price), buyCourse(index), awaited refetch, success notification, loading off |
| `CourseItem.BuyEndsWithOneNotification` | src/components/ui/course/courseItem.tsx:93-112 | every purchase past the guard switches loading on first and off last and dispatches exactly one notification; the slot then shows that purchase's outcome message and type: the approval's or buy's or refetch's error, "Approve failed", or the success message |
| `CourseItem.CompleteEndsWithOneNotification` | src/components/ui/course/courseItem.tsx:123-132 | a completion past the guard sends `completeCourse(index)`, ends with loading off and leaves the slot showing the success or the error message |
| `CourseItem.CourseCard.CheckCourseIsBought` | src/components/ui/course/courseItem.tsx:44-56 | reads `isBoughtCourse(index)` and stores the answer, or notifies the error and keeps the flag; nothing without a contract |
| `CourseItem.CourseCard.CheckCourseIsCompleted` | src/components/ui/course/courseItem.tsx:58-70 | the same for `isCompleteCourse(index)` and `isCompleted` |
| `CourseItem.CourseCard.ApproveTransaction` | src/components/ui/course/courseItem.tsx:72-85 | without a cUSD contract nothing is sent and the result is undefined; otherwise approve(marketplace, price) is sent and its outcome returned |
| `CourseItem.CourseCard.HandleBuyCourse` | src/components/ui/course/courseItem.tsx:87-115 | appends exactly the purchase's effects; `loading` is false afterwards on every path that set it; `isBought` and `isCompleted` are untouched |
| `CourseItem.CourseCard.HandleCompleteCourse` | src/components/ui/course/courseItem.tsx:117-135 | appends exactly the completion's effects; `loading` is false afterwards on every path that set it |
| `CourseItem.CourseCard.Press` | src/components/ui/course/courseItem.tsx:178-182 | a press runs the handler the click routes to, and nothing while the button is disabled; `loading` stays as it was on a disabled or guarded press and is false after any other |
| `AddCourse.Validate` | src/components/ui/course/addCourse.tsx:36-44 | values are accepted iff title, description, author and image are non-empty and the price is a positive number; accepted data carries them unchanged |
| `AddCourse.HandlerEffects` | src/components/ui/course/addCourse.tsx:62-82 | the handler always ends with loading off; it sends `addCourse` exactly when the contract is present, and resets the form exactly when the write succeeds |
| `AddCourse.InvalidFormNeverWrites` | src/components/ui/course/addCourse.tsx:36-49 | a missing field or a price that is missing or not positive never issues a write |
| `AddCourse.NoContractNoWrite` | src/components/ui/course/addCourse.tsx:62-81 | with no contract, submit writes nothing and notifies nothing; only the `finally` runs |
| `AddCourse.SubmitOutcomes` | src/components/ui/course/addCourse.tsx:62-82 | the write passes (title, description, author, image, price) in order; success notifies, closes, resets, refetches; failure only notifies; loading ends false |
| `AddCourse.SuccessIsShown` | src/components/ui/course/addCourse.tsx:73 | after a successful submit the slot shows the success message for the title |
| `AddCourse.AddCourseModal.Input` | src/components/ui/course/addCourse.tsx:106-122 | editing the inputs sets the form values |
| `AddCourse.AddCourseModal.HandleFormSubmit` | src/components/ui/course/addCourse.tsx:62-82 | appends exactly the handler's effects; `loading` ends false; the values are reset only after a successful write and stay populated otherwise |
| `AddCourse.AddCourseModal.Submit` | src/components/ui/course/addCourse.tsx:88 | the handler runs only on values the schema accepts; on rejected values `loading` and the values stay as they were |
| `HomePage.DecodeProduct` | src/pages/index.tsx:85-94 | a tuple decodes exactly when its price fits `toNumber`, into the product whose index is the loop's and whose fields are slots 0 to 6 in order |
| `HomePage.GetProductsEffects` | src/pages/index.tsx:72-107 | the fetch always does something; it asks for the length exactly when the contract is present, and then sends `readProduct(0)`, `readProduct(1)`, ... one per product, in index order, right after the length request |
| `HomePage.BuyProductEffects` | src/pages/index.tsx:125-147 | a purchase always ends with loading off; it approves exactly when both contracts are present, and sends `buyProduct` exactly when the marketplace is present and the approval did not reject |
| `HomePage.FormEffects` | src/pages/index.tsx:218-241 | the handler always ends with loading off; it writes exactly when the contract is present, and closes and resets the form exactly when the write succeeds |
| `HomePage.DecodeInvertsEncode` | src/pages/index.tsx:85-94 | tuple slots 0..6 become owner, name, image, description, location, price, sold: decoding inverts the slot order and keeps the index; it fails exactly when the price does not fit `toNumber` |
| `HomePage.JoinAll` | src/pages/index.tsx:102 | `Promise.all` settles iff every promise resolves, and then gives their values in order |
| `HomePage.GetProductsWithoutContract` | src/pages/index.tsx:73-76 | with no marketplace contract: notifies "Marketplace Contract was not found" and publishes no rows |
| `HomePage.GetProductsLengthFails` | src/pages/index.tsx:78-106 | a failing `getProductsLength` gives an error notification and no rows |
| `HomePage.AllReadsPublishInOrder` | src/pages/index.tsx:79-103 | when all reads succeed the rows are exactly `productLength` products and entry i has index i and comes from tuple i |
| `HomePage.FailedReadIsSwallowed` | src/pages/index.tsx:83-106 | one failing read leaves the rows unchanged and dispatches no notification |
| `HomePage.ThreeListings` | src/pages/index.tsx:79-103 | the scenario count=3: three reads in order and three rows indexed 0, 1, 2 |
| `HomePage.BuyProductIgnoresApproval` | src/pages/index.tsx:109-141 | approve(price) comes before `buyProduct(index)`, and the buy is sent whatever the approval returns, even after "cUSDT Contract was not found"; only a rejected approval stops it |
| `HomePage.BuyProductEnds` | src/pages/index.tsx:125-147 | a purchase always ends with loading off; a successful buy notifies, then refetches; without a marketplace contract it only notifies that and switches loading off |
| `HomePage.Validate` | src/pages/index.tsx:50-58 | values are accepted iff the name is non-empty and the price is a positive number; image, description and location are optional |
| `HomePage.InvalidFormNeverWrites` | src/pages/index.tsx:50-58 | a missing name or a price that is missing or not positive never issues a write |
| `HomePage.FormOutcomes` | src/pages/index.tsx:218-241 | no contract: one notification; else the write, then on success notify, close, reset, refetch, on failure only the error; loading ends false |
| `HomePage.ProductsPage.CollectProducts` | src/pages/index.tsx:80-100 | the loop sends one read per index and pushes one promise per index, in index order |
| `HomePage.ProductsPage.GetProducts` | src/pages/index.tsx:72-107 | appends the fetch's effects and replaces the rows only when every read resolved; otherwise the rows stay |
| `HomePage.ProductsPage.ApproveTransaction` | src/pages/index.tsx:109-123 | without a cUSD contract: notifies and returns undefined; otherwise sends approve(marketplace, price) and returns its outcome |
| `HomePage.ProductsPage.HandleBuyProduct` | src/pages/index.tsx:125-147 | appends exactly the purchase's effects; `loading` is false afterwards on every path |
| `HomePage.ProductsPage.OpenAddProductModal` | src/pages/index.tsx:210-212 | opens the add-product modal |
| `HomePage.ProductsPage.Input` | src/pages/index.tsx:298-322 | editing the inputs sets the form values |
| `HomePage.ProductsPage.HandleFormSubmit` | src/pages/index.tsx:218-241 | appends exactly the handler's effects; `loading` ends false; the modal closes and the form resets only after a successful write |
| `HomePage.ProductsPage.Submit` | src/pages/index.tsx:286 | the handler runs only on values the schema accepts; the modal closes and the form resets only after a successful write; on rejected values `loading` stays as it was |
| `Navbar.AddressLabel` | src/components/ui/navbar/index.tsx:78 | the label is `address[0..min(6,n)]`, then `...`, then `address[max(n-4,0)..]`, under JavaScript's clamping |
| `Navbar.AddressLabelShape` | src/components/ui/navbar/index.tsx:78 | the label is min(6,n) + 3 + min(4,n) long: 13 for addresses of 10 or more characters, made of the first six, `...`, the last four |
| `Navbar.AddressLabelEnds` | src/components/ui/navbar/index.tsx:78 | at any length the label starts with the address's first characters and ends with its last ones |
| `Navbar.AccountViewOf` | src/components/ui/navbar/index.tsx:75-89 | the chip with the label appears exactly when the address is non-empty; otherwise the connect button does |

## Left out

- Wallet and contract SDK: `useContract`, `getConnectedKit`, `.call()` / `.send()` and the token allowance are not modelled. Each call is an abstract outcome. The `from` account of a send is not recorded.
- `utils/getErrorMessage` is not part of this model. A rejected call carries the message shown for it, whether it comes from `getErrorMessage(error)` or from `error.message`.
- Concurrency: the reads joined by `Promise.all` are sequential and in order, with an all-or-nothing result. The refetches that are not awaited (`getProducts()` after a buy or an add, and `onGetAllCourses()` after adding a course) are recorded as a `Refetch` effect; `GetProducts` models a fetch on its own. Races with unmounting are not modelled.
- Handlers are modelled without interleaving: each one runs to completion and appends its whole trace before anything else happens. In the program, handlers interleave at every `await`. One case this misses: on the product page the buy button of a row (src/pages/index.tsx:197) stays enabled while `loading` is true. Two purchases can therefore overlap on the one `loading` flag, and the first `finally` switches it off while the second is still in flight.
- Render and effect timing: when React re-runs `checkCourseIsBought` / `checkCourseIsCompleted` is not modelled; they are methods the caller invokes.
- Floating point: the cUSD balance chip (`getAccountBalance`, src/components/ui/navbar/index.tsx:40-53) and decimal prices are not modelled; prices are integers. `new BN(price)` in both submit handlers (src/components/ui/course/addCourse.tsx:70, src/pages/index.tsx:229) throws for a number of 2^53 or more before any write is sent. The model sends `AddCourse` / `WriteProduct` for every positive integer price.
- Format.FormatNumberCommas: prints every integer in plain decimal. JavaScript switches to exponent form at 1e21 and is not exact above 2^53; fractional input is out of scope too.
- HomePage.DecodeProduct: `new BN(p[5]).toNumber()` is taken to throw exactly when the price is 2^53 or more. The price slot is already the integer the contract returns, so parsing its decimal string is not modelled. `+productLength` is taken to be that integer as well.
- Form libraries: only the stated schema rules are modelled. A required string is a non-empty one; text inputs always yield strings. A price input that is empty or does not parse is `None`.
- The loading button disables itself while `loading` is true. That is UI-kit behaviour; `CourseItem.CourseCard.Press` models only the `disabled` prop.
- A notification message is a string. The source also allows a React node there.
- The auto-hide of the snackbar after five seconds, the theme toggle and its cookie, layout, routing, the HTTP client, the store and saga wiring, the reducer injectors, `useStateCallback` and `usePreviousValue` are not modelled: they are presentation or library plumbing.
