# ServiceOS order core in Dafny

A model of the service-order application `serviceorder2.0`: a single-page app in which a small
business records service orders (client, description, dates, amount, status, payment method),
lists and filters them, and sees a dashboard of monthly figures. It models these parts:

- the **persistence layer**. This is the local store, a browser storage slot under
  `service_orders_db`, written as a class. Beside it is the remote adapter's pure logic:
  environment lookup, the configuration test, the row ↔ order mapping, the fallbacks used when
  no client exists, and error propagation. The static choice between the two backends is
  modelled too.
- the **dashboard aggregator**. Both adapters share it: open orders, orders completed this month,
  this month's revenue, and the per-status counts.
- the **subscription gate**. Given a profile lookup, it fails open for users with no profile and
  lets in `active` and `trial` subscriptions. The lookup it calls is missing from the adapter
  (see "## Findings").
- the **application shell**. This covers the loading screen, the landing page and the guarded
  app, plus view navigation.
- the **sign-in card**. This covers its three modes, its submit, and how it classifies errors.
- the **order form**: defaults, loading, field edits, validation, and create or update.
- the **order list**: search and status filter, status colours, the receipt company name, and
  load and delete.

The modules follow the program's files:

| Module / file | Models |
|---|---|
| `Wrappers` (wrappers.dfy) | `Option` and `Result` |
| `Text` (text.dfy) | `includes`, ASCII `toLowerCase`/`toUpperCase`, `split(c)[0]` |
| `Seqs` (seqs.dfy) | order-preserving subsequence |
| `Types` (types.dfy) | `src/types.ts` |
| `Stats` (stats.dfy) | the dashboard statistics computed in both services |
| `Supabase` (supabase.dfy) | `src/services/supabase.ts` |
| `Storage` (storage.dfy) | `src/services/storage.ts` |
| `SubscriptionGuard`, `App`, `OrderForm`, `OrderList`, `AuthCard` | the components of the same name |

Effects outside the program become parameters:

- environment variables are an `Env` value;
- each backend call takes the backend's reply as an argument and returns the request it sends
  with the result it hands back (`Supabase.Exchange`);
- the current month is a `MonthYear`;
- date parsing is an abstract `calendar` function from date text to month and year;
- `new Date().toISOString()` is a string argument;
- `window.confirm` and the outcome of each awaited call are arguments of the handlers.

React state becomes class fields. Each handler is a method that states the complete new state.

Consequences that the proofs make explicit:

- With amounts as exact cents, the two adapters compute identical statistics from the same
  orders, whatever their order: the remote list comes back newest first
  (`Supabase.StatsAgreeWithLocal`, `Stats.StatsPermutation`). The program adds floating-point
  numbers, so its two revenues agree only up to rounding (see "Left out").
- The local store assigns ids 1, 2, 3, … from an empty store. It keeps ids unique and positive
  through every create, update and delete.
- An empty search with a status selected shows exactly the orders the dashboard counts under
  that status (`OrderList.StatusFilterMatchesDashboard`).
- The paywall's "trial ended" text can never appear, because a `trial` profile is always let in
  (`SubscriptionGuard.Render`).

Where the code and the written design disagree, the model follows the code:

- The design says a missing configuration selects the local store. But `getEnvVar` falls back to
  built-in, non-placeholder defaults, so `isConfigured` holds with no variables set and the
  remote adapter is chosen (`Storage.DefaultsSelectRemote`). Only a placeholder left in a
  variable selects the local store (`Storage.PlaceholderSelectsLocal`).

## Model

| member | source | states |
|---|---|---|
| Text.Contains | src/components/OrderList.tsx:182 | `includes`: an occurrence needs the piece to be no longer than the text |
| Text.ContainsAt | src/services/supabase.ts:25-26 | `Contains` holds iff the piece occurs at some position |
| Text.Lower | src/components/OrderList.tsx:182 | same length, each character lowered, no upper-case ASCII letter left |
| Text.Upper | src/components/OrderList.tsx:29 | same length, each character raised, no lower-case ASCII letter left |
| Text.BeforeFirst | src/components/OrderForm.tsx:16 | a prefix without the separator, followed in the input by the separator unless it is the whole input |
| Types.StatusFromCode | src/types.ts:1-8 | a string denotes a status exactly when it is that status's code; if none matches, it is no status's code |
| Types.StatusesEnumerated | src/types.ts:1-8 | exactly six statuses, listed in declaration order, with pairwise-distinct codes; every code reads back as its own status |
| Types.PaymentFromCode | src/types.ts:27 | any payment string is accepted and its code survives unchanged, including strings outside the five known methods |
| Types.PaymentRoundTrip | src/types.ts:10-16 | each known method is recovered from its code |
| Types.CentsOrZero | src/services/storage.ts:67 | `Number(v) \|\| 0`: a non-numeric amount counts as zero, a numeric one as itself |
| Types.WithId | src/services/storage.ts:29 | `{ ...order, id }` carries the given id |
| Types.DraftRoundTrip | src/types.ts:18-29 | attaching an id and removing it are inverse, in both directions |
| Stats.OfStatus | src/services/storage.ts:59 | an order is in the filtered list iff it is stored with that status; the list is never longer than the input |
| Stats.ClosedThisMonth | src/services/storage.ts:61-65 | an order counts as completed this month iff it is Completed, has a non-empty close date, and that date parses to the current month and year |
| Stats.ClosedIn | src/services/storage.ts:61-65 | the per-order test: Completed, a non-empty close date, and that date falling in the current month and year |
| Stats.Revenue | src/services/storage.ts:67 | zero for no orders, and never negative when no order has a negative amount |
| Stats.CountsFor | src/services/storage.ts:69-79 | one entry per status, in order, each named by its status code and counting the orders with that status |
| Stats.ComputeStats | src/services/storage.ts:52-87 | `totalOpen` and the completed count never exceed the number of orders; one chart entry per status, named by its code, each count bounded by the number of orders |
| Stats.StatsShape | src/services/storage.ts:69-86 | `byStatus` has six entries in declaration order; `totalOpen` equals the first entry's count |
| Stats.SixCountsIsLength | src/services/storage.ts:76-79 | the six per-status counts add up to the number of orders |
| Stats.CountsSumToLength | src/services/storage.ts:69-79 | the chart's counts: every order is counted under exactly one status |
| Stats.CompletedWithinCompletedCount | src/services/storage.ts:61-65 | completed-this-month never exceeds the Completed count |
| Stats.OfStatusAppend | src/services/storage.ts:59 | filtering by status distributes over concatenation |
| Stats.ClosedAppend | src/services/storage.ts:61-65 | the this-month filter distributes over concatenation |
| Stats.RevenueAppend | src/services/storage.ts:67 | revenue is additive over concatenation |
| Stats.RevenueCons | src/services/storage.ts:67 | the revenue of a list is its first order's coerced value plus the revenue of the rest |
| Stats.AddOrder | src/services/storage.ts:59-86 | appending an order raises `totalOpen` by one iff it is Open, raises the completed count by one and the revenue by its coerced value iff it closed this month, and leaves them unchanged otherwise |
| Stats.OfStatusMultiset | src/services/storage.ts:78 | the status filter keeps each order's multiplicity when the status matches, and drops it otherwise |
| Stats.ClosedMultiset | src/services/storage.ts:61-65 | the same multiplicity law for the this-month filter |
| Stats.RevenuePermutation | src/services/storage.ts:67 | revenue does not depend on the order of the list |
| Stats.StatsPermutation | src/services/storage.ts:52-87 | the whole statistics record is the same for any permutation of the orders |
| Storage.MaxId | src/services/storage.ts:28 | the maximum is at least every id and is one of them |
| Storage.NextId | src/services/storage.ts:28-29 | the new id is one more than the largest stored id: it exceeds every stored id and is one more than some stored id; it is 1 on an empty store |
| Storage.FindIndex | src/services/storage.ts:38 | -1 iff the id is absent; otherwise the first position holding the id |
| Storage.Find | src/services/storage.ts:22 | none iff no order has the id; otherwise the stored order at the first position holding that id |
| Storage.FindUnique | src/services/storage.ts:19-23 | with unique ids, looking up a stored order's id returns that order |
| Storage.Created | src/services/storage.ts:25-33 | one more entry; every old entry kept at its position; the new entry is the draft under `NextId`, larger than every stored id |
| Storage.Replaced | src/services/storage.ts:35-43 | same length; only the first entry holding the id is replaced by the new order, every other position keeps its entry; an absent id changes nothing |
| Storage.WithoutId | src/services/storage.ts:48 | an order survives iff its id differs; survivors keep their relative order; an absent id changes nothing |
| Storage.WithoutIdMultiset | src/services/storage.ts:48 | every copy of an order with the id is dropped, and every other order keeps its multiplicity |
| Storage.CreateKeepsValid | src/services/storage.ts:25-33 | create keeps ids unique and positive, and the new order is found under its new id |
| Storage.ReplaceKeepsValid | src/services/storage.ts:35-43 | update of a stored id keeps the invariant, and the id then finds the new record |
| Storage.ReplaceAbsent | src/services/storage.ts:38-42 | update of an id that is not stored leaves the list unchanged |
| Storage.DeleteKeepsValid | src/services/storage.ts:45-50 | delete keeps the invariant, and afterwards the id finds nothing |
| Storage.ReuseAfterDeletingNewest | src/services/storage.ts:28-29 | on a store numbered 1..n, deleting order n and creating again assigns id n a second time |
| Storage.SequentialCreates | src/services/storage.ts:25-33 | creates on a store numbered 1..n append orders numbered n+1, n+2, … in call order |
| Storage.IdsFromEmptyStore | src/services/storage.ts:25-33 | from an empty store, the j-th created order is the j-th draft with id j+1 |
| Storage.LocalStorageService.constructor | src/services/storage.ts:10-16 | the store starts with the slot given: a parsed list, or none for a missing or unparsable slot |
| Storage.LocalStorageService.GetAll | src/services/storage.ts:8-17 | returns the stored list, or `[]` when the slot is missing or unparsable |
| Storage.LocalStorageService.GetById | src/services/storage.ts:19-23 | returns the first order with the id; none iff no stored order carries it |
| Storage.LocalStorageService.Create | src/services/storage.ts:25-33 | writes back the old list plus the draft under the next id, returns that order, and keeps the id invariant |
| Storage.LocalStorageService.Update | src/services/storage.ts:35-43 | replaces the first entry with the id, in place, and writes back; with no such entry the slot is untouched |
| Storage.LocalStorageService.Delete | src/services/storage.ts:45-50 | writes back the list without that id's orders; the id is then gone and the invariant kept |
| Storage.LocalStorageService.GetStats | src/services/storage.ts:52-87 | the shared aggregator applied to the stored list |
| Storage.SelectBackend | src/services/storage.ts:97-99 | the remote adapter is used iff the client is configured |
| Storage.PlaceholderSelectsLocal | src/services/storage.ts:97-99 | a placeholder left in either setting selects the local store |
| Storage.DefaultsSelectRemote | src/services/storage.ts:97-99 | with neither variable set, the built-in defaults select the remote adapter |
| Supabase.GetEnvVar | src/services/supabase.ts:8-16 | the value when set; the default when it is unset, empty, or the environment is missing or throws |
| Supabase.IsSet | src/services/supabase.ts:12 | the truthiness test of `import.meta.env[key]`: an environment exists and holds a non-empty value for the key |
| Supabase.IsConfigured | src/services/supabase.ts:22-26 | true iff both settings are non-empty and `COLE_SUA` occurs at no position of either |
| Supabase.DefaultUrlIsNotPlaceholder | src/services/supabase.ts:18 | the built-in URL holds no placeholder |
| Supabase.DefaultKeyIsNotPlaceholder | src/services/supabase.ts:19 | the built-in key holds no placeholder |
| Supabase.DefaultsAreConfigured | src/services/supabase.ts:18-26 | with neither variable set, the configuration is accepted |
| Supabase.ClientFor | src/services/supabase.ts:29 | a client exists iff the configuration is accepted |
| Supabase.Lookup | src/services/supabase.ts:40-50 | `getSession` and `getUser` give nothing without a client, and the backend's answer otherwise |
| Supabase.AuthAction | src/services/supabase.ts:52-81 | sign-in, sign-up and reset fail with "Supabase não configurado" without a client, and report the backend's error otherwise |
| Supabase.NullIfEmpty | src/services/supabase.ts:152 | an absent or empty close date is written as null; any other is kept |
| Supabase.FromRow | src/services/supabase.ts:102-113 | the read mapping keeps the row's id |
| Supabase.ToColumns | src/services/supabase.ts:147-158 | storing the written columns under any id and reading them back gives the draft with that id; only an empty close date becomes null |
| Supabase.RowRoundTrip | src/services/supabase.ts:102-113 | reading a row, dropping its id and writing it back restores the row; only an empty close date becomes null |
| Supabase.FromRows | src/services/supabase.ts:102 | the rows are mapped one to one, position by position |
| Supabase.GetAll | src/services/supabase.ts:88-114 | `[]` with no request when there is no client; otherwise it asks for all rows newest first, and returns the mapped rows or re-throws the backend's error |
| Supabase.GetById | src/services/supabase.ts:116-139 | an order is returned iff a client exists and the backend answered with a row, and it is that row mapped; errors become "not found" |
| Supabase.Create | src/services/supabase.ts:141-172 | without a client it throws and sends nothing; otherwise it inserts the mapped columns with the user's id; it succeeds iff the backend does, and then returns the input order with the backend's id |
| Supabase.Update | src/services/supabase.ts:174-198 | a silent no-op without a client; otherwise it writes the mapped columns to that id and passes on the backend's outcome |
| Supabase.Delete | src/services/supabase.ts:200-212 | a silent no-op without a client; otherwise it deletes that id and passes on the backend's outcome |
| Supabase.GetStats | src/services/supabase.ts:214-249 | fails iff `getAll` fails; otherwise gives the shared aggregator over `getAll`'s result |
| Supabase.StatsAgreeWithLocal | src/services/supabase.ts:214-249 | the remote statistics equal the local store's for the same orders in any order |
| Supabase.UnconfiguredStats | src/services/supabase.ts:214-221 | without a client, the statistics are all zero with six zero counts |
| SubscriptionGuard.FallbackProfile | src/components/SubscriptionGuard.tsx:25-33 | the made-up profile carries the user's id and e-mail (or `''`), status `active`, and so grants access |
| SubscriptionGuard.Resolve | src/components/SubscriptionGuard.tsx:18-43 | no user or any exception keeps the previous profile; a user without a stored profile gets the fallback; a stored profile is taken as is |
| SubscriptionGuard.Render | src/components/SubscriptionGuard.tsx:54-89 | a spinner iff loading; the children iff loaded with an active or trial profile; every paywall shows the pending text |
| SubscriptionGuard.Gate.constructor | src/components/SubscriptionGuard.tsx:11-12 | the gate starts loading, with no profile |
| SubscriptionGuard.Gate.CheckStatus | src/components/SubscriptionGuard.tsx:18-43 | the profile becomes the resolved one, and loading ends whatever happened |
| SubscriptionGuard.FailOpen | src/components/SubscriptionGuard.tsx:24-33 | a user with no stored profile is let in |
| SubscriptionGuard.NoUserBlocked | src/components/SubscriptionGuard.tsx:20-21 | no user means the paywall |
| SubscriptionGuard.LapsedBlocked | src/components/SubscriptionGuard.tsx:63-66 | a past-due, canceled or unpaid profile gets the paywall |
| SubscriptionGuard.ExceptionBlocked | src/components/SubscriptionGuard.tsx:38-42 | an exception in the check leads to the paywall |
| SubscriptionGuard.SignedInBlockedAsShipped | src/components/SubscriptionGuard.tsx:20-42 | with the shipped adapter, whose `auth` has no `getProfile`, a signed-in user gets the pending paywall, while a lookup answering "no profile" would let the same user in |
| SubscriptionGuard.Mount | src/components/SubscriptionGuard.tsx:45-47 | after one mount, the children show iff a user was found and the profile lookup did not throw |
| App.StepAsWritten | src/App.tsx:110-147 | the shipped handlers keep "only the form edits an order", except that closing the form keeps the edited id |
| App.StaleEditAfterClose | src/App.tsx:147 | edit order 7, close the form, then pick the sidebar's form entry: the form reopens on order 7 |
| App.Step | src/App.tsx:110-130 | every handler keeps "an order is edited only while the form is open"; each handler's view and id are stated; only close differs from the shipped code |
| App.NoStaleEdit | src/App.tsx:110-147 | from the initial state, after any sequence of events, no edited id is left outside the form |
| App.RunKeepsInvariant | src/App.tsx:110-130 | any event sequence preserves the invariant |
| App.Run | src/App.tsx:110-130 | no events leave the state as it was; after an edit, create, save or close as the last event, the state is the one that handler sets |
| App.Route | src/App.tsx:42-133 | the loading screen iff the session check is pending; the landing page iff there is no session; otherwise the guarded app in the current view |
| App.AppState.constructor | src/App.tsx:20-25 | no session, auth loading, dashboard view, nothing edited |
| App.AppState.OnInitialSession | src/App.tsx:29-32 | the session is stored and loading ends: the landing page without a session, otherwise the app in the current view |
| App.AppState.OnAuthStateChange | src/App.tsx:35-37 | the session is replaced and nothing else changes; once loaded, the screen follows the new session |
| App.AppState.HandleNavigate | src/App.tsx:110-115 | the view changes, and any view but the form clears the edited id |
| App.AppState.HandleEditOrder | src/App.tsx:117-120 | opens the form on that id |
| App.AppState.HandleCreateOrder | src/App.tsx:122-125 | opens the form with nothing edited |
| App.AppState.HandleSave | src/App.tsx:127-130 | back to the list with nothing edited |
| App.AppState.HandleClose | src/App.tsx:147 | back to the list, with the edited id cleared (the corrected close) |
| OrderForm.EmptyOrder | src/components/OrderForm.tsx:12-22 | blank texts, today's date part as the open date, close date `''`, value 0, status Open, payment Cash |
| OrderForm.EmptyOrderRejected | src/components/OrderForm.tsx:52-55 | a blank form fails validation |
| OrderForm.Validates | src/components/OrderForm.tsx:52 | the required-fields test: client name and description both non-empty |
| OrderForm.Truthy | src/components/OrderForm.tsx:30 | `if (editId)`: an id is present and is not 0 |
| OrderForm.DatePart | src/components/OrderForm.tsx:36-37 | the result is the prefix of the date before its first `T`: it holds no `T`, and the date continues with `T` unless it is kept whole; an absent date becomes `''` |
| OrderForm.Loaded | src/components/OrderForm.tsx:33-38 | every field of the loaded order is kept except the dates; each date is the prefix before its first `T`; an absent close date becomes `''` |
| OrderForm.LoadIsStable | src/components/OrderForm.tsx:36-37 | loading a form saved from a loaded form gives the same form |
| OrderForm.Set | src/components/OrderForm.tsx:45-48 | the named field takes the new value and every other field keeps its own |
| OrderForm.FieldsDetermineDraft | src/components/OrderForm.tsx:45-48 | the fields cover the whole draft, so the frame of `Set` fixes the result |
| OrderForm.SubmitCall | src/components/OrderForm.tsx:50-63 | nothing is sent iff client name or description is empty; with a truthy edit id, an update with that id; otherwise a create |
| OrderForm.Form.constructor | src/components/OrderForm.tsx:24-27 | the form starts with the blank order, not loading and not saving |
| OrderForm.Form.OnMount | src/components/OrderForm.tsx:29-43 | with a truthy edit id, a found order is loaded and loading ends; otherwise nothing changes |
| OrderForm.Form.HandleChange | src/components/OrderForm.tsx:45-48 | only the named field changes |
| OrderForm.Form.HandleSubmit | src/components/OrderForm.tsx:50-71 | the call issued is the submit call; `onSave` runs iff a call was made and it succeeded; the alerts; `saving` ends false after any call |
| OrderList.FilterOrders | src/components/OrderList.tsx:181-185 | an order is shown iff its lowercased client name contains the lowercased term and the filter is `all` or its status |
| OrderList.MatchesSearch | src/components/OrderList.tsx:182 | an empty term matches every order; a match needs a term no longer than the client name |
| OrderList.MatchesFilter | src/components/OrderList.tsx:183 | passes iff the filter is `all` or is the code of the order's status |
| OrderList.Visible | src/components/OrderList.tsx:184 | both tests pass; with an empty term only the status filter decides |
| OrderList.FilteredIsSubsequence | src/components/OrderList.tsx:181-185 | the shown list is an order-preserving subsequence of the loaded list |
| OrderList.FilterIdempotent | src/components/OrderList.tsx:181-185 | filtering the shown list again changes nothing |
| OrderList.NoFilterShowsAll | src/components/OrderList.tsx:181-185 | an empty term and `all` show the whole list |
| OrderList.StatusFilterMatchesDashboard | src/components/OrderList.tsx:183 | an empty term and one status show exactly the dashboard's orders of that status |
| OrderList.StatusColor | src/components/OrderList.tsx:187-197 | the gray default iff the text is none of the six statuses |
| OrderList.StatusColorsDistinct | src/components/OrderList.tsx:187-197 | the six statuses get six different classes, none of them gray |
| OrderList.CompanyNameFor | src/components/OrderList.tsx:24-34 | replaced by the uppercased metadata name exactly when a user with a non-empty company name is returned; otherwise kept, including on exception |
| OrderList.CompanyNameIdempotent | src/components/OrderList.tsx:27-30 | fetching twice gives the same name as fetching once |
| OrderList.UnconfiguredKeepsDefault | src/components/OrderList.tsx:17 | without a client the name stays 'SERVICE OS' |
| OrderList.List.constructor | src/components/OrderList.tsx:13-17 | no orders, empty search, filter `all`, loading, default company name |
| OrderList.List.SetSearchTerm | src/components/OrderList.tsx:219 | only the search term changes |
| OrderList.List.SetStatusFilter | src/components/OrderList.tsx:228 | only the filter changes |
| OrderList.List.LoadOrders | src/components/OrderList.tsx:36-47 | a successful reply replaces the orders and the rows shown are an order-preserving subsequence of it; a failure keeps them and alerts; loading ends either way |
| OrderList.List.FetchCompanyData | src/components/OrderList.tsx:24-34 | the company name becomes `CompanyNameFor` of the reply; nothing else changes |
| OrderList.List.HandleDelete | src/components/OrderList.tsx:49-54 | a delete is sent iff the user confirmed; the list is reloaded iff the delete then succeeded; the load alert is raised iff that reload failed |
| AuthCard.Links | src/components/AuthCard.tsx:164-182 | no mode links to itself; login links to register and forgot; the others link only back to login |
| AuthCard.ModesConnected | src/components/AuthCard.tsx:164-182 | every mode reaches every other within two links |
| AuthCard.RequestFor | src/components/AuthCard.tsx:21-34 | sign-in exactly in login mode, sign-up exactly in register mode, a password reset exactly in the mode without a password field (line 108); the request carries the e-mail, and the password unless it is a reset |
| AuthCard.SuccessMessage | src/components/AuthCard.tsx:22-34 | no notice for login; the account-created text for register; the recovery-link text for forgot |
| AuthCard.ModeAfterSuccess | src/components/AuthCard.tsx:25-34 | a successful submit ends in login unless the mode was forgot; only register changes mode |
| AuthCard.Classify | src/components/AuthCard.tsx:36-42 | never empty; 'Invalid login' is checked first, then 'already registered', then the raw message, or the default when it is empty |
| AuthCard.ClassifyIdempotent | src/components/AuthCard.tsx:36-42 | classifying a shown error again leaves it unchanged |
| AuthCard.NotConfiguredShownVerbatim | src/components/AuthCard.tsx:36-42 | without a client the user sees "Supabase não configurado" |
| AuthCard.Card.constructor | src/components/AuthCard.tsx:8-13 | login mode, empty inputs, no error or notice, not loading |
| AuthCard.Card.Follow | src/components/AuthCard.tsx:164-182 | a link that is offered switches to its mode; nothing else changes |
| AuthCard.Card.SetEmail | src/components/AuthCard.tsx:100 | only the e-mail changes |
| AuthCard.Card.SetPassword | src/components/AuthCard.tsx:118 | only the password changes |
| AuthCard.Card.HandleSubmit | src/components/AuthCard.tsx:15-46 | a request goes out only with a client; the final error and notice depend only on the outcome; success gives the mode's notice and next mode; failure gives the classified error with the mode kept; loading ends |

## Left out

- Delays, promises and concurrency. Each awaited call is one step whose outcome is an argument.
  Interleavings of overlapping calls are not modelled.
- JSON encoding and decoding of the storage slot. The slot is modelled as the parsed list or
  `None` for missing or unparsable text.
- `Date` parsing, `getMonth`/`getFullYear` and `toISOString`. They are an abstract calendar
  function and string arguments.
- Amounts are exact integer cents (`Amount`, `Types.CentsOrZero`). The program adds JavaScript
  doubles; the amount input allows two decimals (src/components/OrderForm.tsx:165-167), so a sum
  of cents can differ from the program's by rounding, and double addition is not associative.
- Stats.RevenueAppend: additivity over concatenation holds for cents; the program's
  floating-point sum satisfies it only up to rounding.
- Stats.RevenueCons: regrouping the left fold is exact for cents; with doubles the two groupings
  can differ by rounding.
- Stats.RevenuePermutation: order-independence of revenue holds for cents. With doubles it does
  not: 0.1, 0.2 and 0.3 sum to 0.6000000000000001 in one order and to 0.6 in the reverse order.
- Stats.StatsPermutation: the counts are order-independent in the program too; the revenue field
  is order-independent only for cents, as for `Stats.RevenuePermutation`.
- Supabase.StatsAgreeWithLocal: the two adapters add the same amounts in opposite orders
  (src/services/storage.ts:67 over id order, src/services/supabase.ts:229 over newest first), so
  their revenues agree exactly in cents but only up to rounding in the program.
- `Number(item.value)` on read: rows hold `Amount` values, so the conversion is the identity.
- The form's `handleChange` stores the input's text unconverted, also for the amount field
  (src/components/OrderForm.tsx:45-48); only `Number(v) || 0` in the aggregator turns it into a
  number. The model's amount field holds an `Amount` from the start, so the text form of an
  amount between edit and save is not modelled.
- `console.error` and `console.log` calls (in src/services/supabase.ts,
  src/components/SubscriptionGuard.tsx, src/components/OrderList.tsx:42 and
  src/components/OrderForm.tsx) are diagnostics with no effect on state and are left out.
- Supabase.FromRow: the unchecked `as OrderStatus` cast is not modelled. Rows are typed with
  `OrderStatus`, so an unknown status text in the table cannot arise. `OrderList.StatusColor`
  takes raw status text, so its gray default is still covered.
- Text.Lower and Text.Upper map only the ASCII letters. JavaScript's Unicode case mapping of
  accented letters is not modelled.
- The profile lookup: `SubscriptionGuard.tsx:22` calls `SupabaseService.auth.getProfile`, which
  `src/services/supabase.ts` does not define, and imports `UserProfile` from `src/types.ts`, which
  does not export it. The model defines `UserProfile` from the fields the gate builds
  (SubscriptionGuard.tsx:27-33), and `stored` stands for the reply of a lookup the adapter lacks;
  the shipped adapter's reply is `SubscriptionGuard.ShippedLookupReply` (see "## Findings").
- `supabase!.auth.onAuthStateChange`: the listener is modelled as the `OnAuthStateChange` method.
  The crash this non-null assertion causes without a client is not modelled.
- `signOut`, the logout redirect, the receipt printing window, the `Intl` currency and date
  formatting, JSX layout, the landing-page sections and the service worker are not modelled.
  They are presentation or browser APIs.
- The descending `order('id')` of `getAll` is a request the model sends. Sorting is the backend's
  job, and the statistics are proved independent of order (the revenue exactly only in cents).
- OrderForm.Form.HandleSubmit does not model the React render between `setSaving(true)` and the
  awaited call. Only the final `saving` value is stated.

## Findings

| source | as written | input that shows it | evidently intended | confidence | as-written member | corrected member |
|---|---|---|---|---|---|---|
| src/App.tsx:147 | the form's close button only sets the view to the list and keeps `editingId`; the sidebar's form entry (src/components/Layout.tsx:55-56) sets the view to the form and keeps the id | edit order 7, close the form, then pick the sidebar's form entry: the form reopens as an edit of order 7 instead of a new order | closing the form clears the edited id, as `handleSave` (src/App.tsx:127-130) and `handleNavigate` to other views do | medium, not executed | App.StaleEditAfterClose | App.NoStaleEdit |
| src/components/SubscriptionGuard.tsx:22 | `checkStatus` calls `SupabaseService.auth.getProfile`, but the `auth` object of src/services/supabase.ts:39-82 has no such member, so the call throws and the catch at :38-42 leaves the profile null | any signed-in user on mount: the paywall shows instead of the app | a profile lookup that answers, so a user without a stored profile gets the fallback (:24-33) and is let in | medium, not executed | SubscriptionGuard.SignedInBlockedAsShipped | SubscriptionGuard.FailOpen |
