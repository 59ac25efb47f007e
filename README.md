# Invoicing dashboard: event handlers and derived values

This project models the in-memory logic of a browser-based invoicing dashboard.
That logic lives in the pages' event handlers and derived values. The model covers:

- the **line-item editor** of the Create Invoice page. Items are added, edited
  field by field and removed (at least one must stay). Subtotal, tax and total are
  derived from them;
- the **record tables**. Payments, clients, invoices and the admin console's users
  and invoices each have a case-insensitive search, and some have exact status or
  user filters. Recording a payment sets its status to paid, partial or unpaid.
  Clients can be added, edited and deleted;
- the **authentication context**. Login against the four demo accounts, signup,
  logout, `hasRole`, `isAuthenticated`, and the **route guard** that decides between
  a waiting view, a redirect and the protected content;
- the **small forms**: change password, the avatar initials, the login and signup
  guards, and the forgot-password confirmation state.

Each page and the auth context is one module. The Login and Signup forms share
the module `AuthForms`. `Collections` (filter, find, some, Set
de-duplication) and `Text` (ASCII case mapping, `includes`, capitalisation,
decimal numerals, `split`) hold what the pages share. Pages that keep state are
classes whose fields are the component state. Each method's postcondition ties
the new state to a pure function, and the properties are proved about that
function. Pages without state of their own are functions and lemmas.

Money, quantities and the tax rate are `real`. The parsed numbers (`Number(...)`,
`parseFloat(...)`), today's date and the contents of local storage are
parameters. Navigation is returned as the target path. The change-password and
forgot-password handlers return which toast they raise; other toasts are not modelled.

Points where the code behaves differently from what one might expect:

- Line-item ids and client ids are `length + 1`, so after a removal a new item can
  take the id of one still listed. `CreateInvoice.IdsCollideAfterRemoval` shows
  that "remove" then deletes both, and that this empties the item list despite the
  one-item guard. `Clients.AddAfterDeleteReusesId` shows the same id reuse for clients.
- The route guard gives admins no blanket pass: an admin is redirected from a
  route whose allowed roles do not list `admin` (`ProtectedRoute.AdminNotPrivileged`).
  One might expect an admin to pass every guard, but the code only lets an admin
  through when `admin` is among the allowed roles.
- Signup never extends the account table. Every signed-up user gets id `u5` and
  team `t5`, and cannot log in afterwards (`Auth.SignupIdsCollide`,
  `Auth.SignedUpCannotLogIn`).
- Recording a payment takes the status from the first record with the selected
  invoice id, and writes it to every record with that id.

## Model

| member | source | states |
|---|---|---|
| CreateInvoice.WithItemAdded | src/pages/CreateInvoice.tsx:44-55 | appends exactly one item: id is the decimal of the new length, description "", quantity 1, rate 0, amount 0; earlier items unchanged and in order |
| CreateInvoice.WithField | src/pages/CreateInvoice.tsx:59-68 | sets the named field; after quantity or rate the amount is quantity × rate; after any other field the amount is unchanged |
| CreateInvoice.WithItemUpdated | src/pages/CreateInvoice.tsx:57-73 | same length; items with another id unchanged; every item with the id (not assumed unique) gets the field update |
| CreateInvoice.WithItemRemoved | src/pages/CreateInvoice.tsx:75-79 | a no-op at one item; otherwise exactly the items without that id, order kept |
| CreateInvoice.Subtotal | src/pages/CreateInvoice.tsx:81 | with no negative amounts the subtotal is not negative; with all amounts 0 it is 0 |
| CreateInvoice.TaxAmount | src/pages/CreateInvoice.tsx:82 | 0 at a tax rate of 0 or a subtotal of 0; not negative for a non-negative subtotal and rate |
| CreateInvoice.Total | src/pages/CreateInvoice.tsx:81-83 | total = subtotal × (1 + taxRate/100); with tax rate 0 the total is the subtotal |
| CreateInvoice.SubtotalConcat | src/pages/CreateInvoice.tsx:81 | the subtotal fold is additive over concatenation |
| CreateInvoice.SubtotalPartition | src/pages/CreateInvoice.tsx:77-81 | the subtotal splits into the items kept and the items dropped by an id |
| CreateInvoice.AddKeepsSubtotal | src/pages/CreateInvoice.tsx:44-55 | adding a line item leaves the subtotal (so tax and total) unchanged |
| CreateInvoice.RemoveSubtractsAmounts | src/pages/CreateInvoice.tsx:75-81 | removing an id lowers the subtotal by exactly the amounts of the dropped items |
| CreateInvoice.DescriptionEditKeepsSubtotal | src/pages/CreateInvoice.tsx:57-81 | editing a description never changes the subtotal |
| CreateInvoice.InitialTotalsAreZero | src/pages/CreateInvoice.tsx:31-42 | the initial single item gives subtotal 0 and total 0 at any tax rate |
| CreateInvoice.AddKeepsNumbering | src/pages/CreateInvoice.tsx:31-55 | the initial list has item i numbered `${i + 1}`, and adding an item keeps that numbering |
| CreateInvoice.NumberedIdsDistinct | src/pages/CreateInvoice.tsx:44-55 | while items are only added, no two share an id |
| CreateInvoice.IdsCollideAfterRemoval | src/pages/CreateInvoice.tsx:44-79 | add, remove "1", add gives two items with id "2"; removing "2" then empties the list |
| CreateInvoice.PreviewClientName | src/pages/CreateInvoice.tsx:349 | "New Client" for no client, else the key with its first letter upper-cased followed by " Corp" |
| CreateInvoice.InvoiceEditor.constructor | src/pages/CreateInvoice.tsx:29-42 | one blank item with id "1", tax rate 0, no client |
| CreateInvoice.InvoiceEditor.AddLineItem | src/pages/CreateInvoice.tsx:44-55 | the items become `WithItemAdded` of the old items; tax rate and client kept |
| CreateInvoice.InvoiceEditor.UpdateLineItem | src/pages/CreateInvoice.tsx:57-73 | the items become `WithItemUpdated` of the old items; tax rate and client kept |
| CreateInvoice.InvoiceEditor.RemoveLineItem | src/pages/CreateInvoice.tsx:75-79 | the items become `WithItemRemoved` of the old items; tax rate and client kept |
| CreateInvoice.InvoiceEditor.SetTaxRate | src/pages/CreateInvoice.tsx:147 | sets the tax rate only |
| CreateInvoice.InvoiceEditor.SetClient | src/pages/CreateInvoice.tsx:171 | sets the selected client only |
| CreateInvoice.InvoiceEditor.CurrentTotal | src/pages/CreateInvoice.tsx:81-83 | the displayed total is the displayed subtotal plus the displayed tax |
| Text.MatchesSearch | src/pages/admin/AdminUsers.tsx:76-77 | true iff the lower-cased query occurs in the lower-cased text; always true for an empty query |
| Text.MatchesSearchIgnoresQueryCase | src/pages/Payments.tsx:111-112 | a query and its lower-cased form select the same records |
| Text.DecimalRoundTrip | src/pages/CreateInvoice.tsx:48 | the `${n}` id reads back as n, so distinct lengths give distinct ids |
| Text.Capitalize | src/pages/Invoices.tsx:174 | same length; the first character is `UpperChar` of the input's first (code point minus 32 for an ASCII small letter); the rest unchanged |
| Text.JoinSplit | src/pages/AccountSettings.tsx:86 | joining the parts of `split(" ")` with a space restores the name |
| Collections.FilterIsSubsequence | src/pages/Invoices.tsx:84 | a filtered list is an order-preserving subsequence of its input |
| Collections.FilterCounts | src/pages/Invoices.tsx:84 | a filter keeps each passing element exactly as often as it occurs in the input, and no failing element |
| Collections.Distinct | src/pages/admin/AdminInvoices.tsx:92 | no duplicates, every input element present, nothing else, never longer than the input |
| Collections.DistinctOrder | src/pages/admin/AdminInvoices.tsx:92 | the distinct elements come in the order of their first occurrence |
| Collections.DistinctShorter | src/pages/admin/AdminInvoices.tsx:92 | an input with a repeated element gives a strictly shorter result |
| Payments.PaymentShown | src/pages/Payments.tsx:108-118 | shown iff (invoice id or client contains the search, ignoring case) and (filter "all" or status equal) |
| Payments.FilteredPayments | src/pages/Payments.tsx:108-118 | each shown payment as often as it occurs in the table, and no other, as an order-preserving subsequence |
| Payments.NoFilterShowsAll | src/pages/Payments.tsx:110-115 | empty search with filter "all" shows every payment |
| Payments.StatusFor | src/pages/Payments.tsx:139-145 | "paid" iff amount ≥ invoice amount; "partial" iff 0 < amount < invoice amount; "unpaid" otherwise |
| Payments.SelectedPayment | src/pages/Payments.tsx:134 | none iff no record has the invoice id; otherwise the first record with that id |
| Payments.WithPaymentRecorded | src/pages/Payments.tsx:147-159 | same length; other records unchanged; matching records keep id, invoice id, client, amount and get paid amount (replaced), date, method, status, notes |
| Payments.RecordingReplaces | src/pages/Payments.tsx:149-151 | recording twice equals recording the second entry alone: paid amounts are replaced, not added |
| Payments.PaymentsPage.constructor | src/pages/Payments.tsx:99-106 | empty search, filter "all", dialog closed, blank form with method "Credit Card" |
| Payments.PaymentsPage.Shown | src/pages/Payments.tsx:108 | never more rows than records |
| Payments.PaymentsPage.ResetForm | src/pages/Payments.tsx:166-171 | selected invoice "", amount "", method "Credit Card", notes ""; records kept |
| Payments.PaymentsPage.AddPayment | src/pages/Payments.tsx:133-164 | nothing changes when no record has the invoice id or the amount is empty; otherwise records become `WithPaymentRecorded` with `StatusFor` the first match's amount, the dialog closes and the form resets |
| Clients.ClientShown | src/pages/Clients.tsx:79-84 | listed iff the search occurs in name, email or company, ignoring case |
| Clients.FilteredClients | src/pages/Clients.tsx:79-84 | each shown client as often as it occurs in the table, and no other, as an order-preserving subsequence |
| Clients.FormOf | src/pages/Clients.tsx:88-95 | the form holds the client's six editable fields; saving it back unchanged gives the same client |
| Clients.Overwritten | src/pages/Clients.tsx:127 | the six form fields replace the client's; id and creation date kept |
| Clients.FormRoundTrip | src/pages/Clients.tsx:86-130 | loading a client into the form and saving it back gives the same client, and conversely |
| Clients.WithTextField | src/pages/Clients.tsx:111-114 | only the named field changes; currency untouched |
| Clients.WithClientEdited | src/pages/Clients.tsx:123-130 | same length; other ids unchanged; each record with the id takes the form, keeping id and creation date |
| Clients.EditUnchangedIsNoOp | src/pages/Clients.tsx:123-130 | saving an opened client unchanged leaves the list as it was |
| Clients.WithClientAdded | src/pages/Clients.tsx:131-137 | appends one record: id is the decimal of the new length, fields from the form, the given date |
| Clients.WithClientDeleted | src/pages/Clients.tsx:143-145 | every record with the id removed; every other record kept as often as it occurs, in order |
| Clients.AddAfterDeleteReusesId | src/pages/Clients.tsx:131-145 | after deleting "1" from two clients, the new client also gets id "2" |
| Clients.ClientsPage.constructor | src/pages/Clients.tsx:65-77 | empty search, dialog closed, nobody edited, blank form with currency "USD" |
| Clients.ClientsPage.Shown | src/pages/Clients.tsx:79 | never more rows than clients |
| Clients.ClientsPage.OpenDialog | src/pages/Clients.tsx:86-109 | with a client: its six fields and it being edited; without: a blank "USD" form and nobody edited; the dialog opens |
| Clients.ClientsPage.Change | src/pages/Clients.tsx:111-114 | the form becomes `WithTextField`; nothing else changes |
| Clients.ClientsPage.CurrencyChange | src/pages/Clients.tsx:116-118 | only the currency of the form changes |
| Clients.ClientsPage.Submit | src/pages/Clients.tsx:120-141 | edits the edited client's id or appends a new client; the dialog closes |
| Clients.ClientsPage.Delete | src/pages/Clients.tsx:143-145 | the clients become `WithClientDeleted` |
| Auth.WithoutPassword | src/contexts/AuthContext.tsx:92-93 | the session user is the account minus its password |
| Auth.DemoTable | src/contexts/AuthContext.tsx:31-63 | four accounts with distinct emails, all with password "password"; only the first is an admin and only it has no team |
| Auth.FindAccount | src/contexts/AuthContext.tsx:86 | none iff no account matches both email and password; otherwise the first matching account of the table |
| Auth.LoginSucceedsIff | src/contexts/AuthContext.tsx:86-90 | login finds an account iff some table account has that email and that password |
| Auth.AccountFindsItself | src/contexts/AuthContext.tsx:31-90 | every table account logs in with its own email and password and finds itself, since no two share an email |
| Auth.DemoLogins | src/contexts/AuthContext.tsx:31-63 | the admin and viewer demo accounts log in and go to "/admin/dashboard" and "/dashboard"; a wrong password fails |
| Auth.HomeFor | src/contexts/AuthContext.tsx:101-106 | "/admin/dashboard" iff the role is admin, else "/dashboard" |
| Auth.EmailTaken | src/contexts/AuthContext.tsx:121-123 | true iff a table account has the email |
| Auth.NewUser | src/contexts/AuthContext.tsx:125-132 | role owner, id "u5", team "t5", the given name and email |
| Auth.SignedUpCannotLogIn | src/contexts/AuthContext.tsx:121-136 | an email that signup accepts never logs in, whatever the password |
| Auth.SignupIdsCollide | src/contexts/AuthContext.tsx:126-131 | any two signups get the same id |
| Auth.HasRole | src/contexts/AuthContext.tsx:154-162 | false without a user; membership for an array; equality for one role |
| Auth.IsAuthenticated | src/contexts/AuthContext.tsx:166 | true iff there is a user |
| Auth.AuthSession.constructor | src/contexts/AuthContext.tsx:66-67 | no user, loading |
| Auth.AuthSession.Restore | src/contexts/AuthContext.tsx:71-77 | a stored user becomes the user; loading ends |
| Auth.AuthSession.Authenticated | src/contexts/AuthContext.tsx:166 | true iff there is a user |
| Auth.AuthSession.UserHasRole | src/contexts/AuthContext.tsx:155 | false without a user |
| Auth.AuthSession.Login | src/contexts/AuthContext.tsx:79-112 | on failure user and storage unchanged, no navigation; on success user and storage are the account minus password, navigation by role; loading ends false |
| Auth.AuthSession.Signup | src/contexts/AuthContext.tsx:114-145 | a taken email changes nothing; otherwise user and storage are `NewUser`, navigation to "/dashboard"; loading ends false |
| Auth.AuthSession.Logout | src/contexts/AuthContext.tsx:147-152 | no user, storage cleared, navigation to "/login" |
| ProtectedRoute.SomeRoleHeld | src/components/auth/ProtectedRoute.tsx:25 | `allowedRoles.some(hasRole)` holds iff there is a user whose role is listed |
| ProtectedRoute.Decide | src/components/auth/ProtectedRoute.tsx:9-34 | waiting view iff loading; "/login" with the location iff loaded and no user; render iff a user whose role is listed or no roles are given; every redirect replaces and goes to "/login" or "/dashboard" |
| ProtectedRoute.DecisionTable | src/components/auth/ProtectedRoute.tsx:13-33 | loading → waiting view; no user → "/login" with the location, replace; no or empty roles → render; else render iff the role is listed, otherwise "/dashboard" |
| ProtectedRoute.AuthenticatedNeverToLogin | src/components/auth/ProtectedRoute.tsx:19-33 | an authenticated user is redirected, if at all, only to "/dashboard" |
| ProtectedRoute.RenderedMeansAllowed | src/components/auth/ProtectedRoute.tsx:24-33 | rendered content implies not loading, a user, and a listed role when roles are given |
| ProtectedRoute.ViewerKeptOutOfAdmin | src/components/auth/ProtectedRoute.tsx:24-29 | a viewer on an admin-only route goes to "/dashboard" |
| ProtectedRoute.AdminNotPrivileged | src/components/auth/ProtectedRoute.tsx:24-29 | an admin on an owner-only route goes to "/dashboard" |
| Invoices.InvoiceShown | src/pages/Invoices.tsx:84-94 | shown iff (id or client contains the search, ignoring case) and (filter "all" or status equal) |
| Invoices.FilteredInvoices | src/pages/Invoices.tsx:84-94 | each shown invoice as often as it occurs in the table, and no other, as an order-preserving subsequence |
| Invoices.NoFilterShowsAll | src/pages/Invoices.tsx:86-91 | empty search with "all" shows every invoice |
| Invoices.StatusClasses | src/pages/Invoices.tsx:96-108 | paid, unpaid and overdue each have their own class; draft and every other status get the draft class |
| Invoices.StatusLabel | src/pages/Invoices.tsx:174 | same length; the first character is the upper case of the status's first (code point minus 32 for an ASCII small letter); the rest unchanged |
| Invoices.StatusLabels | src/pages/Invoices.tsx:174 | "paid" shows as "Paid", "overdue" as "Overdue" |
| AdminInvoices.StatusColor | src/pages/admin/AdminInvoices.tsx:79-84 | Paid green, Pending yellow, Overdue red, Draft gray; no colour for any other status |
| AdminInvoices.UniqueUsers | src/pages/admin/AdminInvoices.tsx:92 | no duplicates; every invoice's user present; only invoice users |
| AdminInvoices.DemoUserColumn | src/pages/admin/AdminInvoices.tsx:26-77 | the user column of the page's table is John Doe, Jane Smith, Alice Williams, John Doe, Charlie Brown |
| AdminInvoices.DemoUserOptions | src/pages/admin/AdminInvoices.tsx:26-92 | on the page's table John Doe and Charlie Brown are offered, and there are fewer user options than invoices |
| AdminInvoices.UniqueUsersInFirstOccurrenceOrder | src/pages/admin/AdminInvoices.tsx:92 | users are listed in order of first appearance |
| AdminInvoices.InvoiceShown | src/pages/admin/AdminInvoices.tsx:95-102 | search on id or client name ignoring case; status and user equal or their filter "" |
| AdminInvoices.FilteredInvoices | src/pages/admin/AdminInvoices.tsx:95-102 | each shown invoice as often as it occurs in the table, and no other, as an order-preserving subsequence |
| AdminInvoices.ClearedShowsAll | src/pages/admin/AdminInvoices.tsx:150-154 | after Clear Filters every invoice is shown |
| AdminInvoices.StatusFilterIsCaseSensitive | src/pages/admin/AdminInvoices.tsx:96-99 | the status filter "paid" hides a "Paid" invoice, while "Paid" acts like no status filter |
| AdminUsers.UserShown | src/pages/admin/AdminUsers.tsx:75-78 | listed iff the query occurs in name or email, ignoring case |
| AdminUsers.FilteredUsers | src/pages/admin/AdminUsers.tsx:75-78 | each shown user as often as it occurs in the table, and no other, as an order-preserving subsequence |
| AdminUsers.EmptyQueryShowsAll | src/pages/admin/AdminUsers.tsx:76-77 | an empty query lists every user |
| AdminUsers.OnlyNameAndEmailSearched | src/pages/admin/AdminUsers.tsx:75-78 | role, plan and status do not affect the search |
| AccountSettings.CheckPasswordChange | src/pages/AccountSettings.tsx:49-64 | mismatch iff new ≠ confirm; missing current iff they match and current is empty; changed otherwise |
| AccountSettings.EmptyNewPasswordAccepted | src/pages/AccountSettings.tsx:60-63 | an empty, confirmed new password is accepted |
| AccountSettings.MismatchReportedFirst | src/pages/AccountSettings.tsx:50-58 | with a mismatch and no current password, the mismatch is reported |
| AccountSettings.Initials | src/pages/AccountSettings.tsx:86 | never longer than the name; starts with the name's first character when that is not a space |
| AccountSettings.InitialsOfTwoParts | src/pages/AccountSettings.tsx:86 | initials of "word rest" are the word's initial followed by the initials of rest |
| AccountSettings.InitialsOfWord | src/pages/AccountSettings.tsx:86 | a name without spaces has its first character as initials |
| AccountSettings.InitialsExamples | src/pages/AccountSettings.tsx:86 | "John Doe" gives "JD"; "" gives "" |
| AccountSettings.AccountSettingsPage.constructor | src/pages/AccountSettings.tsx:33-43 | the initial profile and empty password fields, dialog closed |
| AccountSettings.AccountSettingsPage.ChangePassword | src/pages/AccountSettings.tsx:49-64 | outcome is `CheckPasswordChange`; on success the three fields become "", otherwise unchanged; profile untouched |
| AccountSettings.AccountSettingsPage.DeleteAccount | src/pages/AccountSettings.tsx:66-70 | closes the dialog; profile and password fields untouched |
| AuthForms.HandleLogin | src/pages/Login.tsx:16-25 | no call iff email or password empty; otherwise login with exactly those values |
| AuthForms.RememberMeIgnored | src/pages/Login.tsx:13-24 | "remember me" does not affect the call |
| AuthForms.HandleSignup | src/pages/Signup.tsx:17-30 | no call iff a field is empty or the terms are not accepted; otherwise signup with exactly the values |
| AuthForms.ShortPasswordAccepted | src/pages/Signup.tsx:17-30 | a one-character password reaches signup: the 8-character hint is not enforced |
| ForgotPassword.ForgotPasswordPage.constructor | src/pages/ForgotPassword.tsx:11-12 | empty email, not submitted |
| ForgotPassword.ForgotPasswordPage.CurrentView | src/pages/ForgotPassword.tsx:29-48 | the confirmation, showing the email, iff submitted |
| ForgotPassword.ForgotPasswordPage.SetEmail | src/pages/ForgotPassword.tsx:66 | sets the email only |
| ForgotPassword.ForgotPasswordPage.Submit | src/pages/ForgotPassword.tsx:14-27 | empty email: error, submitted unchanged; otherwise submitted; email kept |
| ForgotPassword.ForgotPasswordPage.TryAgain | src/pages/ForgotPassword.tsx:42 | back to not submitted, email kept |
| ForgotPassword.SubmitThenTryAgain | src/pages/ForgotPassword.tsx:14-48 | empty email stays on the form, a filled one shows the confirmation, "Try again" returns to the form |

## Left out

- Rendering: JSX, component libraries, badges, `toFixed`, date formatting and the dialogs' open/close wiring beyond the `open` flags.
- JavaScript numbers: `Number(...)` and `parseFloat(...)` are given as already-parsed reals; NaN, floating-point rounding and non-numeric input are not modelled.
- Unicode case mapping: `toLowerCase`/`toUpperCase` are modelled on ASCII letters only.
- AccountSettings.Initials: JavaScript's `n[0]` takes a UTF-16 code unit, while the model takes a whole character; the two differ for a name starting with a character outside the Basic Multilingual Plane, such as an emoji.
- The mock invoice table of src/pages/Invoices.tsx is not reproduced; the invoice filter is modelled over any table.
- Toasts other than those of the change-password and forgot-password forms (login, signup, logout, profile update, account deletion) are not modelled; a failed login or signup shows as the absence of a navigation target.
- The clock and randomness: the generated invoice number, issue and due dates, client creation dates and payment dates are parameters or not modelled.
- Auth side effects: the simulated one-second delay, the asynchronous interleaving of `isLoading`, `JSON.stringify`/`JSON.parse` of the stored user (storage holds the user value itself), and `navigate` (returned as a path).
- Clients.ClientsPage.Change: the input's `name` attribute is limited to the five text fields the dialog renders; an arbitrary key added to the form is not modelled.
- CreateInvoice.WithField: `updateLineItem` takes `value: any`; the model pairs each field with a value of its own type, so a string written into `quantity` is not modelled.
- The route table of src/App.tsx is not part of this model; the guard is modelled as a decision, not as wired into any route.
- Dashboard, admin dashboard, branding, team and admin settings pages, layouts and navigation bars: static data and presentation with no logic.
