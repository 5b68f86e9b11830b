# Soulmate Whispers — a Dafny model of the client-side rules

Soulmate Whispers is a dating web app. A React client talks to a Supabase
(PostgREST) backend with four tables: `profiles`, `matches`, `messages` and
`credits`. Every rule of the app is in the client pages:

- who is offered on the swipe page;
- what a "like" writes;
- how a sent message is charged against the user's credits;
- what the profile form saves and loads back;
- who gets into the admin dashboard and what a credit top-up writes;
- how the five seed profiles are created;
- what the home page counts.

This project models those pages over an in-memory stand-in for the backend,
and proves what each operation does to the tables and to the page state.

## Layout

- `wrappers.dfy`: `Option`.
- `rows.dfy`: the table rows and the two write payloads.
- `text.dfy`: JavaScript `parseInt` (decimal) and `Number.prototype.toString`
  for integers, with the round trip between them.
- `backend.dfy`: the tables and the query semantics. It has `.eq` filters,
  `.limit(n)` and `.single()`:
  - exactly one row gives that row;
  - zero or several rows give PGRST116;
  - a failed call gives an error.

  The `Store` class holds the tables, a supply of fresh ids and a clock for
  `created_at`. Its invariant keeps every row's id below the next id to hand
  out, so each inserted id is new to its table. Its write methods take the outcome of the call as a
  parameter. A JavaScript `NaN` is sent as `null`, and the NOT NULL columns
  (`profiles.age`, `credits.balance`) then refuse the write. The one
  exception is an UPDATE that matches no row: it succeeds.
- `messages.dfy`, `discover.dfy`, `profile.dfy`, `admin.dfy`, `index.dfy`:
  one module per page. A page is a class whose fields are the page's React
  state. Each handler is a method that takes the store and the outcomes of
  its backend calls.
- `seeding.dfy`: `createFakeProfiles`.

Some properties are worth pointing out:

- The credit debit is a blind write of the page's own count minus one
  (`SendDebitsLocalCount`, `DebitIgnoresStoredBalance`). Two pages that each
  loaded a balance of 1 can send two messages and leave the balance at 0
  (`TwoPagesShareOneCredit`).
- A like is never deduplicated (`LikeIsNeverDeduplicated`).
- The admin page renders the dashboard while the admin flag is still
  unknown (`ViewOf`).
- When the seed existence check fails, the seeds are inserted again
  (`FailedCheckReseeds`).

## Model

| member | source | states |
|---|---|---|
| `Text.ParseShowRoundTrip` | src/pages/Profile.tsx:88 | `parseInt` of the decimal text `toString` writes for any integer gives that integer back |
| `Text.TrimStart` | src/pages/Admin.tsx:148 | `parseInt`'s leading-whitespace skip: the result is a suffix of the input, every dropped character is whitespace, and the result does not start with whitespace |
| `Text.DigitPrefix` | src/pages/Admin.tsx:148 | `parseInt` reads the longest run of decimal digits: a prefix, all digits, maximal |
| `Backend.SingleOf` | src/pages/Profile.tsx:36-45 | `.single()` yields a row exactly when the call is reachable and exactly one row matches, and that row is one of the matches |
| `Backend.ReadBalance` | src/pages/Messages.tsx:77-91 | the balance read yields a value exactly when the user has one credits row, and the value is that row's balance |
| `Backend.ConversationInTimeOrder` | src/pages/Messages.tsx:97-101 | in a table written in clock order, a conversation's rows are exactly that match's rows, in ascending `created_at` |
| `Backend.SetBalance` | src/pages/Admin.tsx:150-153 | `update({balance}).eq('user_id', uid)` rewrites the balance of every row of `uid` and leaves every other row as it was |
| `Backend.SetBalanceKeepsOthers` | src/pages/Messages.tsx:174-177 | a balance update leaves every other user's credit rows unchanged |
| `Backend.SetBalanceWithoutRow` | src/pages/Admin.tsx:150-153 | updating a user with no credits row changes nothing; no row is created |
| `Backend.SetBalanceReadBack` | src/pages/Admin.tsx:142-153 | with one row for the user, reading the balance back after the update gives the value written |
| `Backend.TotalBalance` | src/pages/Admin.tsx:94 | the sum of all balances; it is nonnegative when every balance is |
| `Backend.TotalAfterSetBalance` | src/pages/Admin.tsx:94 | rewriting a user's only row moves the total by exactly the change of that row |
| `Backend.UpdateProfiles` | src/pages/Profile.tsx:96-98 | the update half of the upsert: every row of the user gets the payload's columns, and other rows stay |
| `Backend.UpdateKeepsOthers` | src/pages/Profile.tsx:96-98 | the upsert's update leaves other users' profile rows unchanged |
| `Backend.UpdateWithoutRow` | src/pages/Profile.tsx:96-98 | with no row for the user, the update half changes nothing |
| `Backend.UpdateOwnRow` | src/pages/Profile.tsx:96-98 | the user's only row, after the update, carries the payload's columns and keeps its id, picture and flags |
| `Backend.UpsertKeepsOthers` | src/pages/Profile.tsx:96-98 | an upsert on `user_id` leaves every other user's rows unchanged, whether it inserts or updates |
| `Backend.UpsertOwnRow` | src/pages/Profile.tsx:96-98 | after an upsert, a user who had at most one row has exactly one, carrying the payload |
| `Backend.Materialize` | src/utils/createFakeProfiles.ts:80-82 | a multi-row insert stores the rows in order, with consecutive ids from the store's next id, their user ids and their seed flags |
| `Backend.Store.InsertMessage` | src/pages/Messages.tsx:154-161 | a successful insert appends exactly one message row with the current time and an id no existing message has; a failed one changes nothing; the clock-order and id invariants are kept |
| `Backend.Store.InsertMatch` | src/pages/Discover.tsx:75-80 | a successful insert appends one match row with an id no existing match has; a failed one changes nothing |
| `Backend.Store.UpdateBalance` | src/pages/Messages.tsx:174-177 | the update succeeds exactly when the call goes through and either the balance is a number or no row matches; a `NaN` balance writes nothing |
| `Backend.Store.UpsertProfile` | src/pages/Profile.tsx:96-98 | the upsert succeeds exactly when the call goes through and the age is a number; on success the profiles table is the upserted one, and otherwise nothing changes |
| `Backend.Store.InsertProfiles` | src/utils/createFakeProfiles.ts:80-82 | an insert of several rows adds all of them in one statement, with ids no existing profile has, or none |
| `MessagesPage.Guard` | src/pages/Messages.tsx:139-149 | a send proceeds exactly when the draft is not blank, a match is selected, a user is signed in and the local count is positive; it is refused for credits exactly when only the count fails |
| `MessagesPage.Page.constructor` | src/pages/Messages.tsx:31-36 | the page's initial state |
| `MessagesPage.Page.FetchCredits` | src/pages/Messages.tsx:77-91 | a single balance row replaces the local count; any error keeps it |
| `MessagesPage.Page.FetchMatches` | src/pages/Messages.tsx:52-75 | on success the list is the user's own match rows; on error it is unchanged |
| `MessagesPage.Page.SelectMatch` | src/pages/Messages.tsx:222 | clicking a match selects it |
| `MessagesPage.Page.EditDraft` | src/pages/Messages.tsx:311 | typing replaces the draft |
| `MessagesPage.Page.FetchMessages` | src/pages/Messages.tsx:93-112 | the selected conversation's rows, in ascending time order; without a selection or on error, no change |
| `MessagesPage.Page.OnRealtimeInsert` | src/pages/Messages.tsx:127-129 | a pushed row is appended to the list as it is |
| `MessagesPage.Page.SendMessage` | src/pages/Messages.tsx:138-200 | the store and the draft, count and busy flag after a send are exactly those given by `Send`; the lemmas below spell those out |
| `MessagesPage.SendIgnoresIncompleteInput` | src/pages/Messages.tsx:139 | a blank draft, no selection or no user changes nothing, `loading` included |
| `MessagesPage.SendRefusedWithoutCredit` | src/pages/Messages.tsx:142-149 | with no local credit, no message is stored and no balance is written |
| `MessagesPage.SendFailedInsertKeepsDraft` | src/pages/Messages.tsx:163-171 | a failed insert stores nothing, debits nothing, keeps the draft and clears `loading` |
| `MessagesPage.SendAppendsOneMessage` | src/pages/Messages.tsx:154-161 | a successful insert adds exactly one row, in the selected match, from the user, with the draft as typed and `is_admin_reply` false; the conversation as fetched ends with it; the draft is cleared |
| `MessagesPage.SendDebitsLocalCount` | src/pages/Messages.tsx:174-183 | the stored balance is set to the page's count minus one only when the debit succeeds, and the page's count drops by one only then |
| `MessagesPage.PushExtendsFetch` | src/pages/Messages.tsx:114-131 | a pushed row of the selected conversation is what a fresh fetch would show at the end |
| `MessagesPage.OtherConversationInvisible` | src/pages/Messages.tsx:97-101 | rows of other conversations do not change what a fetch shows |
| `MessagesPage.DebitIgnoresStoredBalance` | src/pages/Messages.tsx:176 | the debit writes the page's count minus one; with a stale count, that is not the stored balance minus one |
| `MessagesPage.TwoPagesShareOneCredit` | src/pages/Messages.tsx:138-183 | two pages that each loaded a balance of 1 both send: two messages are stored and the balance reads 0 |
| `DiscoverPage.Candidates` | src/pages/Discover.tsx:48-53 | the first min(10, number eligible) profiles of the sought gender that are not the user's own, in table order |
| `DiscoverPage.CandidatesComplete` | src/pages/Discover.tsx:48-53 | when at most ten profiles qualify, every one is offered, seed or not |
| `DiscoverPage.LikeIsNeverDeduplicated` | src/pages/Discover.tsx:75-80 | each like of the same profile adds one more row for that (user, profile) pair |
| `DiscoverPage.Page.constructor` | src/pages/Discover.tsx:23-25 | an empty list, cursor 0, loading |
| `DiscoverPage.Page.FetchProfiles` | src/pages/Discover.tsx:33-66 | the list becomes the candidates for the user's own `seeking_gender` when that single read gives a non-empty preference and the query succeeds; otherwise it is unchanged; `loading` ends false |
| `DiscoverPage.Page.HandleSwipe` | src/pages/Discover.tsx:68-97 | past the end or without a user nothing changes; otherwise a successful like appends one match for the current profile and the cursor moves on by one whatever the outcome |
| `ProfilePage.FormOf` | src/pages/Profile.tsx:47-58 | the form shows `null` columns as empty, and its age text parses back to the stored age |
| `ProfilePage.SaveThenLoad` | src/pages/Profile.tsx:85-98 | saving a form whose age is an integer's text and loading it back gives the same form, except the picture, which keeps the stored value |
| `ProfilePage.Page.constructor` | src/pages/Profile.tsx:14-25 | an empty form, not loading, no credits |
| `ProfilePage.Page.FetchProfile` | src/pages/Profile.tsx:34-62 | a single row replaces the form; no row (PGRST116) and every other error leave it unchanged |
| `ProfilePage.Page.FetchCredits` | src/pages/Profile.tsx:64-78 | a single balance row replaces the count; otherwise it is kept |
| `ProfilePage.Page.Edit` | src/pages/Profile.tsx:178 | editing replaces the form |
| `ProfilePage.Page.HandleSave` | src/pages/Profile.tsx:80-121 | without a user nothing happens; otherwise the save succeeds exactly when the call goes through and the age parses, the profiles table is upserted on success and untouched otherwise, and `loading` ends false |
| `AdminPage.AdminFlag` | src/pages/Admin.tsx:53 | admin exactly when the single profile row was read and its `is_admin` is true |
| `AdminPage.AdminGateClosedByDefault` | src/pages/Admin.tsx:45-58 | the gate opens exactly when the user has one profile row and it says `is_admin = true` |
| `AdminPage.ViewOf` | src/pages/Admin.tsx:167-180 | redirect exactly when loaded and the flag is false; dashboard exactly when loaded and the flag is not false, unknown included |
| `AdminPage.ReduceIsTotal` | src/pages/Admin.tsx:94 | the page's left-fold `reduce` over the credit rows, from any start, adds exactly the sum of all balances |
| `AdminPage.TopUpAddsAmount` | src/pages/Admin.tsx:142-153 | for a user with one row, the top-up writes balance plus amount, reads back as that, raises the total by exactly the amount and leaves other users alone |
| `AdminPage.TopUpWithoutRowCreatesNothing` | src/pages/Admin.tsx:142-153 | a user without a credits row counts as 0, and the update creates no row |
| `AdminPage.Page.constructor` | src/pages/Admin.tsx:26-36 | unknown admin flag, empty table and totals, loading |
| `AdminPage.Page.CheckAdminStatus` | src/pages/Admin.tsx:45-58 | the flag becomes known, and true only for a single admin row |
| `AdminPage.Page.CollectUserStats` | src/pages/Admin.tsx:105-124 | one table row per real profile, in order, carrying its ids, name and time, the placeholder e-mail, the balance or 0, and zero matches and messages |
| `AdminPage.Page.FetchDashboardData` | src/pages/Admin.tsx:60-132 | when the user list is read, the table has one row per profile with `is_fake_profile = false`, with its balance, and the users total equals the table's length when its count read succeeds; the credits total is the sum of all balances; `loading` ends false |
| `AdminPage.Page.AddCredits` | src/pages/Admin.tsx:134-165 | without a selected user or an amount nothing happens; otherwise the selected user's balance becomes the top-up sum exactly when the update succeeds with a number, and the form is cleared exactly on success |
| `Seeding.SeedProfiles` | src/utils/createFakeProfiles.ts:4-65 | five rows, each with its generated user id, the seed flag set, and the fixed name, age, genders and texts |
| `Seeding.SeedComposition` | src/utils/createFakeProfiles.ts:4-65 | three women seeking men and two men seeking women, all flagged as seeds |
| `Seeding.SeedingIsIdempotent` | src/utils/createFakeProfiles.ts:69-77 | once a seeding insert has succeeded, a later run with a working check inserts nothing |
| `Seeding.FailedCheckReseeds` | src/utils/createFakeProfiles.ts:69-74 | when the existence check fails, the five seeds are inserted again, and the seed count grows by five |
| `Seeding.CreateFakeProfiles` | src/utils/createFakeProfiles.ts:67-91 | the profiles table becomes `Seeded`: unchanged when seeds were found or the insert failed, the five seeds appended otherwise; nothing else changes |
| `IndexPage.MatchIds` | src/pages/Index.tsx:42 | one id per match, every match's id present, and nothing else |
| `IndexPage.FetchStats` | src/pages/Index.tsx:26-67 | the matches counter is the number of the user's match rows, or 0 when the count read fails; no matches means 0 messages; a nonzero credit counter is one of the user's balances |
| `IndexPage.MessagesStatCountsOwnConversations` | src/pages/Index.tsx:35-50 | when both reads succeed, the messages counter is the number of messages in the user's own conversations |
| `IndexPage.WelcomeIffNoMatches` | src/pages/Index.tsx:230 | the welcome card is shown exactly when the count read failed or the user has no match row |
| `IndexPage.CreditsStatIsBalance` | src/pages/Index.tsx:53-62 | the credits counter is the balance of the user's single row, and 0 without a row |
| `IndexPage.Featured` | src/pages/Index.tsx:75-87 | on success the first min(5, number of seeds) seed rows of the table, in table order; none on error |

## Left out

- Rendering, toasts, navigation and console logging are not modelled. Only the state they read is.
- Authentication (`useAuth`) is a parameter: each page gets its user as `Option<Id>`.
- The realtime channel's lifecycle is not modelled. The handler is
  `OnRealtimeInsert`, and the server-side `match_id` filter is the caller's
  concern. The cleanup function that `subscribeToMessages` returns is
  discarded by the effect, so old subscriptions keep appending after the
  selection changes. The model leaves that to the caller.
- `revenue` on the admin page is not modelled: it is a floating-point sum over a `transactions` table outside the four modelled tables.
- `AdminPage.Page.AddCredits`: the un-awaited `fetchDashboardData()` refresh after a successful top-up is left out; `FetchDashboardData` is modelled on its own.
- `Text.TrimStart`: `parseInt` is modelled for decimal text with ASCII whitespace only. Hexadecimal prefixes, Unicode whitespace and numbers beyond the safe-integer range are not.
- Text.Blank: the draft check `newMessage.trim()` is modelled with ASCII whitespace only; a draft made only of other Unicode whitespace (such as U+00A0) is ignored by the page but sent and charged in the model.
- Timestamps are an abstract clock that every insert and upsert advances; a balance update leaves it alone. The text form of `created_at` and the `updated_at` columns are not modelled.
- Backend.InsertedProfile: the database defaults for columns an upsert omits are not visible in the source. The model takes `is_admin` and `is_fake_profile` to default to false, and the picture and video to be absent.
- `.limit(n)` takes the first `n` rows in table order. PostgREST does not promise an order without `.order`.
- The joined `profiles:matched_profile_id(...)` shape of the match list on the chat page is not modelled. `FetchMatches` keeps the match rows themselves.
- Concurrency is modelled only as the sequential interleaving of `TwoPagesShareOneCredit`.
- `Seeding.CreateFakeProfiles`: the seed bios and picture URLs are a parameter (`SeedTexts()` holds the fixed texts) so that the proofs hold for any five texts; `crypto.randomUUID()` values are a parameter too.
- The bottom navigation bar, the Capacitor configuration and the generated `types.ts` are not part of this model, beyond the row shapes in `rows.dfy`.
- `CheckAdminStatus`'s `catch` branch is not modelled: the Supabase client reports errors in its result and does not throw.
