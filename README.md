# Family space: the in-memory state of the dashboard pages

A Dafny model of the client-side state logic of the family web application:
the task list, the family chat, the photo album and the mock authentication
context that the dashboard layout and its home, chat, task and profile pages
read the signed-in user from.

Each page keeps its data in React state slots and replaces them from event
handlers. The model gives each page a class whose fields are those slots and
whose methods are the handlers. The `map` and `filter` transforms are pure
functions with lemmas about what they keep; the spread append and prepend are
sequence concatenations whose effect the handlers' `ensures` clauses state.

- `Js` (`js.dfy`): the JavaScript primitives the pages lean on.
  - `null`/`undefined` as `Option` and a thrown error as `Result`.
  - `String.prototype.trim`, using the exact set of ECMAScript whitespace and line-terminator code points.
  - `s.split(sep)[0]`.
  - `Number.prototype.toString()` on non-negative integers.
- `Auth` (`auth.dfy`): `AuthProvider` holds three fields.
  - `user`, `isLoading`, and `stored`, the browser-storage entry `family_app_user`.
  - Its methods are the mount-time restore, `login`, `signup` and `logout`.
  - `UseAuth` is the accessor that throws outside a provider.
  - `login`/`signup` are split at their `await`: `BeginRequest` sets the loading flag, then `CompleteLogin`/`CompleteSignup` publish the user.
  - `LogoutDuringLogin` shows a logout landing in that gap. The pending login still signs the user in.
- `TodoList` (`todo.dfy`): the task records and the page class `TodoPage`.
  - The records are `{id, text, completed, type, assignee?}`. `type` is a reserved word in Dafny, so the field is called `kind`.
  - `Toggle`, `Delete` and `OfTab` model the three list transforms; `TodoPage` holds the active tab, the list and the input box.
- `Chat` (`chat.dfy`): the message log and input box (`ChatPage`), the last-message preview and the own-message test.
- `Photos` (`photos.dfy`): the seeded album (`PhotosPage`) and the upload that puts a new photo in front.

The authentication context in `lib/auth-context.tsx` is a local mock: it
keeps the user in React state and browser storage and answers `login` and
`signup` after a fixed delay, without contacting any server. The login and
signup pages talk to the hosted backend directly instead. Two consequences of
the mock are worth noting:

- A logout does not cancel a login that is still waiting. `LogoutDuringLogin` shows the user ends up signed in.
- A logged-in user always has a usable name, because `LoginName` is never empty. A signed-up user's name is whatever was given.

## Model

| member | source | states |
|---|---|---|
| Js.TrimStart | app/dashboard/todo/page.tsx:43 | leading whitespace removed: a suffix of the input, not starting with whitespace, with only whitespace dropped |
| Js.TrimEnd | app/dashboard/chat/page.tsx:36 | trailing whitespace removed: a prefix of the input, not ending with whitespace, with only whitespace dropped |
| Js.Trim | app/dashboard/todo/page.tsx:43 | `trim()` neither starts nor ends with whitespace, and is empty exactly when the input is all whitespace (the handlers' `!x.trim()` guard) |
| Js.TrimIsPiece | app/dashboard/chat/page.tsx:36 | what `trim()` returns occurs in the input as it is, starting right after the leading whitespace, and everything before and after it is whitespace |
| Js.SplitHead | lib/auth-context.tsx:45 | `split(sep)[0]` is the prefix of the input that holds no separator and stops right before the first one, or the whole input |
| Js.SplitHeadUnique | app/dashboard/photos/page.tsx:34 | those three facts determine `split(sep)[0]` uniquely |
| Js.DecimalString | app/dashboard/chat/page.tsx:39 | `toString()` of a non-negative integer is a non-empty digit string with no leading zero, and `0` prints as `0` |
| Js.DecimalRoundTrip | app/dashboard/photos/page.tsx:32 | reading the printed digits back gives the number |
| Js.DecimalStringInjective | app/dashboard/chat/page.tsx:39 | distinct numbers print as distinct strings |
| Auth.AvatarFor | lib/auth-context.tsx:48 | the avatar URL is the dicebear seed URL followed by the email exactly as given |
| Auth.LoginUser | lib/auth-context.tsx:43-49 | the login user has id `1`, the email verbatim, the name `LoginName(email)` (`email.split('@')[0] || 'Family Member'`, so non-empty and without `@`), family `family_123` and the email-keyed avatar |
| Auth.SignupUser | lib/auth-context.tsx:60-66 | the signup user has the given id, name and email verbatim, family `family_123` and the email-keyed avatar |
| Auth.LoginName | lib/auth-context.tsx:45 | the login name is never empty; it is `Family Member` when the email is empty or starts with `@`, otherwise the `@`-free prefix ending at the first `@` or at the end |
| Auth.LoginNameHasNoAt | lib/auth-context.tsx:45 | a login name never contains `@` |
| Auth.LoginNameOfAddress | lib/auth-context.tsx:45 | for `local@domain` with non-empty, `@`-free `local`, the name is `local` |
| Auth.AuthProvider.constructor | lib/auth-context.tsx:25-26 | the provider starts with no user, loading, and storage as the browser holds it |
| Auth.AuthProvider.Restore | lib/auth-context.tsx:28-35 | a stored user becomes `user`, an absent one leaves `user`; loading ends false either way; storage is untouched |
| Auth.AuthProvider.BeginRequest | lib/auth-context.tsx:38 | login and signup set loading first and change nothing else |
| Auth.AuthProvider.Publish | lib/auth-context.tsx:51-53 | `user` and the stored copy become the same new user and loading ends |
| Auth.AuthProvider.CompleteLogin | lib/auth-context.tsx:42-53 | after the delay, `user` and storage hold the login user (id `1`, derived name, verbatim email, `family_123`, seed-URL avatar) and loading is false |
| Auth.AuthProvider.CompleteSignup | lib/auth-context.tsx:60-70 | after the delay, `user` and storage hold the signup user (given id, name and email, `family_123`, seed-URL avatar) and loading is false |
| Auth.AuthProvider.Login | lib/auth-context.tsx:37-54 | a whole login ends with the login user signed in and stored, not loading, and the invariant that a signed-in user is the stored one |
| Auth.AuthProvider.Signup | lib/auth-context.tsx:56-71 | a whole signup ends with the signup user signed in and stored, not loading |
| Auth.AuthProvider.Logout | lib/auth-context.tsx:73-76 | logout leaves no user and no stored user, and does not touch the loading flag |
| Auth.LogoutDuringLogin | lib/auth-context.tsx:37-54 | a logout between a login's start and its completion does not prevent the login from signing the user in |
| Auth.UseAuth | lib/auth-context.tsx:85-91 | `useAuth` throws exactly when no provider is present, with the message `useAuth must be used within an AuthProvider`, and otherwise returns the context |
| TodoList.Toggle | app/dashboard/todo/page.tsx:31-35 | toggling keeps length and positions, changes no field but `completed`, and flips `completed` exactly on the records with the given id |
| TodoList.Delete | app/dashboard/todo/page.tsx:37-39 | no record with the deleted id survives and the list does not grow |
| TodoList.NewTodo | app/dashboard/todo/page.tsx:45-51 | the new record has the given id, the text as typed, is not completed, has the active tab's type, and an assignee exactly when a user is signed in, namely that user's name |
| TodoList.DeleteKeepsOthers | app/dashboard/todo/page.tsx:38 | every record with another id survives as often as it occurred |
| TodoList.DeleteKeepsOrder | app/dashboard/todo/page.tsx:38 | the surviving records keep their relative order |
| TodoList.DeleteAbsent | app/dashboard/todo/page.tsx:38 | deleting an id no record has leaves the list unchanged |
| TodoList.DeleteRemovesOne | app/dashboard/todo/page.tsx:37-39 | with distinct ids, deleting a present id shortens the list by exactly one |
| TodoList.ToggleTwice | app/dashboard/todo/page.tsx:32-34 | toggling the same id twice restores the list |
| TodoList.ToggleAbsent | app/dashboard/todo/page.tsx:32-34 | toggling an id no record has leaves the list unchanged |
| TodoList.OfTab | app/dashboard/todo/page.tsx:29 | the filtered view holds only records of the tab and is no longer than the list |
| TodoList.OfTabKeepsAll | app/dashboard/todo/page.tsx:29 | the filtered view holds every record of the tab, as often as it occurs |
| TodoList.OfTabKeepsOrder | app/dashboard/todo/page.tsx:29 | the filtered view keeps list order |
| TodoList.TabsPartition | app/dashboard/todo/page.tsx:29 | the shared and personal views together are the list, counted with multiplicity, with no record in both |
| TodoList.OfTabAppend | app/dashboard/todo/page.tsx:53 | the view of a concatenation is the concatenation of the views |
| TodoList.AppendGrowsOneView | app/dashboard/todo/page.tsx:49-53 | appending a record grows its tab's view by that record at the end and leaves the other tab's view unchanged |
| TodoList.InitialViews | app/dashboard/todo/page.tsx:22-26 | the initial list has distinct ids, its first two records are the shared view and the third is the personal view |
| TodoList.TodoPage.constructor | app/dashboard/todo/page.tsx:21-27 | the page starts on the shared tab with the three seed tasks and an empty input |
| TodoList.TodoPage.FilteredTodos | app/dashboard/todo/page.tsx:29 | the page's filtered list holds only records of the active tab and is no longer than the list |
| TodoList.TodoPage.SelectTab | app/dashboard/todo/page.tsx:64-75 | clicking a tab changes only the active tab |
| TodoList.TodoPage.EditInput | app/dashboard/todo/page.tsx:108-114 | typing changes only the input |
| TodoList.TodoPage.ToggleTodo | app/dashboard/todo/page.tsx:31-35 | the list becomes its toggle; tab and input unchanged |
| TodoList.TodoPage.DeleteTodo | app/dashboard/todo/page.tsx:37-39 | the list becomes its deletion; tab and input unchanged |
| TodoList.TodoPage.HandleAdd | app/dashboard/todo/page.tsx:41-55 | a blank input changes nothing; otherwise exactly one record is appended (untrimmed text, not completed, active tab, the user's name or none), the active view grows by it, the other view is unchanged, and the input is cleared |
| Chat.Preview | app/dashboard/chat/page.tsx:75 | the preview is never empty: the last message's text, or `대화가 없습니다.` when there is no message or the last text is empty |
| Chat.IsOwn | app/dashboard/chat/page.tsx:93 | with nobody signed in no message is own; otherwise a message is own exactly when its sender id is the user's id |
| Chat.Compose | app/dashboard/chat/page.tsx:38-45 | the new message carries the raw input text, the send time, the user's id, name and avatar, a non-empty id printed from the clock reading, and is own for that user |
| Chat.SendOutcome | app/dashboard/chat/page.tsx:36-47 | appending the message composed from non-blank input makes its text the preview and the last message own for the sender |
| Chat.ComposedIsOwn | app/dashboard/chat/page.tsx:93 | a message is own for a viewer exactly when a viewer is signed in with the sender's id; the sender sees their own message as own |
| Chat.PreviewAfterSend | app/dashboard/chat/page.tsx:47 | after any message with non-empty text is appended, the preview is its text |
| Chat.ComposedIdsDiffer | app/dashboard/chat/page.tsx:39 | messages composed at distinct clock readings get distinct ids |
| Chat.ChatPage.constructor | app/dashboard/chat/page.tsx:22-23 | the chat starts with no messages and an empty input |
| Chat.ChatPage.EditInput | app/dashboard/chat/page.tsx:112-116 | typing changes only the input |
| Chat.ChatPage.HandleSend | app/dashboard/chat/page.tsx:34-48 | a blank input or no user changes nothing; otherwise exactly one message (raw text, the user's id, name and avatar) is appended after the unchanged earlier ones, it is own for the user, the preview becomes its text and the input is cleared |
| Photos.PhotoUrl | app/dashboard/photos/page.tsx:32 | the upload URL is `https://picsum.photos/seed/`, then the clock reading in decimal, then `/400/400` |
| Photos.Accepts | app/dashboard/photos/page.tsx:29 | a title is taken only when the prompt was answered, and then exactly when the answer is non-empty |
| Photos.NewPhoto | app/dashboard/photos/page.tsx:30-36 | the new photo has the entered title, author `Me`, the clock reading as id, the seeded URL, and as date the prefix of the ISO text before its first `T` |
| Photos.MockPhotosIds | app/dashboard/photos/page.tsx:16-22 | the seed album has five photos with ids 1 to 5 in order |
| Photos.NewPhotoDate | app/dashboard/photos/page.tsx:34 | an upload's date is the part of the ISO timestamp before `T` |
| Photos.AcceptsBlankTitle | app/dashboard/photos/page.tsx:29 | a cancelled prompt or an empty title is refused, but every non-empty title of whitespace, which `trim()` turns into the empty string that the task and chat guards refuse, is taken |
| Photos.PhotosPage.constructor | app/dashboard/photos/page.tsx:25 | the album starts as the five seed photos in their listed order |
| Photos.PhotosPage.HandleUpload | app/dashboard/photos/page.tsx:27-39 | a refused title leaves the album unchanged; otherwise the album grows by one, the new photo (entered title, author `Me`) is first, and the earlier photos follow unchanged and in order |

## Left out

- Timers: the one-second delays in `login`/`signup` and the chat's simulated auto-reply after 1.5 seconds are not modelled. Login and signup are split at their `await` instead, and nothing else runs between the two halves unless a caller says so (`LogoutDuringLogin`).
- Browser storage and JSON: `stored` is an abstract `Option<User>`. A storage entry that does not parse, or an empty-string entry, is not modelled.
- Clocks and randomness are method parameters and are not modelled:
  - `Date.now()`, `new Date()` and its ISO text;
  - the random base-36 signup id;
  - the answer to `prompt()`.
- Numbers: ids and clock readings are Dafny `int`/`nat`, not IEEE doubles. `toString()` is modelled only for the non-negative integers `Date.now()` returns.
- React semantics: re-rendering, effects other than the restore, batching of state updates and stale closures are not modelled. Each handler is one atomic update of its page's fields.
- Rendering-only code is not modelled:
  - the message list markup, scrolling to the bottom and the avatar and author display;
  - the "no tasks" and "first message" placeholders;
  - CSS class composition.
- The calendar page is not modelled. Its month grid is built with date-library calls over JS `Date`, and event entry goes through `prompt()`.
- lib/timeout.ts is not modelled. It races a promise against a timer, so its behaviour is purely about asynchronous timing.
- Pages that only lay out or route are not part of this model:
  - the root, dashboard home and profile pages and the layouts;
  - the UI components.
- The login and signup pages (app/(auth)/login/page.tsx, app/(auth)/signup/page.tsx) are not modelled. They call the hosted backend directly, which is backend I/O:
  - login signs in with a password and shows an alert on error;
  - signup creates the account, then either looks up a family by invite code or inserts a new family with a random invite code, and updates the user's profile row.
- Neither page calls the mock context's `login` or `signup`, so `AuthProvider.Login` and `AuthProvider.Signup` model operations that no page calls.
- Apart from the signup page's family and profile writes above, the program has no backend session bootstrap, profile reconciliation, retry, recovery upsert or realtime feed, so the model has none either.
