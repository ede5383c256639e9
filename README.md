# BuddyBot session and credential store, in Dafny

BuddyBot is a Streamlit app (`chatbot_login_app.py`). A visitor signs up and signs in. They pick one
of five specialisation domains, upload a CSV to "train" the bot, and chat with a placeholder bot. The
bot's reply is a fixed template that quotes the prompt. This project models the logic under the UI:

- the session record (`st.session_state`): the page shown, the signed-in email, the selected domain,
  every domain's transcript (`chat_history`) and the active transcript (`messages`);
- the callbacks that change the session: navigation, domain selection, "Change Domain", chat
  submission, logout and the upload page's sign-in check;
- the SQLite tables `users` (unique email) and `datasets` (rows only appended), with the sign-up,
  sign-in and "Train Bot" handlers that use them;
- the pure pieces: the `DOMAINS` catalog, the reply template, and the sidebar's numbered,
  30-character history summary.

Layout, one module per component:

| file | module | what it holds |
|---|---|---|
| wrappers.dfy | Wrappers | `Option` |
| catalog.dfy | Catalog | the five-entry `DOMAINS` catalog, `dict.get` lookups, the icon |
| chat.dfy | Chat | messages, the reply template and its inverse, `Dialogue`, the history summary, the sidebar entries and the `enumerate` loop |
| store.dfy | Store | the two tables as values, and class `Database` with the INSERT and SELECT statements |
| auth.dfy | Auth | the password hasher as a parameter; sign-up and sign-in as functions |
| ingest.dfy | Ingest | "Train Bot"; the store across any run of sign-ups and trainings |
| session.dfy | Session | the session as a value; each callback as a function; invariants over runs of events |
| app.dfy | App | class `SessionState`, i.e. `st.session_state` changed in place, with Python lists as shared objects |

**Aliasing.** After a domain is selected, `messages` and `chat_history[d]` are the same Python list.
That is why appending to `messages` grows the stored transcript, and why `messages.clear()` at logout
empties it in place. App models each list as a `MessageList` object. `SessionState.Valid()` states
the alias: with domain `d` selected, `chatHistory[d] == messages` as references, and distinct domains
hold distinct lists. With no domain selected, `messages` is an empty list. Session models the same
thing as a value: `messages` equals `chatHistory[d]`. Every App method ensures
`State() == Session.F(old(State()), …)`, and `ValidState` shows the object invariant implies the
value invariant. So the two models agree step by step.

**Foreign code as parameters.**
- bcrypt becomes `Auth.Hasher`, a pair of functions `hash(password, salt)` and
  `checks(password, hash)`. The only assumption is `Sound`: a hash checks against the password it
  was made from. The random salt from `gensalt()` is an argument.
- pandas' `read_csv` becomes the parameter `parses`, which says whether given bytes read as CSV.
- The chat box's submission is the argument `prompt`, with `""` meaning nothing was submitted.

**Behaviour of the code worth knowing:**
- `navigate_to_policy` (lines 217-219) is never called. The policy page is reached only through
  the `?page=policy` link (lines 364-367 and 201-202). The model reaches it through `NavigateTo`.
- `handle_chat_input` returns nothing. The reply is only appended to the transcript
  (lines 304-313).
- An empty prompt is no submission: the walrus test at line 302 is falsy for `""`.
- "Train Bot" fails in two distinct ways (lines 487-488 and 506-507): no file was uploaded, or
  the file does not parse as CSV. `TrainOutcome` keeps these two failures apart.
- The sidebar tests the selected domain for truthiness (line 274), so a selected empty name shows
  the same "select a domain" message as no selection. `Session.Sidebar` does the same.

## Model

| member | source | states |
|---|---|---|
| Catalog.CatalogWellFormed | chatbot_login_app.py:41-62 | the catalog has five entries with distinct names, each with a non-empty icon and description |
| Catalog.LookupFinds | chatbot_login_app.py:41-62 | `DOMAINS.get(name)` finds an entry exactly for the five keys, and it is the entry with that name |
| Catalog.IconOf | chatbot_login_app.py:300 | the icon is `""` exactly for a name outside the catalog, and otherwise that entry's icon |
| Chat.ReplyRoundTrip | chatbot_login_app.py:300-308 | the reply quotes the prompt verbatim: reading the prompt back out of the reply gives the prompt |
| Chat.PromptOfSound | chatbot_login_app.py:300-308 | any text that has the reply's fixed head and tail is the reply to the prompt between them (the other direction of the round trip) |
| Chat.ReplyMentions | chatbot_login_app.py:300-308 | the reply contains the domain's name, its icon and the prompt |
| Chat.DialogueExtend | chatbot_login_app.py:304-312 | appending one prompt and its reply to a transcript of whole exchanges keeps it made of whole exchanges |
| Chat.Summary | chatbot_login_app.py:282 | the summary is at most 33 characters long and starts with the first min(30, n) characters of the prompt; a prompt of at most 30 characters is kept whole; a longer one is cut to exactly 30 characters plus "..." |
| Chat.SummaryIdempotent | chatbot_login_app.py:282 | summarising a summary changes nothing |
| Chat.EntriesSound | chatbot_login_app.py:279-283 | every sidebar entry carries a 1-based position of a user message in the full transcript and that message's summary |
| Chat.EntriesComplete | chatbot_login_app.py:279-283 | every user message of the transcript has its entry (assistant messages have none, by EntriesSound) |
| Chat.EntriesIncreasing | chatbot_login_app.py:279-283 | entries are listed in transcript order |
| Chat.EntriesExtend | chatbot_login_app.py:279-283 | when the transcript grows, the old entries stay as a prefix of the new list |
| Chat.ListHistory | chatbot_login_app.py:279-283 | the `enumerate` loop lists exactly the sidebar entries of the transcript |
| Store.AddUser | chatbot_login_app.py:19-26 | INSERT into `users` fails exactly when the email is taken; otherwise it adds one row under that email with the given name and hash, changes no other row, and keeps the table well formed (row under its own email, ids 1..n distinct) |
| Store.FindUser | chatbot_login_app.py:399-400 | the SELECT by email finds a row exactly when one is stored under that email, and its email is the one asked for |
| Store.AddDataset | chatbot_login_app.py:27-35 | INSERT into `datasets` appends one row with the given owner, filename, domain and bytes, keeps every earlier row and leaves `users` alone |
| Store.Database.constructor | chatbot_login_app.py:17-36 | a new database has both tables empty |
| Store.Database.InsertUser | chatbot_login_app.py:375 | the statement succeeds exactly when the email is new, and the tables become AddUser's result (unchanged on failure) |
| Store.Database.SelectUser | chatbot_login_app.py:399-400 | the row returned is FindUser's |
| Store.Database.InsertDataset | chatbot_login_app.py:498-502 | the tables become AddDataset's result |
| Auth.Register | chatbot_login_app.py:371-383 | a form missing name, email, password or agreement changes nothing; a taken email fails and changes nothing; otherwise exactly one user is added, holding the hash of the password, and every other row is kept |
| Auth.Login | chatbot_login_app.py:398-408 | sign-in succeeds exactly when a row exists for the email and the password checks against its stored hash, and then yields the stored email (which is the email typed) |
| Auth.RegisteredUserCanLogin | chatbot_login_app.py:372-405 | for any store and any sound hasher, after a successful sign-up the same email and password sign in |
| Auth.DuplicateRegistrationFails | chatbot_login_app.py:374-381 | signing up a second time with a registered email reports that the email exists and leaves the store unchanged |
| Auth.RegisterKeepsExistingLogins | chatbot_login_app.py:375 | a sign-up never changes whether an existing account's credentials sign in |
| Auth.LoginFailuresAlike | chatbot_login_app.py:402-408 | an unknown email and a wrong password give the same outcome |
| Ingest.Train | chatbot_login_app.py:486-507 | with no file, or a file that does not parse, nothing is written; otherwise exactly one row (user, filename, domain, bytes) is appended and no earlier row is replaced |
| Ingest.StoreOnlyGrows | chatbot_login_app.py:371-383 | across any run of sign-ups and trainings the store stays well formed, no user row is changed or removed, and the dataset rows only grow at the end |
| Session.Start | chatbot_login_app.py:191-198 | a new session shows the sign-up page, nobody is signed in, no domain is selected and every transcript is empty |
| Session.NavigateTo | chatbot_login_app.py:205-219 | navigation changes the page and nothing else |
| Session.SelectDomain | chatbot_login_app.py:222-227 | selecting `d` selects it, adds a transcript only for `d` and only an empty one when it had none, makes the active view `d`'s existing transcript, and leaves every transcript's contents as they were |
| Session.ChangeDomain | chatbot_login_app.py:510-513 | "Change Domain" clears the selection and the active view, and keeps every stored transcript |
| Session.Submit | chatbot_login_app.py:299-316 | a non-empty prompt adds exactly two messages to the selected domain's transcript, the prompt and then its reply, after all earlier messages; the active view is that transcript; other domains are unchanged; an empty prompt changes nothing |
| Session.Logout | chatbot_login_app.py:255-262 | logout signs out, deselects, empties the active view, clears the transcript map (so every transcript is empty), and shows the login page |
| Session.SignIn | chatbot_login_app.py:404-405 | a successful sign-in records the identity and shows the upload page, with the chat state untouched |
| Session.GuardUpload | chatbot_login_app.py:454-458 | showing the upload page with nobody signed in sends the visitor to login; afterwards the upload page is only shown to a signed-in user |
| Session.Sidebar | chatbot_login_app.py:233-288 | the history section is hidden unless signed in on the upload page; it says no domain is selected exactly when none is selected or the selected name is empty (Python truthiness); otherwise it says that the selected domain has no history, or lists the entries of its non-empty transcript |
| Session.ReselectRestores | chatbot_login_app.py:222-227 | deselecting with "Change Domain" and selecting the same domain again gives back exactly the same session, transcript included |
| Session.LoginAfterLogoutStartsEmpty | chatbot_login_app.py:255-262 | signing in after a logout finds no transcript for any domain and an empty active view |
| Session.ConversationIsDialogue | chatbot_login_app.py:304-312 | the messages a run of prompts adds are whole exchanges, each prompt followed by its reply |
| Session.SubmitAllAppends | chatbot_login_app.py:299-313 | after any run of prompts, the selected domain's transcript is the old one followed by the conversation, and no other transcript changes |
| Session.ApplyKeepsDialogues | chatbot_login_app.py:222-262 | every single callback keeps the session valid and every transcript made of whole exchanges |
| Session.TranscriptsStayDialogues | chatbot_login_app.py:299-313 | across any run of callbacks, every transcript stays made of whole exchanges |
| Session.TranscriptsOnlyGrow | chatbot_login_app.py:222-227 | until a logout, no callback removes or edits a message: every domain's transcript only grows at its end |
| App.SessionState.ValidState | chatbot_login_app.py:227 | the alias invariant of the object model implies the value model's invariant (`messages` equals the selected domain's transcript) |
| App.SessionState.constructor | chatbot_login_app.py:191-198 | the session object starts as Session.Start |
| App.SessionState.NavigateTo | chatbot_login_app.py:205-219 | as Session.NavigateTo, without touching any list |
| App.SessionState.SelectDomain | chatbot_login_app.py:222-228 | as Session.SelectDomain; `messages` becomes the very list stored for the domain: the existing list, or a new empty one added for that domain only |
| App.SessionState.ChangeDomain | chatbot_login_app.py:510-513 | as Session.ChangeDomain; `messages` is rebound to a new list and the stored lists are not touched |
| App.SessionState.HandleChatInput | chatbot_login_app.py:299-316 | as Session.Submit, through in-place appends to the shared list; the list objects stay the same |
| App.SessionState.Logout | chatbot_login_app.py:255-262 | as Session.Logout; the active list is emptied in place and the map is cleared |
| App.SessionState.ShowUploadPage | chatbot_login_app.py:454-458 | as Session.GuardUpload |
| App.SessionState.SubmitRegister | chatbot_login_app.py:371-383 | outcome and tables as Auth.Register; the page moves to login exactly on success |
| App.SessionState.SubmitLogin | chatbot_login_app.py:398-408 | identity as Auth.Login; the session becomes Session.SignIn on success and is unchanged otherwise |
| App.SessionState.TrainBot | chatbot_login_app.py:486-507 | outcome and tables as Ingest.Train for the signed-in user and the selected domain |
| App.SessionState.SidebarHistory | chatbot_login_app.py:273-288 | the history section shown is Session.Sidebar of the session |

## Left out

- Rendering, layout and CSS (lines 12, 67-186, 294-297, 321-351, 415-446, 530-552) are not modelled. This includes the three-column grid of domain cards and the markdown text of each sidebar line. The model keeps an entry's number and summary, not the `*n. summary*` string.
- Query parameters (lines 201-202 and the `st.query_params` writes in lines 205-219) are not modelled. They are browser plumbing and can set any page string. As a result the policy page is reachable in the model only through `NavigateTo`.
- `st.rerun()` is not modelled. Each callback is one atomic step.
- SQLite is not modelled. The connection, SQL text and commits become values (`Tables`) and the `Database` class. A failed write to `datasets` (an I/O fault caught at line 506) is not modelled: that INSERT has no constraint that can fail.
- `Store.AddUser`: AUTOINCREMENT ids are modelled as "number of rows + 1". This matches SQLite here because no row is ever deleted and a rejected insert takes no id.
- bcrypt is modelled only through `Hasher` and `Sound`. Salting strength, slowness, constant-time comparison and bcrypt's 72-byte password limit are not modelled.
- pandas is modelled only as the `parses` parameter. The dataset preview (lines 492-493) is display only.
- `App.SessionState.TrainBot` requires a signed-in user and a selected domain. The "Train Bot" button is only rendered in that state (lines 463-486).
- `App.SessionState.HandleChatInput` requires that its domain is the selected one. Line 524 is its only call.
- Several browser sessions sharing one database file, and the concurrency that would bring, are not modelled. The model has one session and one database.
- Strings are sequences of Unicode code points, as Python's `str` is, so `[:30]` and `len` agree with the model. The UTF-8 encoding before hashing is not modelled: the hasher takes the string.
