# A Wiki Knowledge Base: client rules and request guards

This project models the rule-bearing core of a small wiki. The React frontend signs users in,
lists documents, edits and restores them, and shows the user list. The Flask backend guards its
routes with two decorators.

What the model covers:

- **Document access policy.** Who may edit, delete and create. Which stored revisions each role
  sees. Which revision is the current one, and when Restore is offered. How server documents
  are normalised and filtered by title.
- **Identity overrides.** A display name and an avatar kept in local storage under `name:<email>`
  and `avatar:<email>`. They take precedence over the server's values, are written or removed
  as they change, and survive logout.
- **Dashboard state machine.** The state fields of `WikiDashboard` (list, selection, draft,
  mode, tab, search, name, avatar) and every handler that changes them: load, open, create,
  edit, type, save, cancel, delete, restore, profile update, tab and search.
- **User list.** Local avatars attached in place to the fetched array, the signed-in user merged
  in, the fallback after a failed fetch, three role sections and the search predicate.
- **Profile card.** Defaults, initials and the view/edit cycle of its draft.
- **Registration form.** The order of its checks and the outcome of a submit.
- **Login form.** Its outcomes and logout.
- **HTTP client.** Headers, error mapping and normalisation of the login reply.
- **Backend decision.** The 401/403/call decision of `token_required` and `roles_required`.

Modelling conventions:

- A missing JSON field or prop is `None`. Truthiness follows JavaScript: a string is truthy when
  present and non-empty, and a boolean when it is `true`.
- Local storage is a `Storage.Store` object holding a `map<string, string>`.
- Every server reply is an input of type `Api.HttpReply`: a rejected fetch with its message, or
  an `ok` flag with a parsed body. No property depends on what the server sends.
- Each component is a class whose fields are its React state. Each handler is a method that
  checks first that its button is on screen, then performs the handler's steps in order.
- The dashboard's handlers are proved to reach exactly the snapshot computed by a pure
  transition function (`Dashboard.AfterSave` and the other `After…` functions). The lemmas
  about those functions then state the edit cycle's properties.

Modules: `Js` (optional values, truthiness, `||`), `Text` (case mapping, `includes`, `trim`,
`split`), `Seqs` (`filter`, `map`, `reverse`, subsequences), `Storage`, `Entities` (the JSON
records), `Api`, `Permissions`, `Identity`, `Dashboard`, `UserList`, `Profile`,
`RegisterPage`, `LoginPage` and `AuthMiddleware`.

Behaviour of the code that the model follows, which a reader might not expect:

- Cancel in the document editor only returns to view mode. The draft title and content stay as
  they are; the next Edit overwrites them (`Dashboard.WikiDashboard.ClickCancel`).
- A profile save with an empty name does not clear the name override. `handleProfileUpdate`
  ignores a falsy name or avatar, so the displayed name cannot become empty this way
  (`Dashboard.ProfileUpdateNeverClears`, `Profile.SaveRoundTrip`).
- The effects of the dashboard's first render write the effective name and avatar back under
  their keys. With no stored name, the server's name becomes the override, and a later rename
  on the server is not shown on this browser (`Dashboard.MountKeepsEffectiveValues`).
- A failed document-list load leaves the old list on screen with no notice. Only the user list
  shows an inline notice.
- A create reply that succeeds without a document clears the selection before it alerts, so a
  failed action does not always leave the local state as it was (`Dashboard.CreateOutcome`).

## Model

| member | source | states |
|---|---|---|
| Text.IncludesIffOccurs | frontend/src/components/WikiDashboard.jsx:245 | `includes` holds exactly when the query occurs at some index of the string, the empty query included |
| Text.JoinSplit | frontend/src/components/Profile.jsx:33 | `split` loses nothing: joining its pieces with the separator gives the string back |
| Text.Trim | frontend/src/components/Profile.jsx:32 | `trim` cuts only whitespace, from both ends, and leaves none at either end |
| Seqs.FilterIsSubseq | frontend/src/components/WikiDashboard.jsx:244-246 | a filter keeps the order of the elements it keeps |
| Seqs.FilterAtPositions | frontend/src/components/WikiDashboard.jsx:244-246 | a filter's result is exactly the elements at the increasing positions where the test holds |
| Storage.Store.SetItem | frontend/src/services/api.js:26 | `setItem` writes one key and changes no other |
| Storage.Store.RemoveItem | frontend/src/components/LoginPage.jsx:51-52 | `removeItem` drops one key and changes no other |
| Api.ApiCall | frontend/src/services/api.js:17-19 | only an ok reply succeeds, with its body unchanged; otherwise the error is the server's message, 'API request failed', or the fetch's own error |
| Api.AuthHeader | frontend/src/services/api.js:3-6 | a bearer header with the stored token exactly when the token is truthy, and no other header |
| Api.MergedHeaders | frontend/src/services/api.js:9 | the content type, the auth header and the caller's headers merged, each later one winning on a shared key |
| Api.SentHeaders | frontend/src/services/api.js:13-16 | a caller's `options.headers` replaces the merged headers entirely |
| Api.OwnCallsHeaders | frontend/src/services/api.js:54-66 | the client's own calls send the JSON content type and, exactly when a truthy token is stored, the bearer token |
| Api.NormalizeAuth | frontend/src/services/api.js:41-47 | the login/register result is the body plus `success`; `success` is "has a user or a truthy token" unless the body has its own `success`, which wins |
| Api.StoreToken | frontend/src/services/api.js:39 | the token is written exactly when it is truthy |
| Api.TokenLifecycle | frontend/src/services/api.js:50-51 | a stored token authenticates and is sent as the bearer; after logout neither holds and every other key is unchanged |
| Api.Authenticate | frontend/src/services/api.js:36-48 | a failed call stores nothing and rethrows; a successful one stores a truthy token and returns the normalised body |
| Api.Logout | frontend/src/services/api.js:50 | removes the token and nothing else; afterwards the client is not authenticated |
| Api.IsAuthenticated | frontend/src/services/api.js:51 | `isAuthenticated` holds exactly when a truthy token is stored; it holds after a token is stored and not after logout (`Api.TokenLifecycle`) |
| Permissions.DeleteRightIsEditRight | frontend/src/components/WikiDashboard.jsx:220-224 | `canDelete` equals `canEdit` for every user and document |
| Permissions.CanEdit | frontend/src/components/WikiDashboard.jsx:220-221 | an admin may edit every document, anyone else exactly the documents whose owner email equals its own (`Permissions.EditRightsByOwnership`) |
| Permissions.CanDelete | frontend/src/components/WikiDashboard.jsx:223-224 | the same rule as `canEdit` for every user and document (`Permissions.DeleteRightIsEditRight`) |
| Permissions.CanCreate | frontend/src/components/WikiDashboard.jsx:222 | everyone but a viewer may create, a viewer never (`Permissions.EditRightsByOwnership`) |
| Permissions.EditRightsByOwnership | frontend/src/components/WikiDashboard.jsx:220-224 | a non-admin may edit exactly the documents whose owner email equals its own; a viewer may edit its own document but not create one; two missing emails compare equal |
| Permissions.VisibleRevisions | frontend/src/components/WikiDashboard.jsx:250-264 | an admin sees the stored list unchanged, a missing list being empty; an editor sees exactly its authored revisions, in stored order; any other role sees none; every result is a subsequence of the stored list |
| Permissions.NoHistoryWithoutAuthorship | frontend/src/components/WikiDashboard.jsx:255-263 | a viewer, or an editor without an email, sees no revision |
| Permissions.LatestRevisionId | frontend/src/components/WikiDashboard.jsx:266-268 | no current id for an empty list; otherwise the id of the last stored revision |
| Permissions.CurrentIsLastStored | frontend/src/components/WikiDashboard.jsx:588-608 | the last stored revision is labelled current and never offered for restore; any other id is offered exactly when the user may edit |
| Permissions.RestoreOffered | frontend/src/components/WikiDashboard.jsx:600-601 | Restore is offered for a revision exactly when it is not the last stored one and the user may edit (`Permissions.CurrentIsLastStored`) |
| Permissions.History | frontend/src/components/WikiDashboard.jsx:584 | the visible revisions newest first: the reverse of `VisibleRevisions`, same length, entry k being visible entry n-1-k (`Seqs.Reverse`) |
| Permissions.NormalizeDoc | frontend/src/components/WikiDashboard.jsx:233-241 | each camelCase field keeps a truthy value and otherwise takes its snake_case twin; every other field is unchanged |
| Permissions.NormalizeIdempotent | frontend/src/components/WikiDashboard.jsx:233-241 | normalising twice equals normalising once |
| Permissions.TitleMatchIff | frontend/src/components/WikiDashboard.jsx:244-246 | the title test holds exactly when the lowercased query occurs in the lowercased title |
| Permissions.FilteredDocsExact | frontend/src/components/WikiDashboard.jsx:243-246 | the search result is an order-kept subsequence of the normalised list, every kept document matches, and every matching document is kept |
| Permissions.FilteredDocs | frontend/src/components/WikiDashboard.jsx:243-246 | the normalised documents whose title matches the query, in list order, exactly those at the matching positions (`Permissions.FilteredDocsExact`, `Permissions.FilteredDocsAtPositions`, `Permissions.EmptyQueryKeepsAll`) |
| Permissions.FilteredDocsAtPositions | frontend/src/components/WikiDashboard.jsx:243-246 | the kept documents are the normalised documents at the increasing positions of the matching titles, one for one |
| Permissions.EmptyQueryKeepsAll | frontend/src/components/WikiDashboard.jsx:244-246 | an empty query keeps every normalised document |
| Identity.OverrideKeysDistinct | frontend/src/components/WikiDashboard.jsx:46-54 | override keys differ exactly when prefix or email differ, and are never `token` or `user` |
| Identity.EffectiveValue | frontend/src/components/WikiDashboard.jsx:43-57 | a truthy stored override wins, then a truthy server value, then ''; without an email storage is not read |
| Identity.Persist | frontend/src/components/WikiDashboard.jsx:64-85 | with an email a non-empty value is written under its key and an empty one removes the key; without an email nothing changes |
| Identity.PersistThenLoad | frontend/src/components/WikiDashboard.jsx:43-85 | after persisting, the effective value read back is the value, or the server value again when the value was empty |
| Identity.PersistIsolated | frontend/src/components/WikiDashboard.jsx:64-85 | persisting for one email or prefix never changes what another email or prefix reads |
| Dashboard.MarkdownToHtml | frontend/src/components/WikiDashboard.jsx:19-20 | an empty text renders as ''; any other goes to the renderer |
| Dashboard.AfterLoad | frontend/src/components/WikiDashboard.jsx:87-95 | one list request; a successful reply replaces the list; loading ends either way; nothing else changes |
| Dashboard.AfterOpen | frontend/src/components/WikiDashboard.jsx:97-108 | one request for the card's id; a successful reply selects the server document in view mode on the dashboard; otherwise nothing else changes |
| Dashboard.AfterCreate | frontend/src/components/WikiDashboard.jsx:110-128 | the create transition: the new document selected in edit mode, or the selection cleared with an alert, or only an alert (`Dashboard.CreateOutcome`) |
| Dashboard.AfterEdit | frontend/src/components/WikiDashboard.jsx:478-483 | edit mode with the selected title and rendered content as the draft, the selection kept (`Dashboard.EditEntersEditMode`) |
| Dashboard.AfterSave | frontend/src/components/WikiDashboard.jsx:130-145 | the save transition: the draft sent for the selected id, the server document selected in view mode on success, else the state kept (`Dashboard.SaveOutcome`) |
| Dashboard.AfterDelete | frontend/src/components/WikiDashboard.jsx:147-156 | the delete transition: nothing without confirmation, and the selection cleared exactly for the deleted id (`Dashboard.DeleteClearsOnlyThatSelection`, `Dashboard.UnconfirmedChangesNothing`) |
| Dashboard.AfterRestore | frontend/src/components/WikiDashboard.jsx:158-170 | the restore transition: nothing without confirmation, else one restore request and the server document selected on success (`Dashboard.RestoreOutcome`, `Dashboard.UnconfirmedChangesNothing`) |
| Dashboard.AfterProfileUpdate | frontend/src/components/WikiDashboard.jsx:274-277 | only a truthy name or avatar replaces the current one (`Dashboard.ProfileUpdateNeverClears`) |
| Dashboard.PersistIfChanged | frontend/src/components/WikiDashboard.jsx:64-85 | an effect runs only when its dependency changed: an unchanged value writes nothing, a changed one is persisted under its key (`Dashboard.ProfileUpdateNeverClears`) |
| Dashboard.ProfileProps | frontend/src/components/WikiDashboard.jsx:358-365 | the profile receives the user with the display name when non-empty, else the user's name, and the current avatar |
| Dashboard.EditEntersEditMode | frontend/src/components/WikiDashboard.jsx:475-487 | Edit enters edit mode, copies the title into the draft and keeps the selection; missing content gives an empty draft |
| Dashboard.SaveOutcome | frontend/src/components/WikiDashboard.jsx:130-145 | Save sends the draft for the selected id; success selects the server document in view mode; otherwise draft, mode, selection and list are unchanged |
| Dashboard.RestoreOutcome | frontend/src/components/WikiDashboard.jsx:158-170 | a confirmed restore sends one request for the selected document and revision; success selects the server document in the same mode; otherwise selection and list stay, alerting exactly on a failure; the draft is never touched |
| Dashboard.CreateOutcome | frontend/src/components/WikiDashboard.jsx:110-128 | a created document is selected and opened in edit mode; a success without a document clears the selection and alerts; a failure only alerts |
| Dashboard.DeleteClearsOnlyThatSelection | frontend/src/components/WikiDashboard.jsx:147-156 | a completed delete clears the selection exactly when the deleted id is the selected id |
| Dashboard.UnconfirmedChangesNothing | frontend/src/components/WikiDashboard.jsx:147-160 | an unconfirmed delete or restore sends nothing and changes nothing |
| Dashboard.NoRestoreOfCurrent | frontend/src/components/WikiDashboard.jsx:600-608 | the current revision never has a Restore button, whatever the role |
| Dashboard.ProfileUpdateNeverClears | frontend/src/components/WikiDashboard.jsx:274-277 | a profile update changes name or avatar only to a truthy value; a changed name is written under its key and an unchanged one writes nothing |
| Dashboard.MountKeepsEffectiveValues | frontend/src/components/WikiDashboard.jsx:59-85 | the first effects write the effective values back and reading them again gives the same values; with no stored name, the server name is pinned |
| Dashboard.WikiDashboard.constructor | frontend/src/components/WikiDashboard.jsx:31-57 | empty list, no selection, view mode, loading, dashboard tab, and the effective name and avatar |
| Dashboard.WikiDashboard.PersistDisplayName | frontend/src/components/WikiDashboard.jsx:64-73 | the name effect stores or removes `name:<email>` as `Persist` says |
| Dashboard.WikiDashboard.PersistAvatarUrl | frontend/src/components/WikiDashboard.jsx:76-85 | the avatar effect stores or removes `avatar:<email>` as `Persist` says |
| Dashboard.WikiDashboard.LoadDocuments | frontend/src/components/WikiDashboard.jsx:87-95 | reaches the `AfterLoad` state |
| Dashboard.WikiDashboard.Mount | frontend/src/components/WikiDashboard.jsx:59-85 | loads the list and persists the name, then the avatar |
| Dashboard.WikiDashboard.ClickCard | frontend/src/components/WikiDashboard.jsx:97-108 | a card on screen opens its document in view mode on success; with no card on screen nothing changes |
| Dashboard.WikiDashboard.ClickCreate | frontend/src/components/WikiDashboard.jsx:110-128 | for a user who may create, reaches the `AfterCreate` state |
| Dashboard.WikiDashboard.ClickEdit | frontend/src/components/WikiDashboard.jsx:475-487 | with the button shown (view mode, edit right), reaches the `AfterEdit` state |
| Dashboard.WikiDashboard.TypeDraft | frontend/src/components/WikiDashboard.jsx:492-536 | in edit mode, only the draft title and content change |
| Dashboard.WikiDashboard.ClickSave | frontend/src/components/WikiDashboard.jsx:552 | with Save shown, reaches the `AfterSave` state |
| Dashboard.WikiDashboard.ClickCancel | frontend/src/components/WikiDashboard.jsx:555-560 | with Cancel shown, only the mode changes, to view |
| Dashboard.WikiDashboard.ClickDelete | frontend/src/components/WikiDashboard.jsx:415-425 | with the card's delete button shown, reaches the `AfterDelete` state |
| Dashboard.WikiDashboard.ClickRestore | frontend/src/components/WikiDashboard.jsx:158-170 | with the entry's Restore button shown, reaches the `AfterRestore` state |
| Dashboard.WikiDashboard.ProfileUpdate | frontend/src/components/WikiDashboard.jsx:274-277 | on the profile page, reaches `AfterProfileUpdate` and persists exactly the values that changed |
| Dashboard.WikiDashboard.SelectTab | frontend/src/components/WikiDashboard.jsx:291-319 | switches tab once loaded; the user-list tab only for an admin |
| Dashboard.WikiDashboard.Search | frontend/src/components/WikiDashboard.jsx:379-384 | on the dashboard, only the query changes |
| UserList.LocalAvatar | frontend/src/components/UserList.jsx:60-69 | '' without an email; else a truthy value under the exact key, else the value under the lowercased key, else '' |
| UserList.WithLocalAvatar | frontend/src/components/UserList.jsx:73-78 | only a user with an email and no avatar changes, only its avatar, and only to a non-empty local avatar |
| UserList.AttachNeverOverwrites | frontend/src/components/UserList.jsx:73-78 | the loop adds and removes no user and never overwrites an existing avatar |
| UserList.IndexOfEmail | frontend/src/components/UserList.jsx:81 | the first index whose lowercased email equals the key, or -1 exactly when there is none |
| UserList.CurrentUserEntry | frontend/src/components/UserList.jsx:84-90 | the prepended entry: id defaults to 'me', role to 'admin', avatar only when non-empty |
| UserList.ReconcilePrepends | frontend/src/components/UserList.jsx:80-90 | with no case-insensitive email match, the signed-in user is prepended and the list grows by one |
| UserList.ReconcilePatches | frontend/src/components/UserList.jsx:91-93 | with a match, the length is unchanged and only the first matching entry may change: it gains the local avatar exactly when it had none and the local one is non-empty, and otherwise the list is the attached fetch |
| UserList.ReconcileWithoutEmail | frontend/src/components/UserList.jsx:80 | a signed-in user without an email is not merged |
| UserList.Reconciled | frontend/src/components/UserList.jsx:80-94 | the merge of the signed-in user into the attached fetch: prepended without a match, the first match patched with a missing avatar, nothing without an email (`UserList.ReconcilePrepends`, `UserList.ReconcilePatches`, `UserList.ReconcileWithoutEmail`) |
| UserList.Fallback | frontend/src/components/UserList.jsx:97-112 | after a failed fetch, exactly the signed-in user when it has an email, else nothing; the avatar comes from the exact key, then its own |
| UserList.MatchesIgnoresQueryCase | frontend/src/components/UserList.jsx:133-137 | the search predicate does not depend on the case of the query |
| UserList.Matches | frontend/src/components/UserList.jsx:133-137 | the empty query matches everyone; otherwise the lowercased query occurs in the name, email or role; the query's case never matters (`UserList.MatchesIgnoresQueryCase`) |
| UserList.Section | frontend/src/components/UserList.jsx:139-141 | the users of one role that match the query, in list order (`UserList.SectionExact`) |
| UserList.SectionExact | frontend/src/components/UserList.jsx:128-141 | each section is an order-kept subsequence of its role list, holds exactly its role's matching users, and an empty query keeps the whole role list |
| UserList.RoleListsDisjoint | frontend/src/components/UserList.jsx:128-130 | the three role lists are disjoint and a user with another role is in none |
| UserList.RolePartitionCount | frontend/src/components/UserList.jsx:128-130 | the three role lists and the other-role users together count every user exactly once |
| UserList.Render | frontend/src/components/UserList.jsx:120-141 | a non-admin gets the unauthorised page whatever was fetched; an admin gets the error, the loading flag and the three sections of the matching admins, editors and viewers |
| UserList.UserListView.constructor | frontend/src/components/UserList.jsx:47-50 | no users, loading, no error, empty query |
| UserList.UserListView.AttachLocalAvatars | frontend/src/components/UserList.jsx:73-78 | the array in place becomes the attached list |
| UserList.UserListView.FindIndex | frontend/src/components/UserList.jsx:81 | the loop returns `IndexOfEmail` of the array |
| UserList.UserListView.Load | frontend/src/components/UserList.jsx:52-118 | the users become the merged fetch, or the fallback with the error message after a failure; loading ends |
| UserList.UserListView.SetQuery | frontend/src/components/UserList.jsx:152-158 | for an admin only the query changes |
| Profile.Defaults | frontend/src/components/Profile.jsx:8-13 | a missing field takes its default; a present one, even '', is kept |
| Profile.Words | frontend/src/components/Profile.jsx:30-34 | the words of the trimmed name are non-empty and hold no space |
| Profile.Initials | frontend/src/components/Profile.jsx:30-37 | one or two characters: the uppercased first characters of the first two words, or 'U' without words |
| Profile.SaveRoundTrip | frontend/src/components/Profile.jsx:63-72 | after a Save with a non-empty draft name, the dashboard hands back that name; an empty draft name leaves the name as it was |
| Profile.ProfileCard.constructor | frontend/src/components/Profile.jsx:15-17 | the defaulted name and avatar, in view mode |
| Profile.ProfileCard.StartEdit | frontend/src/components/Profile.jsx:57-61 | resets the draft to the props and enters edit mode |
| Profile.ProfileCard.TypeName | frontend/src/components/Profile.jsx:134-139 | in edit mode only the draft name changes |
| Profile.ProfileCard.FileChosen | frontend/src/components/Profile.jsx:43-55 | only the preview avatar changes, never the callback; no file changes nothing |
| Profile.ProfileCard.Save | frontend/src/components/Profile.jsx:63-72 | one callback call with the props' user, draft name and draft avatar, then view mode |
| Profile.ProfileCard.Cancel | frontend/src/components/Profile.jsx:74-78 | the same reset as Edit, then view mode |
| Profile.ProfileCard.ReceiveProps | frontend/src/components/Profile.jsx:21-27 | a changed defaulted name or avatar is copied into the state; an unchanged one leaves it |
| RegisterPage.Validate | frontend/src/components/RegisterPage.jsx:23-25 | the mismatch message exactly when the passwords differ, the length message exactly for matching passwords under 6, otherwise none |
| RegisterPage.RegisterForm.constructor | frontend/src/components/RegisterPage.jsx:7-13 | empty fields and role 'viewer' |
| RegisterPage.RegisterForm.SelectRole | frontend/src/components/RegisterPage.jsx:90-96 | the role becomes one of the three button values |
| RegisterPage.RegisterForm.EditFields | frontend/src/components/RegisterPage.jsx:62-135 | only the four text fields change |
| RegisterPage.RegisterForm.ClickSignIn | frontend/src/components/RegisterPage.jsx:154 | calls `onSwitch` once |
| RegisterPage.RegisterForm.Submit | frontend/src/components/RegisterPage.jsx:21-36 | a failed check sends nothing; else one request with the trimmed name, `onSwitch` exactly on a truthy `success`, and a thrown message as the error |
| LoginPage.ResolvedUser | frontend/src/components/LoginPage.jsx:24 | the `/auth/me` user when present, else the login reply's |
| LoginPage.LogoutKeepsOverrides | frontend/src/components/LoginPage.jsx:49-53 | removing `user` and `token` changes no effective name or avatar |
| LoginPage.LoginForm.constructor | frontend/src/components/LoginPage.jsx:8-13 | empty fields, no error, nobody logged in |
| LoginPage.LoginForm.Submit | frontend/src/components/LoginPage.jsx:15-47 | success stores the resolved user always and a truthy token, and logs that user in; failures set `res.message` or 'Login failed', or the thrown message or 'An error occurred'; loading ends |
| LoginPage.LoginForm.Logout | frontend/src/components/LoginPage.jsx:49-53 | removes exactly `user` and `token` and logs the user out |
| AuthMiddleware.TokenRequired | backend/app/middleware/auth.py:8-32 | an exception gives 401 'Invalid or expired token', a missing user 401 'User not found'; otherwise the view is called once with the user, and an exception it raises is a 401 |
| AuthMiddleware.RolesRequired | backend/app/middleware/auth.py:34-64 | the same 401 replies; a role not in the list gives 403 naming the role, without calling the view |
| AuthMiddleware.AllowedRoleIsTokenRequired | backend/app/middleware/auth.py:56-57 | for an allowed role, the role guard decides exactly as the token guard |
| AuthMiddleware.ViewOnlyForAuthorized | backend/app/middleware/auth.py:19-61 | the view runs at most once, only with the looked-up user and an allowed role; errors are 401 or 403, and a 403 calls nothing |

## Left out

- `markdownToHtml`'s regular-expression rewriting depends on JavaScript regex semantics. It is a renderer function passed in; only its empty-text guard is modelled.
- JSX rendering, CSS classes and icons are not modelled. Neither are the editor helpers `applyFormat`/`execCommand`, `adjustEditorHeight` and the innerHTML sync effect. The editor's HTML reaches the model as the draft typed into `TypeDraft`.
- `fetch`, JSON parsing and `confirm`/`alert`/`prompt` are inputs and outputs. `confirm` answers are parameters and alerts are a recorded list.
- Asynchronous ordering is not modelled. Each handler runs to its end before the next event, so a reply that arrives after the user moved on, and the "Loading…" states in between, are outside the model.
- `FileReader` decoding is not modelled: a chosen file reaches the profile card as the data URL it reads to. Date formatting with `toLocaleDateString`/`toLocaleString` is not modelled either.
- JWT verification, identity conversion and the database lookup are one input of the guards. bcrypt, SQLAlchemy and the Flask wiring in backend/app/__init__.py are not modelled.
- backend/app/routes/users.py is not part of this model; it is a query plus response packing.
- Console logging and debug prints are left out.
- `null` and `undefined` are both `None`.
- Case mapping is ASCII only. UTF-16 lengths are code points here, so the 6-character password check counts characters.
- `Profile.Initials`: the length bound of at most 2 holds because case mapping is ASCII only; JavaScript can uppercase one character to several.
- The `try`/`catch` blocks around `localStorage` in the user list are not modelled, because storage never throws in the model.
- The `currentUser` prop of the user list and the `user` prop of the profile are always objects here. A missing profile `user` behaves as a user with every field missing.
- JSON values are typed: `success` is a boolean or missing, and every user field is a string or missing. A truthy non-boolean `success` is not modelled.
- `Dashboard.AfterLoad`: a successful reply without `documents` gives the empty list. In the source, the list becomes `undefined` and the next render throws.
- Documents always carry a string title. In the source, a document without one makes the search filter throw during render.
- The database user's role is a string here; a missing role would give a 403 naming 'None'.
- The UserRow avatar alternatives `avatarUrl`/`avatar` and its image-load flag are rendering only.
- `Api.Authenticate` models `authAPI.login` and `authAPI.register`, whose code is the same. The request bodies of the document calls are recorded as `Api.Request` values, not as JSON text.
- Arrays cannot grow in place here. The list's `unshift` of the signed-in user therefore builds a new sequence from the updated array.
