# Engineering request tracker client, modelled in Dafny

This project models the browser client of an engineering request tracker, a React/Redux application written in TypeScript. Engineers, sales staff and admins use it to file and track requests against a REST API.

Underneath the JSX the client makes a small number of decisions, and those decisions are modelled here:

- **The authenticated request gateway.** It attaches a bearer header. On a 403 it refreshes the access token once and resends the original request once.
- **The credential store.** A one-field `auth` slice holds the access token.
- **The session effects.** A logout clears the token first and only later resets the API cache. A refresh stores its new token.
- **Identity.** The identity and role status are derived from the token's decoded claims.
- **Login.** The login form classifies errors and handles its fields.
- **The API slices.** They turn list responses into cached data and define cache tags and mutation requests.
- **The list screens.** They sort, hide undefined entries, filter by role and build edit routes.
- **The edit and create screens.** They look up an entity by route id and list only Engineer users as owners.
- **The four forms.** Each has state, a save rule and payloads, and resets after a successful save. The user forms also have username and password validators and role checkboxes.
- **Sidebar, top bar and home page.** They map between paths, items and routes, show a menu and format the username. The colour mode can be toggled.

The model is laid out as follows:

- Each source file is one module.
- Helper modules supply what the JavaScript runtime and the libraries provide:
  - `Values`: JavaScript values, truthiness, `||`, `??` and the spread operator.
  - `Seqs`: filtering, joining, replacing and ASCII case mapping.
  - `Entities`: the normalised `{ ids, entities }` state of the entity adapter.
  - `Regex`: character classes with bounded repetition.
- Components that keep state become classes:
  - their fields are the `useState` variables;
  - each handler becomes a method;
  - each `useEffect` runs inside the method that changes its dependency.
- Navigation is a field, `navigations`, that records the routes navigated to, in order.
- The network is an oracle: a function from the index of a request within one gateway call, and the request itself, to the response.
- The JWT decoder is a total function passed in as a parameter.
- Timers are a first-in first-out queue of pending actions.

## Model

| member | source | states |
|---|---|---|
| ApiSlice.PrepareHeaders | src/app/api/apiSlice.ts:16-23 | An `authorization: Bearer <token>` header is set exactly when the token is truthy. With no token, or an empty one, the headers are unchanged. Other headers are never touched. |
| ApiSlice.Execute | src/app/api/apiSlice.ts:26-49 | Between one and three requests are sent. A first result that is not a 403 is returned unchanged after one call. A first 403 is followed by a GET of `/auth/refresh`. A refresh with truthy data stores its `accessToken` and resends the original once, and the second result is returned whatever its status. A refresh without data is returned without a resend, with its data rewritten to 'Your login has expired' only when it is a 403. The token changes only on the refresh-success branch. |
| ApiSlice.CustomBaseQuery | src/app/api/apiSlice.ts:26-49 | The imperative gateway over the stored token. Its result, its request trace and the new stored token are exactly those of `Execute` on the old token. |
| ApiSlice.ExpiredSessionText | src/app/api/apiSlice.ts:40-45 | When both the first call and the refresh are refused with 403, two requests are sent and a 403 is returned. That 403's error text is 'Your login has expired'. |
| ApiSlice.ErrorText | src/features/requests/RequestsList.tsx:100 | The text shown for a failed query is `data.message` when truthy, else its status. |
| ApiSlice.FormErrorText | src/features/requests/EditRequestForm.tsx:134-137 | The form's error line is the save's message, else the delete's message, else the save's status, else ''. The new-item forms, which have no delete mutation, use the same rule. |
| AuthSlice.AccessTokenOf | src/features/auth/authSlice.ts:14-16 | The stored token is the payload's `accessToken` exactly when that is a string. |
| AuthSlice.Reduce | src/features/auth/authSlice.ts:12-20 | `setCredentials` gives the payload's token, whatever was stored before. `logOut` gives no token, from any state. |
| AuthSlice.AuthState.constructor | src/features/auth/authSlice.ts:10 | The initial token is null, so `selectCurrentToken` reads null. |
| AuthSlice.AuthState.SetCredentials | src/features/auth/authSlice.ts:12-17 | The new token is `Reduce` of the old one with `setCredentials`, and `selectCurrentToken` then reads the payload's `accessToken`. |
| AuthSlice.AuthState.LogOut | src/features/auth/authSlice.ts:18-20 | The new token is `Reduce` with `logOut`, so `selectCurrentToken` then reads null. |
| AuthSlice.SetCredentialsIdempotent | src/features/auth/authSlice.ts:16 | Applying `setCredentials` twice with one payload equals applying it once. The result does not depend on the previous token. |
| AuthApiSlice.LoginQuery | src/features/auth/authApiSlice.ts:7-11 | `login`'s request; its shape is stated by `EndpointShapes`. |
| AuthApiSlice.SendLogoutQuery | src/features/auth/authApiSlice.ts:14-17 | `sendLogout`'s request; its shape is stated by `EndpointShapes`. |
| AuthApiSlice.RefreshQuery | src/features/auth/authApiSlice.ts:35-38 | `refresh`'s request; its shape is stated by `EndpointShapes`. |
| AuthApiSlice.EndpointShapes | src/features/auth/authApiSlice.ts:6-38 | `login` is a POST of its body to `/auth`. `sendLogout` is a POST to `/auth/logout`. `refresh` is a GET of `/auth/refresh`, the same URL the gateway refreshes with. |
| AuthApiSlice.AppendKeepsOrder | src/features/auth/authApiSlice.ts:21-28 | With every reset already dispatched after a logout, appending an action keeps that order, provided a reset is appended only once a logout is in the log. |
| AuthApiSlice.Effects.constructor | src/features/auth/authApiSlice.ts:18 | Before any endpoint settles nothing has been dispatched and no timer is pending, which satisfies the reset-after-logout invariant. |
| AuthApiSlice.Effects.SendLogoutSettled | src/features/auth/authApiSlice.ts:18-32 | On success the token becomes null, `logOut` is dispatched and `resetApiState` is only scheduled. On failure the token, the log and the timers are unchanged. A reset never precedes a logout. |
| AuthApiSlice.Effects.RefreshSettled | src/features/auth/authApiSlice.ts:39-49 | On success the token becomes `data.accessToken` and `setCredentials({accessToken})` is logged. On failure the token and the log are unchanged. |
| AuthApiSlice.Effects.FireTimer | src/features/auth/authApiSlice.ts:26-28 | The oldest pending timer's action is dispatched, and the reset-after-logout order is kept. |
| UseAuth.UseAuth | src/hooks/useAuth.ts:13-32 | With no token, the result is the empty identity with status 'Sales'. Otherwise userId, username and roles are the decoded claims, `isEngineer` and `isAdmin` are role membership, and the status is 'Admin' iff admin, 'Engineer' iff engineer and not admin, and 'Sales' iff neither. |
| Login.ErrorMessage | src/features/auth/Login.tsx:38-47 | A falsy `status` gives 'No Server Response'. Otherwise `response.status` 400 gives 'Missing Username or Password', 401 gives 'Unauthorized', and anything else gives `data.message`. |
| Login.QueryErrorsSkipStatusTexts | src/features/auth/Login.tsx:39-46 | A query error `{status, data}` is shown as 'No Server Response' or as its own `data.message`. It is never shown as the 400 or 401 text. |
| Login.LoginForm.constructor | src/features/auth/Login.tsx:15-18 | Empty username, password and error, and the persisted preference. |
| Login.LoginForm.SetUsername | src/features/auth/Login.tsx:22-24 | Sets the username. Any change clears the error message. |
| Login.LoginForm.SetPassword | src/features/auth/Login.tsx:22-24 | Sets the password. Any change clears the error message. |
| Login.LoginForm.HandlePersist | src/features/auth/Login.tsx:26 | Flips the persistence preference and changes nothing else. |
| Login.LoginForm.HandleSubmit | src/features/auth/Login.tsx:28-49 | The credentials are POSTed to `/auth`. On success the token is stored, both fields are cleared and the form navigates to '/home'. On failure the classified message is shown and nothing else changes. |
| ColorModeSlice.Toggled | src/features/colorModeSlice.ts:14 | A toggle always changes the mode, and only 'light' and 'dark' exist. |
| ColorModeSlice.ToggleTwice | src/features/colorModeSlice.ts:14 | Two toggles restore the mode. |
| ColorModeSlice.ColorModeState.constructor | src/features/colorModeSlice.ts:7 | The initial mode is 'dark'. |
| ColorModeSlice.ColorModeState.SetMode | src/features/colorModeSlice.ts:13-15 | The mode becomes the other one. |
| RequestsApiSlice.SortComparer | src/features/requests/requestsApiSlice.ts:25 | 0 iff `completed` is equal, -1 iff only `a` is incomplete, 1 iff only `a` is completed. |
| RequestsApiSlice.ValidateStatus | src/features/requests/requestsApiSlice.ts:35-37 | A status other than 200 is refused without the body being read. A 200 whose body is `null` or `undefined` throws, since `result.isError` is read without `?.`. A 200 with an array body, or any primitive body, is accepted. A 200 with an object body is refused iff its `isError` is truthy. Only a 200 can be accepted or throw. |
| RequestsApiSlice.Loaded | src/features/requests/requestsApiSlice.ts:39-44 | The count is kept. Every request gets `id = _id`, and nothing else changes. |
| RequestsApiSlice.TransformResponse | src/features/requests/requestsApiSlice.ts:39-44 | The array is updated in place to `Loaded` of its old contents, and the result is returned. |
| RequestsApiSlice.ProvidesTags | src/features/requests/requestsApiSlice.ts:46-55 | With a result, the tags are LIST followed by one tag per id, in `ids` order. Without one, exactly LIST. |
| RequestsApiSlice.AddNewRequestQuery | src/features/requests/requestsApiSlice.ts:57-63 | `addNewRequest`'s request; its shape is stated by `RequestsApiSlice.MutationShapes`. |
| RequestsApiSlice.UpdateRequestQuery | src/features/requests/requestsApiSlice.ts:65-71 | `updateRequest`'s request; its shape is stated by `RequestsApiSlice.MutationShapes`. |
| RequestsApiSlice.MutationShapes | src/features/requests/requestsApiSlice.ts:57-71 | Adding is a POST and updating a PATCH, both to `/requests`. The body is the argument when it is an object, and `{}` for null, undefined, numbers and booleans. |
| RequestsApiSlice.DeleteRequestQuery | src/features/requests/requestsApiSlice.ts:73-78 | A DELETE to `/requests` whose body has exactly the key `id`. |
| RequestsApiSlice.InvalidatesTags | src/features/requests/requestsApiSlice.ts:65-79 | Update and delete invalidate only the tag of `arg.id`. |
| RequestsApiSlice.MutationTags | src/features/requests/requestsApiSlice.ts:63-79 | Adding invalidates only LIST. Updating or deleting an entity whose id is not 'LIST' leaves the LIST tag alone. |
| UsersApiSlice.ValidateStatus | src/features/users/usersApiSlice.ts:22-24 | A status other than 200 is refused without the body being read. A 200 whose body is `null` or `undefined` throws, since `result.isError` is read without `?.`. A 200 with an array body, or any primitive body, is accepted. A 200 with an object body is refused iff its `isError` is truthy. Only a 200 can be accepted or throw. |
| UsersApiSlice.Loaded | src/features/users/usersApiSlice.ts:27-32 | The count is kept. Every user gets `id = _id`, and nothing else changes. |
| UsersApiSlice.TransformResponse | src/features/users/usersApiSlice.ts:27-32 | The array is updated in place to `Loaded` of its old contents. |
| UsersApiSlice.ProvidesTags | src/features/users/usersApiSlice.ts:34-37 | LIST then one tag per id, in `ids` order; without a result, exactly LIST. |
| UsersApiSlice.AddNewUserQuery | src/features/users/usersApiSlice.ts:39-45 | `addNewUser`'s request; its shape is stated by `UsersApiSlice.MutationShapes`. |
| UsersApiSlice.UpdateUserQuery | src/features/users/usersApiSlice.ts:47-53 | `updateUser`'s request; its shape is stated by `UsersApiSlice.MutationShapes`. |
| UsersApiSlice.MutationShapes | src/features/users/usersApiSlice.ts:39-53 | Adding is a POST and updating a PATCH, both to `/users`. The body is the argument when it is an object, and `{}` for null, undefined, numbers and booleans. |
| UsersApiSlice.Includes | src/features/users/EditUserForm.tsx:47 | `user.roles.includes(role)`; what it means for each shape of `roles` is stated by `UsersApiSlice.IncludesByShape` and `Seqs.IsSubstringAt`. |
| UsersApiSlice.IncludesByShape | src/features/users/EditUserForm.tsx:47 | On role text, `includes` is a substring test, so 'Engineers' includes 'Engineer'. On a role list it matches whole names only. |
| UsersApiSlice.DeleteUserQuery | src/features/users/usersApiSlice.ts:55-59 | A DELETE to `/users` whose body has exactly the key `id`. |
| UsersApiSlice.InvalidatesTags | src/features/users/usersApiSlice.ts:47-61 | Update and delete invalidate only the tag of `arg.id`. |
| UsersApiSlice.MutationTags | src/features/users/usersApiSlice.ts:45-61 | Adding invalidates only LIST. Updating or deleting another id leaves LIST alone. |
| Entities.Lookup | src/features/requests/EditRequest.tsx:14 | `entities[id]`; its meaning is stated by `Entities.LookupDistinct` and `Entities.LookupMissing`. |
| Entities.LookupDistinct | src/features/requests/EditRequest.tsx:14 | When keys are distinct, looking up an entry's key yields that entry's value. |
| Entities.LookupMissing | src/features/users/EditUser.tsx:10 | Looking up a key no entry has yields undefined. |
| Entities.ObjectValues | src/features/requests/RequestsList.tsx:106 | `Object.values`: one value per entry, in entry order. |
| Entities.DefinedValues | src/features/requests/RequestsList.tsx:107-108 | Drops the undefined values and keeps every defined one as often as it occurs. |
| Entities.ListContent | src/features/requests/RequestsList.tsx:85-146 | Rows are shown iff the query succeeded. The error text is shown iff it failed and did not succeed. The spinner is shown iff it is loading, has not failed and has not succeeded. The users screen uses the same chain. |
| RequestsList.Insert | src/features/requests/RequestsList.tsx:109 | Insertion keeps the multiset: the result is the input plus the new element. |
| RequestsList.Sort | src/features/requests/RequestsList.tsx:109 | The sort is a permutation of its input. |
| RequestsList.InsertDone | src/features/requests/RequestsList.tsx:109 | A completed request is inserted after every incomplete one and ahead of the completed ones. |
| RequestsList.Requests | src/features/requests/RequestsList.tsx:107-109 | The defined dictionary values sorted incomplete-first; stated by `RequestsList.SortPartitions`. |
| RequestsList.Visible | src/features/requests/RequestsList.tsx:111-118 | The role-dependent filter; stated by `RequestsList.VisibleIsFilter`. |
| RequestsList.TableContent | src/features/requests/RequestsList.tsx:120 | The table's rows; stated by `RequestsList.TableSplits` and the lemmas beside it. |
| RequestsList.SortPartitions | src/features/requests/RequestsList.tsx:109 | The sorted list is the incomplete requests in their original order, then the completed ones in theirs. This is the stable result. |
| RequestsList.SortStep | src/features/requests/RequestsList.tsx:109 | Inserting the head into a partitioned tail gives the partitioned list. |
| RequestsList.SortStepOpen | src/features/requests/RequestsList.tsx:109 | An incomplete request is inserted at the front. |
| RequestsList.VisibleIsFilter | src/features/requests/RequestsList.tsx:111-118 | The visibility filter keeps exactly the requests the user sees, in order. An admin sees all; a non-admin engineer sees those they own; anyone else sees those they made. |
| RequestsList.OpenThenDone | src/features/requests/RequestsList.tsx:109 | Incomplete requests followed by completed ones never put a completed request first. |
| RequestsList.TableSplits | src/features/requests/RequestsList.tsx:105-120 | With ids, the table is the visible incomplete requests followed by the visible completed ones. |
| RequestsList.TableOpenFirst | src/features/requests/RequestsList.tsx:105-120 | No completed request is shown above an incomplete one. |
| RequestsList.TableSubsequence | src/features/requests/RequestsList.tsx:111-120 | The table is an order-preserving subsequence of the sorted, defined requests. |
| RequestsList.TableMembers | src/features/requests/RequestsList.tsx:105-120 | A request is a row iff `ids` is non-empty, the dictionary holds it and the user sees it. So an empty `ids` gives an empty table. |
| RequestsList.TableAdmin | src/features/requests/RequestsList.tsx:112-113 | An admin's table holds every defined request, each as often as it occurs. |
| RequestsList.EditRoute | src/features/requests/RequestsList.tsx:76 | The edit route is '/requests/' followed by the request's `_id`. |
| UsersList.NewUserRouteClash | src/features/users/UsersList.tsx:128 | 'Add Users' navigates to '/users/new', which equals a row's edit route exactly when that user's id is 'new'. |
| UsersList.RolesText | src/features/users/UsersList.tsx:35 | `roles.toString()`; stated through `UsersList.RolesCellJoins`. |
| UsersList.RolesCell | src/features/users/UsersList.tsx:35 | The roles column's text; stated by `UsersList.RolesCellJoins`. |
| UsersList.RolesCellJoins | src/features/users/UsersList.tsx:35 | For role names without commas, the cell is the names joined with ', ': '' for none, the name alone for one. |
| UsersList.TableContent | src/features/users/UsersList.tsx:73 | No rows when `ids` is empty. Otherwise every dictionary value, undefined ones included, in entry order. |
| UsersList.EditRoute | src/features/users/UsersList.tsx:53 | The edit route is '/users/' followed by the user's `_id`. |
| NewRequest.Engineers | src/features/requests/NewRequest.tsx:8-12 | At most one user per id, and every listed user has the Engineer role. |
| NewRequest.EngineersListed | src/features/requests/NewRequest.tsx:8-12 | A user is listed iff some counted id maps to that user and the user has the Engineer role. No engineer is left out and no one else is included. |
| NewRequest.EngineerUsers | src/features/requests/NewRequest.tsx:6-14 | The accumulating loop yields undefined without data, else exactly `Engineers` of the state. |
| NewRequest.NewRequestScreen | src/features/requests/NewRequest.tsx:15 | The form is rendered iff the users query has data, with the engineer list. |
| EditRequest.RequestForRoute | src/features/requests/EditRequest.tsx:11-16 | Undefined without data, else the dictionary entry for the route id. |
| EditRequest.EditRequestScreen | src/features/requests/EditRequest.tsx:18-28 | The form is rendered iff both the request and the engineer list are defined, and receives exactly those. |
| EditRequest.EditRouteOpensRow | src/features/requests/EditRequest.tsx:11-16 | The edit route of any table row opens that same request. |
| EditUser.UserForRoute | src/features/users/EditUser.tsx:10 | Undefined without a route id or data, else the dictionary entry for the id. |
| EditUser.EditUserScreen | src/features/users/EditUser.tsx:14 | The form is rendered iff the user is defined, and receives exactly that user. |
| EditUser.EditRouteOpensRow | src/features/users/EditUser.tsx:10 | The edit route of a users-table row opens that same user; an empty id counts as absent. |
| EditRequestForm.CanSave | src/features/requests/EditRequestForm.tsx:76 | True iff title, owner, type and customer are non-empty and nothing is loading. Text and completed do not matter. |
| EditRequestForm.Form.constructor | src/features/requests/EditRequestForm.tsx:39-46 | The fields start as the request's title, text, owner, type, customer and completed. |
| EditRequestForm.Form.Edit | src/features/requests/EditRequestForm.tsx:165-235 | A field's `onChange` sets that field only. |
| EditRequestForm.Form.ToggleCompleted | src/features/requests/EditRequestForm.tsx:251 | Flips `completed` only. |
| EditRequestForm.Form.OpenDialog | src/features/requests/EditRequestForm.tsx:288-302 | The Delete button opens the confirmation dialog, and so does the dialog's own `onClose`. |
| EditRequestForm.Form.DismissDialog | src/features/requests/EditRequestForm.tsx:315 | 'No' closes the dialog. |
| EditRequestForm.Form.UpdatePayload | src/features/requests/EditRequestForm.tsx:82-84 | The body is exactly `{id, owner, type, customer, title, text, completed}` from the form. |
| EditRequestForm.Form.OnSaveClicked | src/features/requests/EditRequestForm.tsx:78-85 | The update is sent iff `canSave`, and then it carries the update payload. |
| EditRequestForm.Form.OnDeleteConfirmed | src/features/requests/EditRequestForm.tsx:87-89 | The delete carries exactly `{id: request.id}`. |
| EditRequestForm.Form.OnMutationSettled | src/features/requests/EditRequestForm.tsx:65-74 | After an update or delete succeeds, the five text fields become '', the form navigates to '/requests', and saving is then impossible. Otherwise nothing changes. |
| NewRequestForm.Form.constructor | src/features/requests/NewRequestForm.tsx:16-25 | All five fields start as ''. |
| NewRequestForm.FreshFormCannotSave | src/features/requests/NewRequestForm.tsx:21-38 | A fresh form cannot save. |
| NewRequestForm.Form.Edit | src/features/requests/NewRequestForm.tsx:120-189 | A field's `onChange` sets that field only. |
| NewRequestForm.Form.AddPayload | src/features/requests/NewRequestForm.tsx:46 | The body is exactly `{requester: userId, owner, type, customer, title, text}`. |
| NewRequestForm.Form.OnSaveClicked | src/features/requests/NewRequestForm.tsx:38-48 | The add is sent iff `canSave`, with the add payload. |
| NewRequestForm.Form.OnAddSettled | src/features/requests/NewRequestForm.tsx:27-36 | On success all five fields become '' and the form navigates to '/requests'. |
| Regex.Singles | src/features/users/EditUserForm.tsx:24-25 | A class of single characters, one per character listed. |
| Regex.InClassAppend | src/features/users/EditUserForm.tsx:24-25 | A character is in the union of two classes iff it is in one of them. |
| Regex.InSingles | src/features/users/EditUserForm.tsx:24-25 | A character is in a class of listed characters iff it is listed. |
| Regex.InOneRange | src/features/users/EditUserForm.tsx:24-25 | A character is in a one-range class iff it lies in the range. |
| Regex.MatchesOne | src/features/users/EditUserForm.tsx:25 | A one-piece pattern matches iff the length is within bounds and every character is in the class. |
| Regex.MatchesHead | src/features/users/EditUserForm.tsx:24 | A leading single-character piece matches the first character, and the rest of the pattern matches the rest. |
| EditUserForm.UserRestChar | src/features/users/EditUserForm.tsx:24 | `[A-z0-9-_]` is the range 'A'..'z', the digits and '-' (the '_' already lies in 'A'..'z'). |
| EditUserForm.PasswordClassChar | src/features/users/EditUserForm.tsx:25 | `[A-Za-z0-9!@#$%^&*)(+=._-]` is letters, digits and the fifteen listed symbols. |
| EditUserForm.UsernameShape | src/features/users/EditUserForm.tsx:24 | A username is valid iff it has 4 to 21 characters, the first in ASCII 'A'..'z' and the rest from 'A'..'z', digits and '-'. |
| EditUserForm.PasswordShape | src/features/users/EditUserForm.tsx:25 | A password is valid iff it has 3 to 20 characters, each a letter, a digit or a listed symbol. |
| EditUserForm.UsernameExamples | src/features/users/EditUserForm.tsx:24 | '_bob', 'a[b]' and '^a-9' are accepted, since `[A-z]` takes in `[ \ ] ^ _` and the backtick. 'bob', 'bo b' and '' are refused. |
| EditUserForm.PasswordAccepts | src/features/users/EditUserForm.tsx:25 | 'p@ss' and '(a)' are accepted. |
| EditUserForm.PasswordRefuses | src/features/users/EditUserForm.tsx:25 | 'ab', 'a b' and '' are refused. |
| EditUserForm.Keys | src/features/users/EditUserForm.tsx:74 | The role map's keys in insertion order. |
| EditUserForm.WithRole | src/features/users/EditUserForm.tsx:83-88 | `{...m, [name]: checked}` sets the named flag, keeps every other flag, and keeps the key order, appending a new key at the end. |
| EditUserForm.Checked | src/features/users/EditUserForm.tsx:74 | `selectRoles[key] === true`; stated through `EditUserForm.SelectedRoles`. |
| EditUserForm.Selected | src/features/users/EditUserForm.tsx:74 | The selected role names; stated by `EditUserForm.SelectedRoles`. |
| EditUserForm.SelectedRoles | src/features/users/EditUserForm.tsx:74 | A role is selected iff it is a key with a true flag. |
| EditUserForm.InitialRoles | src/features/users/EditUserForm.tsx:46-50 | The reduce over ROLES builds a map whose keys are ROLES in order, with each flag equal to the given test. |
| EditUserForm.CanSave | src/features/users/EditUserForm.tsx:76-81 | True iff at least one role, a valid username, a valid password when one is typed, and nothing loading. |
| EditUserForm.Form.constructor | src/features/users/EditUserForm.tsx:40-53 | The username and active flag come from the user, the password is '', and each role flag is `user.roles.includes(role)`. |
| EditUserForm.Form.SetUsername | src/features/users/EditUserForm.tsx:55-57 | Sets the username and its validity. |
| EditUserForm.Form.SetPassword | src/features/users/EditUserForm.tsx:59-61 | Sets the password and its validity. |
| EditUserForm.Form.OnActiveChanged | src/features/users/EditUserForm.tsx:72 | Flips `active` only. |
| EditUserForm.Form.OnRolesChanged | src/features/users/EditUserForm.tsx:83-88 | Changes only the named role's flag. |
| EditUserForm.Form.SavePayload | src/features/users/EditUserForm.tsx:90-106 | The body is `{id, username, roles, active}`, plus `password` iff the password is non-empty. |
| EditUserForm.Form.OnSaveClicked | src/features/users/EditUserForm.tsx:90-106 | Always sends the update, because the handler does not check `canSave`. |
| EditUserForm.Form.OpenDialog | src/features/users/EditUserForm.tsx:295-309 | The Delete button opens the dialog, and so does its `onClose`. |
| EditUserForm.Form.DismissDialog | src/features/users/EditUserForm.tsx:320 | 'No' closes the dialog. |
| EditUserForm.Form.OnDeleteConfirmed | src/features/users/EditUserForm.tsx:108-111 | Closes the dialog and sends a delete of exactly `{id: user.id}`. |
| EditUserForm.Form.OnMutationSettled | src/features/users/EditUserForm.tsx:63-70 | After success, username and password become '', the roles return to their initial state, and the form navigates to '/users'. |
| NewUserForm.CanAdd | src/features/users/NewUserForm.tsx:60 | True iff at least one role, a valid username, a valid password and nothing loading. This is stricter than the edit rule. |
| NewUserForm.NoneChecked | src/features/users/NewUserForm.tsx:34-39 | With every flag false, no role is selected. |
| NewUserForm.InitialFormCannotSave | src/features/users/NewUserForm.tsx:59-60 | With every flag false, saving is impossible. |
| NewUserForm.Form.constructor | src/features/users/NewUserForm.tsx:29-39 | Empty username and password, and every ROLES flag false. |
| NewUserForm.Form.SetUsername | src/features/users/NewUserForm.tsx:42-44 | Sets the username and its validity, with the same predicate as the edit form. |
| NewUserForm.Form.SetPassword | src/features/users/NewUserForm.tsx:46-48 | Sets the password and its validity, with the same predicate. |
| NewUserForm.Form.OnRolesChanged | src/features/users/NewUserForm.tsx:62-67 | Changes only the named role's flag. |
| NewUserForm.Form.AddPayload | src/features/users/NewUserForm.tsx:75 | The body is exactly `{username, password, roles}`. |
| NewUserForm.Form.OnSaveClicked | src/features/users/NewUserForm.tsx:69-77 | The add is sent iff `canSave`, with the add payload. |
| NewUserForm.Form.OnAddSettled | src/features/users/NewUserForm.tsx:50-57 | On success, username and password become '', the roles reset to all false, and the form navigates to '/users'. |
| Sidebar.Substring | src/components/Sidebar.tsx:54-58 | `substring(start)` is the suffix from `start`, or '' past the end. |
| Sidebar.ListedItems | src/components/Sidebar.tsx:148-154 | 'Manage Users' is listed iff admin. Every other item always is, in order. |
| Sidebar.LogoutLabel | src/components/Sidebar.tsx:169 | 'Log in' iff the username is '', else 'Log out'. |
| Sidebar.LowerLabel | src/components/Sidebar.tsx:66 | Lower-casing is character by character. |
| Sidebar.ItemRoundTrip | src/components/Sidebar.tsx:53-77 | For each of the four items, the path its click navigates to highlights that same item. |
| Sidebar.HomeRoundTrip | src/components/Sidebar.tsx:53-77 | 'Home' round-trips through '/home'. |
| Sidebar.NewRequestRoundTrip | src/components/Sidebar.tsx:53-77 | 'New Request' round-trips through '/requests/new'. |
| Sidebar.RequestsRoundTrip | src/components/Sidebar.tsx:53-77 | 'Requests' round-trips through '/requests'. |
| Sidebar.ManageUsersRoundTrip | src/components/Sidebar.tsx:53-77 | 'Manage Users' round-trips through '/users'. |
| Sidebar.ActiveForPath | src/components/Sidebar.tsx:53-59 | The label the current path highlights; stated by `Sidebar.RouteRoundTrip`, `Sidebar.ItemRoundTrip` and `Sidebar.UnlistedPaths`. |
| Sidebar.RouteFor | src/components/Sidebar.tsx:70-77 | The path a label navigates to; stated by the same round-trip lemmas. |
| Sidebar.RouteRoundTrip | src/components/Sidebar.tsx:53-77 | A plain label round-trips through '/label' unless it is 'users' or is twelve characters ending in 'new', which `substring(10)` takes for the new-request page. |
| Sidebar.NewRequestRoute | src/components/Sidebar.tsx:53-77 | '/requests/new' highlights 'new request' through the `substring(10)` test. |
| Sidebar.UnlistedPaths | src/components/Sidebar.tsx:53-59 | '/users/new' highlights 'users/new'. '/requests/' + id highlights 'new request' only for 'new', else 'requests/' + id. |
| Sidebar.SidebarState.constructor | src/components/Sidebar.tsx:53-59 | On mount the path effect sets the highlighted item. |
| Sidebar.SidebarState.OnPathname | src/components/Sidebar.tsx:53-59 | A new path sets the highlighted item by the path rule. |
| Sidebar.SidebarState.ClickItem | src/components/Sidebar.tsx:70-77 | A click highlights the lower-cased label and navigates to its route. |
| Sidebar.SidebarState.ClickLogout | src/components/Sidebar.tsx:161 | The bottom entry sends a logout. |
| Sidebar.SidebarState.OnLogoutSettled | src/components/Sidebar.tsx:61-63 | Logout success navigates to '/login'. |
| Sidebar.ClickThenArrive | src/components/Sidebar.tsx:53-77 | A click followed by its path effect leaves the clicked item highlighted. |
| Topbar.FormatUsername | src/components/Topbar.tsx:21 | Same length. The first character is upper-cased and the rest are unchanged; the empty name stays ''. |
| Topbar.FormatUsernameProperties | src/components/Topbar.tsx:21 | Formatting is idempotent and does not change the lower-cased name. |
| Topbar.UserMenuOption | src/components/Topbar.tsx:43-52 | The menu offers 'Log in' iff the username is ''. |
| Topbar.TopbarState.constructor | src/components/Topbar.tsx:29 | The anchor starts null, so the menu starts closed. |
| Topbar.TopbarState.HandleOpenUserMenu | src/components/Topbar.tsx:31-33 | Sets the anchor to the clicked element, so the menu (`open={Boolean(anchorElUser)}`) is open; nothing is navigated. |
| Topbar.TopbarState.HandleCloseUserMenu | src/components/Topbar.tsx:34-36 | Clears the anchor, so the menu is closed; nothing is navigated. |
| Topbar.TopbarState.HandleLogout | src/components/Topbar.tsx:38-41 | Closes the menu, then sends the logout. |
| Topbar.TopbarState.ChooseMenuOption | src/components/Topbar.tsx:43-52 | Signed out, the option navigates to '/login'. Signed in, it closes the menu and sends the logout. |
| Topbar.TopbarState.OnLogoutSettled | src/components/Topbar.tsx:25-27 | Logout success navigates to '/login'. |
| Topbar.ToggleColorMode | src/components/Topbar.tsx:68 | The colour button toggles the mode. |
| Home.Greeting | src/components/Home.tsx:6-16 | The heading is 'Welcome ' followed by the formatted username. |
| Home.SignedOutGreeting | src/components/Home.tsx:6-16 | With no username, the heading is 'Welcome '. |
| Seqs.FilterSubsequence | src/features/requests/RequestsList.tsx:113-117 | `filter` keeps order: its result is a subsequence of its input. |
| Seqs.FilterMembers | src/features/requests/RequestsList.tsx:113-117 | An element survives `filter` iff it is in the input and satisfies the test. |
| Seqs.FilterCount | src/features/requests/RequestsList.tsx:113-117 | `filter` keeps every occurrence of a passing element and none of a failing one. |
| Seqs.FilterAppend | src/features/requests/RequestsList.tsx:113-117 | Filtering distributes over concatenation. |
| Seqs.ReplaceCharAppend | src/features/users/UsersList.tsx:35 | `replaceAll` of one character distributes over concatenation. |
| Seqs.ReplaceCharAbsent | src/features/users/UsersList.tsx:35 | `replaceAll` of an absent character changes nothing. |
| Seqs.IsSubstringAt | src/features/users/EditUserForm.tsx:47 | A string `includes` another iff it occurs at some position. |
| Seqs.LowerAscii | src/components/Sidebar.tsx:66 | `toLowerCase` keeps the length and maps each character. |
| Seqs.AllNonEmpty | src/features/requests/EditRequestForm.tsx:76 | `[...].every(Boolean)` over strings holds iff every one is non-empty. |
| Values.StrArray | src/features/users/EditUserForm.tsx:96-104 | A list of strings as a JSON array, item by item. |

## Left out

- Transport: the network, `fetchBaseQuery`, the base URL and cookie credentials are I/O. The gateway is given the responses as an oracle indexed by request position.
- JWT decoding: `jwtDecode` is a foreign library and is taken as a total function parameter. The code has no guard around it; a token that fails to decode would throw, and that is not modelled.
- RTK Query internals: the entity adapter's `setAll`, caching, polling, refetch-on-focus, prefetching and the effects of `resetApiState` are library behaviour. Only the order in which actions are dispatched is modelled.
- Real time: the 1000 ms `setTimeout` is modelled only as a queue that fires after the logout that scheduled it.
- Rendering: JSX and MUI layout, styling, the `className` error styling of the forms, DataGrid paging, `toLocaleString` date columns, and the theme are not modelled.
- The components that wire things together are outside this model: the store wiring, the layout component and the sidebar open/close toggle whose state the layout owns, the route table, `RequireAuth`, `PersistLogin`, `usePersist` and `Prefetch`.
- ROLES is taken as `['Sales', 'Engineer', 'Admin']`, the names the edit form's role checkboxes use. REQTYPES only fills a drop-down and is not modelled.
- Case mapping covers ASCII letters only; `toUpperCase` and `toLowerCase` are not modelled beyond them.
- Numbers are integers; floating point, `NaN` and number-typed ids are not modelled (ids are strings, as route parameters are).
- `Object.values` is taken to list entries in insertion order.
- The request fields `ticket`, `createdAt` and `updatedAt` are only displayed, and are not modelled.
- Effects are modelled as running right after the state change that triggers them, inside the method that makes the change. Render timing is not modelled.
- AuthSlice.AccessTokenOf: a payload whose `accessToken` is not a string (a number, say) is stored as no token, whereas the source would store the value as it is.
- Login.LoginForm.HandleSubmit: a success whose body is `null` or `undefined` throws a `TypeError` in the source. It is modelled as the 'No Server Response' branch, which is where that error, having no `status`, lands.
- The mutation `isError` flags only pick a CSS class, and are not modelled.
- RequestsApiSlice.MutationShapes / UsersApiSlice.MutationShapes: a string or array argument spreads to `{}` rather than to its index keys. Every payload the client passes is an object, so no call is affected.
- How RTK Query reports an error thrown inside `validateStatus` is library behaviour; the model stops at `Thrown`.
- The dialogs' `onClose` sets `open` to true rather than false. This is modelled as written, in `OpenDialog`.
