# User modals of the administrative panel: a verified model

This project models the logic beneath two React modals of the administrative
panel: `UserCreationModal`, which creates a user account, and
`UserSettingsModal`, which edits an existing user's profile, role, assigned
pages and custom permissions. The rendering is left aside. What remains is:

- `Checklist`: the checkbox-list toggle that both modals use for assigned
  pages and for custom permissions. If the id is present, every occurrence is
  filtered out. Otherwise the id is appended. It is proved against an
  independent characterisation. The result is the unique subsequence of the
  list that drops exactly the id's occurrences. It distributes over
  concatenation. Toggling an absent id twice is the identity.
- `Roles`: the page-scoping predicate. Roles `"user"` and `"viewer"` see only
  their assigned pages.
- `UserSettings`: the edit form and how it is loaded from a user record. It
  also covers the `updateUser` payload, the submit flow
  (`updateUser`, then `assignPagesToUser` for page-scoped roles, then
  `onSuccess`) and a `SettingsModal` class holding the component's state.
- `UserCreation`: the creation form and its initial state. It also covers the
  submit flow (`createUser`, then `onSuccess` and `onClose`, then the form
  reset), the two error messages and a `CreationModal` class holding the
  component's state.
- `Collaborators`: the optional values and the replies of the authentication
  library.

The library functions (`createUser`, `updateUser`, `assignPagesToUser`)
are not part of this model. Each call's reply is an input to the submit
method: it returned a value, or it threw. Every call the handler makes,
including the `onSuccess`/`onClose` callbacks, is appended to an `effects`
trace field, in order.

Three behaviours of the code are worth stating plainly:

- The settings modal spreads the whole form, `assignedPages` included, into
  the `updateUser` payload for every role. Only the separate
  `assignPagesToUser` call is gated by role
  (`UserSettings.UnscopedRoleStillSendsPages`).
- Toggling an id twice is the identity only for an absent id. For a present
  id, the second toggle appends it at the end, so the members are the same but
  the order may differ (`Checklist.ToggleTwiceAbsent`,
  `Checklist.ToggleTwicePresent`, `Checklist.ToggleTwiceReorders`).
- Changing the role never clears `assignedPages` or `customPermissions`, in
  either modal.

## Model

| member | source | states |
|---|---|---|
| Checklist.Remove | components/user-settings-modal.tsx:84 | The filtered list has no occurrence of the id. It contains exactly the other elements of the input. It is no longer than the input. |
| Checklist.Toggle | components/user-settings-modal.tsx:80-96 | The id is present afterwards exactly when it was absent. An absent id is appended as the last element, with the earlier elements unchanged. For a present id, the result keeps the order of the input and drops exactly the id's occurrences. No other id gains or loses an occurrence. The id occurs at most once afterwards. |
| Checklist.RemoveIsSubsequence | components/user-settings-modal.tsx:84 | Filtering keeps the remaining ids in their original relative order. |
| Checklist.RemoveMultiset | components/user-settings-modal.tsx:84 | Filtering removes every occurrence of the id and no occurrence of anything else. |
| Checklist.RemoveUnique | components/user-settings-modal.tsx:84 | The filtered list is the only order-preserving subsequence that drops exactly the id's occurrences. Order and multiset together determine the result. |
| Checklist.RemoveAbsent | components/user-settings-modal.tsx:84 | Filtering out an id that is not in the list returns the list unchanged. |
| Checklist.RemoveAppend | components/user-settings-modal.tsx:84 | Filtering distributes over concatenation. |
| Checklist.ToggleTwiceAbsent | components/user-settings-modal.tsx:80-96 | Toggling an absent id twice returns the identical original list. |
| Checklist.ToggleTwicePresent | components/user-settings-modal.tsx:80-96 | Toggling a present id twice gives the filtered list with the id appended once. The set of members is the same as before. |
| Checklist.ToggleTwiceReorders | components/user-creation-modal.tsx:63-70 | Concrete case: toggling "a" twice on ["a","b"] yields ["b","a"]. |
| Roles.NeedsPageAssignment | components/user-settings-modal.tsx:67 | True exactly when the role is "user" or "viewer". Line 99 of the same file and components/user-creation-modal.tsx:82 use the same test. |
| UserSettings.FormFromUser | components/user-settings-modal.tsx:37-46 | name, username, role and isActive are copied from the user, and so is each optional field that is present. A missing email or phone becomes "". Missing assigned pages or custom permissions become []. |
| UserSettings.Payload | components/user-settings-modal.tsx:58-63 | id, createdAt and lastLogin come from the edited user. Every form field is sent unchanged, including assignedPages, whatever the role. |
| UserSettings.OpenThenSaveRoundTrip | components/user-settings-modal.tsx:35-63 | Loading a user whose optional fields are all present, then saving without edits, describes exactly that user. |
| UserSettings.OpenThenSaveFillsDefaults | components/user-settings-modal.tsx:35-63 | After an unedited save, the missing optional fields come back as empty values. All other fields are the user's own. |
| UserSettings.TogglePage | components/user-settings-modal.tsx:80-87 | assignedPages is toggled. The page is present afterwards exactly when it was absent. Every other field is preserved. |
| UserSettings.TogglePermission | components/user-settings-modal.tsx:89-96 | customPermissions is toggled. The permission is present afterwards exactly when it was absent. Every other field is preserved. |
| UserSettings.SetRole | components/user-settings-modal.tsx:182 | Only the role changes. Assigned pages and custom permissions are kept. |
| UserSettings.TogglePageTwice | components/user-settings-modal.tsx:80-87 | Toggling an unassigned page twice restores the whole form. |
| UserSettings.TogglePermissionTwice | components/user-settings-modal.tsx:89-96 | Toggling an absent permission twice restores the whole form. |
| UserSettings.SubmitCalls | components/user-settings-modal.tsx:58-71 | updateUser is called first, and only once. assignPagesToUser(user.id, assignedPages) is called exactly when updateUser returned true and the role needs page assignment. onSuccess is called exactly when updateUser returned true and assignPagesToUser, if it was called, did not throw. onSuccess is the last call. assignPagesToUser and onSuccess are each called at most once. |
| UserSettings.UnscopedRoleStillSendsPages | components/user-settings-modal.tsx:58-71 | For a role that is not page-scoped, a successful save makes only the update call and onSuccess. The update payload still carries the assigned pages. |
| UserSettings.SettingsModal.constructor | components/user-settings-modal.tsx:17-28 | The initial form has empty strings, role "user", active set, and empty lists. The modal is not loading. |
| UserSettings.SettingsModal.Load | components/user-settings-modal.tsx:35-49 | When the modal is open and has a user, the form becomes FormFromUser of that user. Otherwise the form is unchanged. |
| UserSettings.SettingsModal.PageToggle | components/user-settings-modal.tsx:80-87 | The new form is TogglePage of the old one. Nothing else changes. |
| UserSettings.SettingsModal.PermissionToggle | components/user-settings-modal.tsx:89-96 | The new form is TogglePermission of the old one. Nothing else changes. |
| UserSettings.SettingsModal.ChangeRole | components/user-settings-modal.tsx:182 | The new form is SetRole of the old one. Nothing else changes. |
| UserSettings.SettingsModal.Submit | components/user-settings-modal.tsx:51-78 | With no user, nothing changes. Otherwise loading is false afterwards in every outcome and the trace grows by SubmitCalls. The form is never changed. |
| UserCreation.TogglePage | components/user-creation-modal.tsx:63-70 | assignedPages is toggled. The page is present afterwards exactly when it was absent. Every other field is preserved. |
| UserCreation.TogglePermission | components/user-creation-modal.tsx:72-79 | customPermissions is toggled. The permission is present afterwards exactly when it was absent. Every other field is preserved. |
| UserCreation.SetRole | components/user-creation-modal.tsx:188 | Only the role changes. Assigned pages and custom permissions are kept. |
| UserCreation.TogglePageTwice | components/user-creation-modal.tsx:63-70 | Toggling an unassigned page twice restores the whole form. |
| UserCreation.TogglePermissionTwice | components/user-creation-modal.tsx:72-79 | Toggling an absent permission twice restores the whole form. |
| UserCreation.SubmitCalls | components/user-creation-modal.tsx:39-55 | createUser receives the whole form, including assigned pages. onSuccess and then onClose are called exactly when createUser returned true. On a false reply or a throw, createUser is the only call. |
| UserCreation.SubmitError | components/user-creation-modal.tsx:53-57 | There is no message exactly on success. "Username already exists!" is shown exactly when createUser returned false. "Failed to create user" is shown exactly when it threw. |
| UserCreation.CreateWithTwoPages | components/user-creation-modal.tsx:63-70 | On a fresh form, choosing role "user" and ticking two distinct pages gives a createUser record with role "user" and exactly those two pages, in order. |
| UserCreation.CreationModal.constructor | components/user-creation-modal.tsx:16-27 | The initial form has empty strings, role "user" and empty lists. There is no error and the modal is not loading. |
| UserCreation.CreationModal.PageToggle | components/user-creation-modal.tsx:63-70 | The new form is TogglePage of the old one. Nothing else changes. |
| UserCreation.CreationModal.PermissionToggle | components/user-creation-modal.tsx:72-79 | The new form is TogglePermission of the old one. Nothing else changes. |
| UserCreation.CreationModal.ChangeRole | components/user-creation-modal.tsx:188 | The new form is SetRole of the old one. Nothing else changes. |
| UserCreation.CreationModal.StartSubmit | components/user-creation-modal.tsx:35-36 | Before createUser is called, the modal is loading and the error is cleared. |
| UserCreation.CreationModal.Submit | components/user-creation-modal.tsx:33-61 | loading is false afterwards in every outcome. The trace grows by SubmitCalls and the error is SubmitError of the reply, so a stale message never survives. On success the form is reset to exactly the initial form. Otherwise the form is kept unchanged. |

## Left out

- JSX rendering, CSS classes, icons and the display-only `showPageSelection`/`showPermissions` flags are not modelled. These are presentation.
- The role description panel (`roles.find`) and the role and permission lists are not modelled. They come from `PermissionManager`, which is not part of this model. The same holds for the effective-permission union.
- `getAllPages` and the `availablePages` state are not modelled. They are reference data with no logic in these files.
- The bodies of `createUser`, `updateUser` and `assignPagesToUser` are not part of this model. Each call's reply is an input. The exact field types of the library's user record (`createdAt`, `lastLogin`) are assumed to be strings, with `lastLogin` optional.
- React scheduling is not modelled. State setters are applied as immediate assignments, and `async`/`await`, `useEffect` dependencies, `e.preventDefault()` and `console.error` are left out. The intermediate `loading = true` of the settings modal is not observable in the model, because the replies arrive synchronously.
- `UserSettings.SettingsModal.Submit`: assumes the `onSuccess` callback does not throw. A throw from `onSuccess` would be caught and logged like any other.
- `UserCreation.CreationModal.Submit`: assumes the `onSuccess` and `onClose` callbacks do not throw. A throw from either would show "Failed to create user" and skip the reset.
- The single-field change handlers other than the role selector are not modelled. These are the text inputs and the active checkbox. Each replaces one field of the form and is the same record update as `SetRole`.
