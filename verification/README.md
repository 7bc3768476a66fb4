# g-nest-docs-frontend core, modelled in Dafny

This project models the client-side rules of the g-nest-docs front end. The
front end is a Next.js and React application for cloud documents and files.
The model covers these parts:

- **File names** (`file_names.dfy`): how a file name is split into base and
  extension, and how a long name is shortened for display.
- **Drag and drop** (`drag_drop.dfy`, `file_dnd.dfy`): the two drag-and-drop
  hooks of the file manager.
  - What a dragged row carries.
  - When a drop onto a folder becomes a move waiting for confirmation. A folder
    never moves into itself or into a folder on the breadcrumb trail.
  - How confirming hands the move on and clears it.
- **Request guard** (`request_queue.dfy`): the shared HTTP client refuses a
  request config that is already in flight, and it attaches the bearer token.
- **Forms** (`login_form.dfy`, `register_form.dfy`, `org_settings.dfy`,
  `org_switcher.dfy`): the validation rules of the login, registration,
  organisation-settings and organisation-creation forms, and the state their
  handlers leave.
- **Account menu** (`user_button.dfy`): the e-mail mask, the dialog flags, the
  verification-code countdown, the password form and the avatar upload.
- **Member panel** (`org_members.dfy`): how invite input is split into
  addresses, the role badges, and the rules that keep the owner from being
  demoted or removed.
- **Route gate and base URL** (`auth_gate.dfy`, `base_url.dfy`): which routes
  need a session, and the public base URL taken from the environment.

Two shared modules support the rest:

- `wrappers.dfy` defines `Option` and `Result`.
- `js_strings.dfy` defines the JavaScript string operations the code relies on,
  with JavaScript's semantics:
  - `slice` with negative and clamped indices;
  - `indexOf` and `lastIndexOf`;
  - `split` on a character;
  - `split` on a regular expression of the form `/[...]+/`, which splits on runs
    of separators;
  - `filter(Boolean)`;
  - `trim`, with the ECMAScript `\s` set.

React state is modelled as classes. Each `useState` variable is a field, and
each handler is a method whose `modifies` clause names the fields it sets.
Calls into the back end, the auth context and the organisation context are not
run: their outcome is a parameter, and the request a handler makes is returned
as a value.

Two behaviours of the code worth knowing:

- **Descendant check**: a drop is refused only when a dragged id is the target
  or appears on the breadcrumb trail shown with the row. No scan of the full
  folder tree takes place.
- **Truncated names overshoot the limit**: a shortened name is longer than the
  limit it was shortened for, as the Findings section shows.

## Model

| member | source | states |
|---|---|---|
| JsStrings.ClampIndex | src/lib/utils.ts:23-25 | how `slice` resolves an index: a negative one counts from the end, and the result is clamped to the string |
| JsStrings.SliceFromNegative | src/lib/utils.ts:23 | `s.slice(-n)` keeps the last `n` characters, or all of them when `s` is shorter |
| JsStrings.LastIndexOf | src/lib/utils.ts:29 | the result holds the character and nothing after it does, or it is -1 |
| JsStrings.Split | src/components/custom-user-button.tsx:231 | `split("@")` yields at least one piece, and no piece contains the separator |
| JsStrings.JoinSplit | src/components/custom-user-button.tsx:231 | joining the pieces of `split(c)` with `c` gives the original string back |
| JsStrings.SplitFirstPieces | src/components/custom-user-button.tsx:231 | the first two pieces are the text before the first separator and the text between the first and second separators |
| JsStrings.SplitOnRunsPieces | src/components/org-members-management.tsx:67 | splitting on separator runs gives pieces free of separators, and every interior piece is non-empty |
| JsStrings.SplitOnRunsLeading | src/components/org-members-management.tsx:67 | a leading separator run yields an empty first piece |
| JsStrings.SplitOnRunsTrailing | src/components/org-members-management.tsx:67 | a trailing separator run yields an empty last piece |
| JsStrings.ConcatSplitOnRuns | src/components/org-members-management.tsx:67 | the pieces, glued back together, are the input with its separators removed, so no other character is lost or reordered |
| JsStrings.NonEmpty | src/components/org-switcher.tsx:61 | `filter(Boolean)` leaves no empty piece and never lengthens the list |
| JsStrings.NonEmptyKeeps | src/components/org-switcher.tsx:61 | every non-empty piece is kept exactly as often as it occurs, and the empty ones are dropped |
| JsStrings.NonEmptyAppend | src/components/org-switcher.tsx:61 | filtering a concatenation is the concatenation of the filtered parts, so the kept pieces stay in their order |
| JsStrings.ConcatNonEmpty | src/components/org-switcher.tsx:61 | dropping empty pieces leaves the joined text unchanged |
| JsStrings.TrimEmpty | src/components/org-members-management.tsx:57 | `trim()` is empty exactly when every character is whitespace |
| FileNames.GetFileNameParts | src/lib/utils.ts:28-33 | with a dot after the first character, base + "." + ext is the name and ext has no dot; otherwise the whole name is the base and ext is empty |
| FileNames.TruncateName | src/lib/utils.ts:15-26 | a name within the limit comes back unchanged |
| FileNames.TruncateNameDefault | src/lib/utils.ts:15 | with the default limit of 28, a name within the limit is unchanged and a longer one becomes at most 31 characters |
| FileNames.TruncateNormal | src/lib/utils.ts:20-25 | when there is room for part of the base, the result is the first `maxLen - len(ext) - 1` characters, then "...", then the extension; its length is `maxLen + 2` |
| FileNames.TruncateExtreme | src/lib/utils.ts:22-23 | when the extension fills the limit, the result is "..." followed by the last `min(maxLen, len(ext))` characters of the extension |
| FileNames.TruncateLengthBound | src/lib/utils.ts:15-26 | for a positive limit, the result is at most `maxLen + 3` characters |
| FileNames.TruncateExceedsLimit | src/lib/utils.ts:17-25 | a name over the limit always comes back longer than the limit |
| FileNames.SplitAfterEllipsis | src/lib/utils.ts:28-33 | a shortened name splits back into the same extension |
| FileNames.TruncateIdempotent | src/lib/utils.ts:15-33 | for a positive limit, shortening an already shortened name changes nothing |
| FileNames.TruncateOverLimitExample | src/lib/utils.ts:19-25 | `truncateName("abcdefghij.txt", 10)` is `"abcdef...txt"`, 12 characters long |
| FileNames.TruncateNameWithinLimit | src/lib/utils.ts:19-25 | corrected truncation that counts the ellipsis as three characters: the result never exceeds the limit (limit of at least 3) |
| FileNames.TruncateWithinLimitShape | src/lib/utils.ts:19-25 | the corrected truncation keeps the start of the name and the whole extension, and is exactly `maxLen` long |
| DragDrop.DragPayload | src/hooks/use-drag-drop.ts:27-40 | a row in a selection of several drags the whole selection, labelled with its size; otherwise the row drags itself alone |
| DragDrop.DraggedIds | src/hooks/use-drag-drop.ts:50 | the dragged ids are the item's `ids`, or its single `id` when there are no `ids` |
| DragDrop.StagedMove | src/hooks/use-drag-drop.ts:57-62 | the staged move carries every dragged id and the target; its name is the count label for several ids and the item's name otherwise |
| DragDrop.AfterDrop | src/hooks/use-drag-drop.ts:49-64 | an accepted drop stages the move; a refused drop leaves the pending move as it was |
| DragDrop.StagedMoveIsAcyclic | src/hooks/use-drag-drop.ts:51-56 | a staged move never targets one of its sources and never takes a breadcrumb folder along |
| DragDrop.SelfDropRejected | src/hooks/use-drag-drop.ts:51-56 | a drop onto a row that is itself dragged stages nothing |
| DragDrop.DescendantDropRejected | src/hooks/use-drag-drop.ts:52-56 | a drop that would move a folder on the breadcrumb trail stages nothing |
| DragDrop.OwnPayloadRejected | src/hooks/use-drag-drop.ts:22-56 | a row's own payload always contains the row, so dropping it back on the row stages nothing |
| DragDrop.MultiPayloadDrop | src/hooks/use-drag-drop.ts:27-62 | a multi-selection is refused on a selected row, and staged whole onto an unselected folder whose breadcrumb trail holds no dragged folder |
| DragDrop.DragDropRow.constructor | src/hooks/use-drag-drop.ts:6-14 | a row starts with no pending move |
| DragDrop.DragDropRow.Render | src/hooks/use-drag-drop.ts:13-14 | a re-render refreshes the selection ref and keeps the pending move |
| DragDrop.DragDropRow.BeginDrag | src/hooks/use-drag-drop.ts:22-41 | a drag is built from the latest selection and always contains the row itself |
| DragDrop.DragDropRow.Drop | src/hooks/use-drag-drop.ts:49-64 | a drop sets the pending move as `AfterDrop` describes |
| DragDrop.DragDropRow.HandleConfirmMove | src/hooks/use-drag-drop.ts:68-73 | confirming calls `onMove` exactly once with the staged sources and target, then clears the move; with no staged move it does nothing |
| DragDrop.DragDropRow.Cancel | src/hooks/use-drag-drop.ts:83 | cancelling clears the staged move without calling `onMove` |
| FileDnd.DragPayload | src/hooks/use-file-dnd.ts:22 | a row drags its own id, type and name |
| FileDnd.AfterDrop | src/hooks/use-file-dnd.ts:29-37 | a drop onto a folder different from the dragged entry stages exactly that entry's id and name with the folder as target; any other drop leaves the pending move unchanged |
| FileDnd.OwnPayloadRejected | src/hooks/use-file-dnd.ts:22-37 | a row's own payload dropped back on it never stages a move |
| FileDnd.StagedMoveIsNotSelfMove | src/hooks/use-file-dnd.ts:30-35 | no staged move has the same source and target |
| FileDnd.FileDndRow.constructor | src/hooks/use-file-dnd.ts:18 | a row starts with no pending move |
| FileDnd.FileDndRow.Drop | src/hooks/use-file-dnd.ts:29-37 | a drop sets the pending move as `AfterDrop` describes |
| FileDnd.FileDndRow.ConfirmMove | src/hooks/use-file-dnd.ts:47-52 | confirming calls `onMove` once with the staged source and target, then clears the move |
| RequestQueue.Without | src/config/axiosConfig.ts:16-20 | the filtered queue holds exactly the entries other than the removed config |
| RequestQueue.WithoutAbsent | src/config/axiosConfig.ts:16-20 | removing a config that is not queued leaves the queue unchanged |
| RequestQueue.WithoutAppend | src/config/axiosConfig.ts:17-19 | removal works piecewise, so the remaining entries keep their order |
| RequestQueue.WithoutNoDuplicates | src/config/axiosConfig.ts:16-20 | removal keeps a duplicate-free queue duplicate-free |
| RequestQueue.AddThenRemove | src/config/axiosConfig.ts:12-20 | removing the config just added restores the earlier queue |
| RequestQueue.AuthorizationHeader | src/config/axiosConfig.ts:33-38 | the header is `Bearer <token>`, and only in a browser with a non-empty stored token |
| RequestQueue.RequestTracker.constructor | src/config/axiosConfig.ts:10 | the queue starts empty |
| RequestQueue.RequestTracker.AddRequestQueue | src/config/axiosConfig.ts:12-14 | the config is appended to the queue |
| RequestQueue.RequestTracker.RemoveRequestQueue | src/config/axiosConfig.ts:16-20 | every occurrence of the config leaves the queue |
| RequestQueue.RequestTracker.OnRequest | src/config/axiosConfig.ts:26-32 | a config already in flight is refused with "请勿重复提交" and the queue is unchanged; otherwise it is queued once and passed on; the queue stays duplicate-free |
| RequestQueue.RequestTracker.OnResponse | src/config/axiosConfig.ts:46-52 | on success and on error alike, the config leaves the queue and the queue stays duplicate-free |
| LoginForm.MatchesEmailPattern | src/components/login.tsx:36 | the e-mail test accepts exactly the strings of the form `local@host.tld`, with three non-empty parts free of whitespace and "@" |
| LoginForm.EmailPatternSound | src/components/login.tsx:36 | the first-"@" procedure agrees with the regular expression's language in both directions |
| LoginForm.AccountIssues | src/components/login.tsx:32-39 | the account passes exactly when it is an e-mail or a 4-16 character username; "" gets both messages; the required message appears only for "" |
| LoginForm.PasswordIssues | src/components/login.tsx:40 | the password rule reports its one message exactly when the password is empty |
| LoginForm.UsernameWithHyphenAccepted | src/components/login.tsx:31-42 | "ab-cd" and "a@b.c" log in; "abc" and "a@b." do not; `remember` is never checked |
| LoginForm.DefaultValuesInvalid | src/components/login.tsx:73-77 | the initial values do not pass validation, and `remember` defaults to true |
| LoginForm.LoginPage.constructor | src/components/login.tsx:64-67 | the page starts without an error |
| LoginForm.LoginPage.OnSubmit | src/components/login.tsx:85-96 | a successful login clears the error and navigates to `redirectTo`; a failed one sets the fixed failure message and stays |
| RegisterForm.UsernameIssues | src/components/register.tsx:41-45 | the username passes exactly when it has 3-20 characters, all letters, digits or "_" |
| RegisterForm.RegisterRuleExamples | src/components/register.tsx:40-53 | "-" is refused in usernames, the code only needs six characters of any kind, and passwords need a letter, a digit and a single line |
| RegisterForm.Tick | src/components/register.tsx:102-107 | one tick lowers a positive countdown by one and leaves zero at zero |
| RegisterForm.TickNValue | src/components/register.tsx:102-107 | after `n` ticks, the countdown has dropped by `n`, stopping at zero |
| RegisterForm.FailureMessage | src/components/register.tsx:142 | a non-empty server message is shown; otherwise the fallback is |
| RegisterForm.RegisterPage.constructor | src/components/register.tsx:79-81 | the page starts with no countdown and no messages |
| RegisterForm.RegisterPage.TickCountdown | src/components/register.tsx:102-107 | the countdown effect advances the countdown by one `Tick` |
| RegisterForm.RegisterPage.HandleSendCode | src/components/register.tsx:109-132 | the countdown restarts at 60 and the e-mail is posted, whatever the field validation says; the success message replaces the error |
| RegisterForm.RegisterPage.OnSubmit | src/components/register.tsx:134-144 | after register and login succeed, the page reports success and navigates; on the first failure it keeps the server's message (or "注册失败") and does not navigate |
| OrgSettings.ValidateFile | src/components/org-settings-form.tsx:48-56 | a file is accepted exactly when it is an `image/` type of at most 2 MiB; the type error takes precedence over the size error |
| OrgSettings.ValidateFileBoundaries | src/components/org-settings-form.tsx:48-56 | exactly 2 MiB is accepted, one byte more is refused, and a large non-image gets the type error |
| OrgSettings.SettingsSlugExamples | src/components/org-settings-form.tsx:290-295 | the settings slug may be empty; upper case and "_" are refused |
| OrgSettings.SubmitToast | src/components/org-settings-form.tsx:115-129 | the form reports "saved" only when both the save and the refresh succeed |
| OrgSettings.OrgSettingsPage.constructor | src/components/org-settings-form.tsx:25-29 | the form starts with no drag, no reject reason, no upload and no preview |
| OrgSettings.OrgSettingsPage.HandleFileUpload | src/components/org-settings-form.tsx:81-113 | a MEMBER only gets a warning; a valid file is uploaded and its URL becomes the logo, and the uploading flag and preview are reset; an invalid file is refused with its error |
| OrgSettings.OrgSettingsPage.HandleDrop | src/components/org-settings-form.tsx:59-79 | no file does nothing; several files are refused with the one-file toast; a bad file sets the reject reason, shows no toast and uploads nothing; one good file is uploaded with the upload handler's toasts, and the logo becomes the returned URL or stays as it was when the upload fails |
| OrgSettings.OrgSettingsPage.DragOver | src/components/org-settings-form.tsx:192-195 | dragging over the zone marks it as a drag target |
| OrgSettings.OrgSettingsPage.DragLeave | src/components/org-settings-form.tsx:196 | leaving the zone clears the mark |
| OrgSettings.OrgSettingsPage.ClearRejectReason | src/components/org-settings-form.tsx:75 | the timer clears the reject reason |
| UserButton.MaskLocalShape | src/components/custom-user-button.tsx:232 | the mask keeps the first and the last two characters around "***", so it is always 7 long for a local part of two or more characters |
| UserButton.ObfuscateEmail | src/components/custom-user-button.tsx:229-234 | "" gives ""; text without "@" gives its mask alone; otherwise the result is the mask of the text before the first "@", then "@" and the text between the first and second "@" when that text is non-empty |
| UserButton.ObfuscateSingleAt | src/components/custom-user-button.tsx:229-234 | an address with one "@" becomes mask(local) + "@" + domain, or the mask alone when the domain is empty |
| UserButton.ObfuscateShortExample | src/components/custom-user-button.tsx:232 | a two-character text without "@" is shown on both sides of the stars |
| UserButton.ObfuscateSecondAtExample | src/components/custom-user-button.tsx:231-233 | a second "@" cuts the displayed domain short |
| UserButton.PasswordFormWarnings | src/components/custom-user-button.tsx:196-201 | there are no warnings exactly when the new password is non-empty, matches the confirmation, and a code is given; each warning appears exactly for its own condition |
| UserButton.ViewFor | src/components/custom-user-button.tsx:236-249 | a skeleton while loading, the login link when loading has finished without a session, and the menu only with a session |
| UserButton.UserButtonState.constructor | src/components/custom-user-button.tsx:40-58 | both dialogs are closed, the countdown is 0 and the password form is empty |
| UserButton.UserButtonState.ToggleDialog | src/components/custom-user-button.tsx:225-227 | only the named dialog flag changes |
| UserButton.UserButtonState.ConfirmLogout | src/components/custom-user-button.tsx:314-317 | confirming logs out and closes the confirmation, leaving the account dialog alone |
| UserButton.UserButtonState.TickCountdown | src/components/custom-user-button.tsx:183-186 | an interval tick never takes the countdown below zero |
| UserButton.UserButtonState.HandleSendVerificationCode | src/components/custom-user-button.tsx:164-193 | without an e-mail nothing happens; otherwise the e-mail is posted, the countdown is 60 and the send button is disabled |
| UserButton.UserButtonState.HandlePasswordUpdate | src/components/custom-user-button.tsx:195-217 | the checks only add warnings; the request is always sent with the form's values; success clears the form and logs out, failure keeps the form |
| UserButton.UserButtonState.UploadAvatar | src/components/custom-user-button.tsx:111-147 | success sets the avatar to the returned URL (or removes it); failure keeps it; uploading ends either way |
| UserButton.UserButtonState.HandleFileUpload | src/components/custom-user-button.tsx:149-156 | with no file chosen, nothing happens; otherwise the avatar is uploaded |
| UserButton.UserButtonState.HandleDeleteAvatar | src/components/custom-user-button.tsx:158-161 | the avatar is removed on success, and the confirmation closes either way |
| OrgMembers.InviteEmailsPieces | src/components/org-members-management.tsx:67 | the addresses contain no separators, and only the first and the last can be empty |
| OrgMembers.InviteEmailsEnds | src/components/org-members-management.tsx:67 | an input that starts with a separator gives an empty first address, and one that ends with a separator gives an empty last address |
| OrgMembers.InviteEmailsKeepText | src/components/org-members-management.tsx:67 | together the addresses hold every non-separator character of the input, in order |
| OrgMembers.RoleLabel | src/components/org-members-management.tsx:222-226 | OWNER shows as 拥有者, ADMIN as 管理员, and any other role as 成员 |
| OrgMembers.OwnerIsProtected | src/components/org-members-management.tsx:236-256 | the panel never offers to change or remove the owner, never offers OWNER as a new role, and never lets a MEMBER remove anyone |
| OrgMembers.OrgMembersPage.constructor | src/components/org-members-management.tsx:37-40 | the panel starts fresh: loading, with no members, an empty input, the MEMBER role and the confirmation closed |
| OrgMembers.OrgMembersPage.Remount | src/components/org-switcher.tsx:33-35 | while the list reloads the switcher shows only a skeleton, which drops the management dialog and the panel in it; the panel comes back fresh |
| OrgMembers.OrgMembersPage.LoadMembers | src/components/org-members-management.tsx:42-54 | the list becomes the server's, and loading ends on success and on failure |
| OrgMembers.OrgMembersPage.HandleInvite | src/components/org-members-management.tsx:56-87 | an input of whitespace only sends nothing and warns; otherwise the split addresses are sent with the chosen role; a successful post refreshes the list, after which the panel is fresh (MEMBER role, no members, loading); a failed post changes nothing |
| OrgMembers.OrgMembersPage.UpdateMemberRole | src/components/org-members-management.tsx:89-104 | the role change is sent for that member; an error shows exactly when it fails, and then nothing changes; a successful change refreshes the list, after which the panel is fresh |
| OrgMembers.OrgMembersPage.AskRemove | src/components/org-members-management.tsx:259-262 | the member is remembered and the confirmation opens |
| OrgMembers.OrgMembersPage.ConfirmRemove | src/components/org-members-management.tsx:127-130 | the remembered member is removed and the dialog closes |
| OrgSwitcher.FindOrg | src/components/org-switcher.tsx:29 | the first organisation with that id, or none when no organisation has it |
| OrgSwitcher.TriggerLabel | src/components/org-switcher.tsx:367 | the current organisation's name, or 个人空间 when there is none or its name is empty |
| OrgSwitcher.OneActiveIndicator | src/components/org-switcher.tsx:384-418 | the personal-space dot and an organisation's dot never show together, and only rows with the current id show one |
| OrgSwitcher.InviteList | src/components/org-switcher.tsx:61 | no address in the invite list is empty |
| OrgSwitcher.InviteListShape | src/components/org-switcher.tsx:61 | the addresses contain no separators and hold every non-separator character of the input in order; they are exactly the non-empty pieces of the split, each as often as it occurs |
| OrgSwitcher.InviteListOfSeparators | src/components/org-switcher.tsx:61 | an input of separators only gives no addresses |
| OrgSwitcher.CreateSlugRequired | src/components/org-switcher.tsx:293-299 | the create form refuses an empty slug, which the settings form accepts |
| OrgSwitcher.CreateRequestFor | src/components/org-switcher.tsx:177-182 | the request carries the form's name, slug and description, and an empty logo URL becomes null |
| OrgSwitcher.OrgSwitcherState.constructor | src/components/org-switcher.tsx:27 | no management dialog is open at first |
| OrgSwitcher.OrgSwitcherState.HandleManageOrg | src/components/org-switcher.tsx:28-31 | the dialog opens on the first organisation with that id; an unknown id changes nothing |
| OrgSwitcher.OrgSwitcherState.CloseManagedOrg | src/components/org-switcher.tsx:444 | closing the management dialog clears the managed organisation |
| OrgSwitcher.CreateOrgForm.constructor | src/components/org-switcher.tsx:44-47 | the form starts fresh: the create step, no new organisation id, no preview, no logo |
| OrgSwitcher.CreateOrgForm.Remount | src/components/org-switcher.tsx:33-37 | while the list reloads the switcher shows only a skeleton, and the form declared inside it mounts anew: back to the create step with nothing kept |
| OrgSwitcher.CreateOrgForm.HandleFileUpload | src/components/org-switcher.tsx:147-166 | the returned URL becomes the logo; a failure keeps the logo; uploading ends either way |
| OrgSwitcher.CreateOrgForm.OnSubmit | src/components/org-switcher.tsx:175-190 | a successful create stores the new id and moves to the invite step; a failure stays on the same step; the invite step is never reached without an id |
| OrgSwitcher.CreateOrgForm.Close | src/components/org-switcher.tsx:193-199 | closing drops the preview and refreshes the list, after which the form is fresh |
| OrgSwitcher.InviteMembersForm.constructor | src/components/org-switcher.tsx:51-53 | the invite step starts with no addresses and the MEMBER role |
| OrgSwitcher.InviteMembersForm.HandleSendInvites | src/components/org-switcher.tsx:54-77 | it refreshes (the create form comes back fresh) and switches first in every case; a failing switch ends it there; an empty input only alerts; otherwise the filtered list is posted, and a failed post shows the fixed toast and the error message |
| OrgSwitcher.InviteMembersForm.Skip | src/components/org-switcher.tsx:119-123 | skipping refreshes (the create form comes back fresh) and switches to the new organisation |
| AuthGate.Gate | src/components/custom-client-provider.tsx:20-32 | a public route always shows its page; otherwise a route shows the loader while loading, the login page (returning to the route) without a session, and its page with one |
| AuthGate.LoginRedirectsToProtectedRoute | src/components/custom-client-provider.tsx:23-29 | the login page only appears without a session, and always returns to a non-public route |
| AuthGate.PublicRouteExamples | src/components/custom-client-provider.tsx:23-27 | route matching is exact: "/login/" and "/" need a session |
| BaseUrl.GetAutoBaseUrl | next.config.ts:3-19 | development and production give fixed URLs; otherwise a missing or empty VERCEL_URL gives localhost, a URL starting with "http" is kept, and anything else gets "https://"; every result starts with "http" |
| BaseUrl.BaseUrlStable | next.config.ts:18 | feeding the result back in as VERCEL_URL returns it unchanged, so the scheme is never added twice |
| BaseUrl.BaseUrlExamples | next.config.ts:11-18 | a bare host gets "https://", but a host whose name starts with "http" is kept as it is |

## Left out

- Toasts, alerts and console output are not modelled as effects. Where a toast reports an outcome, it is a returned value. Console logging, including the status logging of the error interceptor (src/config/axiosConfig.ts:53-64), is dropped.
- Timers are not modelled. The countdown interval and its 60-second stop, the effect's timeout, and the two-second reject-reason timeout are methods called once per firing.
- The `cropImageToCircle` canvas code (src/components/custom-user-button.tsx:60-109) is not part of this model: it is DOM, floating-point geometry and Blob I/O. A crop failure counts as a failed upload.
- Object URLs for previews (`URL.createObjectURL` and `revokeObjectURL`) become a fixed placeholder string.
- `cn`, `formatDateString` and `formatDate` (src/lib/utils.ts:6-14) are not modelled: they wrap class-name and date-formatting libraries.
- zod's `.email()` check (src/components/register.tsx:46) is library code the model cannot see. Its verdict is a parameter of `RegisterForm.RegisterValid`.
- The auth and organisation context providers are not part of this model. Their `login`, `logout`, `switchOrg` and `refreshOrgs` become outcome parameters or returned calls.
- The `dialogOpen` flag of the create form is not modelled: it is only ever set to false and never read, because the dialog keeps its own open state. The dialog goes away because `refreshOrgs` sets the context's loading flag (src/providers/org-context.tsx:38), which unmounts the form; `CreateOrgForm.Remount` models that.
- Skip: a failing `switchOrg` rethrows (src/providers/org-context.tsx:84-87), and in the skip button that only skips the write to the unread `dialogOpen` flag, so the model has no parameter for it. `HandleSendInvites` takes it as `switchFailed`.
- The state the invite form writes after the refresh has unmounted it (`isSending`) is kept in the model as the code writes it, although React drops those writes.
- JSX rendering beyond the listed indicators, disabled flags and views is not modelled.
- Plain input `onChange` setters are not modelled as methods: the e-mail, role, password-form, tab and theme fields.
- Request configs are compared by identity in the source. The model gives each config an opaque id.
- `error.config` may be undefined on a network error. The model always has a config to remove.
- JavaScript strings count UTF-16 code units; the model counts characters. Lengths and `slice` positions differ for characters outside the Basic Multilingual Plane.
- RegisterForm.RegisterPage.HandleSendCode: the catch branch (src/components/register.tsx:129-131) is not modelled. The post is not awaited, so that branch runs only if `form.trigger` throws.
- RegisterForm.RegisterPage.OnSubmit: the optional `onSuccess` callback is not modelled. It returns nothing, so navigation always follows it.
- UserButton.UserButtonState.HandleSendVerificationCode: the catch branch (src/components/custom-user-button.tsx:187-189) is not modelled, for the same reason: the post is not awaited.
- OrgSettings.OrgSettingsPage.HandleDrop: the upload is started without being awaited. The model runs it to completion inside the drop.
- The form `onSubmit` of org-settings-form.tsx (115-129) is modelled only through the toast it ends with (`OrgSettings.SubmitToast`). The PATCH body is the form's values as they are.
- The react-dnd plumbing is not modelled: accepted types, the `isDragging` and `isOver` collectors, and ref wiring.
- The file listing, pagination and selection state of the file-manager pages are not modelled.
- OrgMembers.OrgMembersPage.HandleInvite and OrgSettings.SubmitToast take a `refreshSucceeded` flag for the `refreshOrgs` they are given, but the only `refreshOrgs` the application passes (src/providers/org-context.tsx:36-63) catches every error, so a failing refresh does not occur in practice.
- After a remount the management dialog reopens on its "settings" tab (src/components/org-management-dialog.tsx:36); the tab itself is not modelled.

## Findings

| source | as written | input that shows it | evidently intended | confidence | as-written member | corrected member |
|---|---|---|---|---|---|---|
| src/lib/utils.ts:19-25 | the room left for the base subtracts 1 for the ellipsis, but the ellipsis "..." is three characters, so every shortened name is longer than `maxLen` (`maxLen + 2` in the usual case) | `truncateName("abcdefghij.txt", 10)` returns `"abcdef...txt"`, 12 characters | a shortened name fits within `maxLen` | medium, not executed | FileNames.TruncateExceedsLimit | FileNames.TruncateNameWithinLimit |
